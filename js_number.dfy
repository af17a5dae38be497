/** The part of JavaScript's number semantics that the comparison engine
    relies on: `parseFloat`, strict equality with 0, `<` / `>`, multiplication
    by a constant and truthiness. A number is a real magnitude, or None for
    NaN; every comparison with NaN is false. */
module JsNumber {
  import opened Wrappers

  /** A JavaScript number: Some(magnitude), or None for NaN. */
  type Num = Option<real>

  const NaN: Num := None

  predicate IsDigit(c: char) {
    '0' <= c <= '9'
  }

  predicate AllDigits(s: string) {
    forall i :: 0 <= i < |s| ==> IsDigit(s[i])
  }

  function DigitValue(c: char): (d: nat)
    requires IsDigit(c)
    ensures d <= 9
  {
    c as int - '0' as int
  }

  /** The characters `parseFloat` skips before the number (ECMAScript's
      StrWhiteSpaceChar: white space and line terminators). */
  predicate IsWhiteSpace(c: char) {
    c == '\t' || c == '\n' || c == '\U{B}' || c == '\U{C}' || c == '\r' || c == ' '
    || c == '\U{A0}' || c == '\U{1680}' || ('\U{2000}' <= c <= '\U{200A}')
    || c == '\U{2028}' || c == '\U{2029}' || c == '\U{202F}' || c == '\U{205F}'
    || c == '\U{3000}' || c == '\U{FEFF}'
  }

  /** The longest suffix of `s` that does not start with white space. */
  function TrimStart(s: string): (r: string)
    ensures |r| <= |s| && r == s[|s| - |r|..]
    ensures r != [] ==> !IsWhiteSpace(r[0])
    ensures forall i :: 0 <= i < |s| - |r| ==> IsWhiteSpace(s[i])
  {
    if s != [] && IsWhiteSpace(s[0]) then TrimStart(s[1..]) else s
  }

  /** Splits `s` into its longest all-digit prefix and the rest. */
  function SpanDigits(s: string): (r: (string, string))
    ensures r.0 + r.1 == s
    ensures AllDigits(r.0)
    ensures r.1 != [] ==> !IsDigit(r.1[0])
  {
    if s != [] && IsDigit(s[0]) then
      var (d, rest) := SpanDigits(s[1..]);
      ([s[0]] + d, rest)
    else
      ([], s)
  }

  /** The value of a string of decimal digits (most significant first). */
  function DigitsValue(d: string): nat
    requires AllDigits(d)
  {
    if d == [] then 0 else 10 * DigitsValue(d[..|d| - 1]) + DigitValue(d[|d| - 1])
  }

  /** The value of the digits after a decimal point: "25" is 0.25. */
  function FracValue(f: string): (v: real)
    requires AllDigits(f)
    ensures 0.0 <= v < 1.0
  {
    if f == [] then 0.0 else (DigitValue(f[0]) as real + FracValue(f[1..])) / 10.0
  }

  /** m times 10 to the power e. */
  function Scale10(m: real, e: int): (r: real)
    ensures m >= 0.0 ==> r >= 0.0
    decreases if e < 0 then -e else e
  {
    if e == 0 then m
    else if e > 0 then 10.0 * Scale10(m, e - 1)
    else Scale10(m, e + 1) / 10.0
  }

  /** 10 to the power n. */
  function Pow10(n: nat): (p: nat)
    ensures p >= 1
  {
    if n == 0 then 1 else 10 * Pow10(n - 1)
  }

  /** Splits off a leading '+' or '-': (is it '-', the rest). */
  function SplitSign(s: string): (r: (bool, string))
    ensures r.1 == s || (s != [] && (s[0] == '+' || s[0] == '-') && r.1 == s[1..])
  {
    if s != [] && (s[0] == '+' || s[0] == '-') then (s[0] == '-', s[1..]) else (false, s)
  }

  /** The decimal exponent at the head of `s`: 'e' or 'E', an optional sign
      and at least one digit; 0 when `s` does not start with one. */
  function ExponentOf(s: string): int {
    if s != [] && (s[0] == 'e' || s[0] == 'E') then
      var (negative, u) := SplitSign(s[1..]);
      var (d, _) := SpanDigits(u);
      var e: int := DigitsValue(d);
      if d == [] then 0 else if negative then -e else e
    else
      0
  }

  /** `u` starts with a decimal literal: a digit, or a point followed by a digit. */
  predicate StartsDecimal(u: string) {
    (u != [] && IsDigit(u[0])) || (|u| > 1 && u[0] == '.' && IsDigit(u[1]))
  }

  /** `s` holds a decimal number once white space and one sign are skipped. */
  predicate HasNumericPrefix(s: string) {
    StartsDecimal(SplitSign(TrimStart(s)).1)
  }

  /** Splits the head of `u` into the digits before the point, the digits
      after it (empty when there is no point) and the rest. */
  function SplitLiteral(u: string): (r: (string, string, string))
    ensures AllDigits(r.0) && AllDigits(r.1)
    ensures r.0 == SpanDigits(u).0
    ensures (r.0 == [] && r.1 == []) <==> !StartsDecimal(u)
  {
    var (ip, r1) := SpanDigits(u);
    if r1 != [] && r1[0] == '.' then
      var (fp, r2) := SpanDigits(r1[1..]);
      (ip, fp, r2)
    else
      (ip, [], r1)
  }

  /** The value of the unsigned decimal literal at the head of `u`:
      digits, an optional point with more digits, an optional exponent. */
  function ParseUnsigned(u: string): (n: Num)
    ensures n.None? <==> !StartsDecimal(u)
    ensures n.Some? ==> n.value >= 0.0
  {
    var (ip, fp, rest) := SplitLiteral(u);
    if ip == [] && fp == [] then NaN
    else Some(LiteralValue(ip, fp, rest))
  }

  /** The value of a literal from its integer digits, fraction digits and
      what follows them (where an exponent may start). */
  function LiteralValue(ip: string, fp: string, rest: string): (v: real)
    requires AllDigits(ip) && AllDigits(fp)
    ensures v >= 0.0
  {
    Scale10(DigitsValue(ip) as real + FracValue(fp), ExponentOf(rest))
  }

  /** JavaScript's `parseFloat`: the value of the longest leading decimal
      literal after white space and an optional sign, the rest (a unit such
      as " mg") ignored; NaN when there is none. */
  function ParseFloat(s: string): (n: Num)
    ensures n.None? <==> !HasNumericPrefix(s)
    ensures n.Some? && n.value < 0.0 ==> SplitSign(TrimStart(s)).0
  {
    var (negative, u) := SplitSign(TrimStart(s));
    match ParseUnsigned(u)
    case Some(m) => Some(if negative then -m else m)
    case None => NaN
  }

  /** A string that cannot continue a decimal literal: empty, or starting
      with something other than a digit, a point or an exponent letter
      (" mg", " IU", " mcg"). */
  predicate EndsNumber(t: string) {
    t == [] || (!IsDigit(t[0]) && t[0] != '.' && t[0] != 'e' && t[0] != 'E')
  }

  /** Decimal digits of `n`, most significant first (JavaScript's String(n)). */
  function NatToDigits(n: nat): (d: string)
    ensures AllDigits(d) && d != []
  {
    if n < 10 then ['0' + n as char] else NatToDigits(n / 10) + ['0' + (n % 10) as char]
  }

  // ---------------------------------------------------------------------
  // JavaScript operators on numbers

  /** `a === 0` (true for 0 and -0, false for NaN). */
  predicate IsZero(a: Num) {
    a == Some(0.0)
  }

  /** Truthiness: NaN and 0 are falsy. */
  predicate Truthy(a: Num) {
    a.Some? && a.value != 0.0
  }

  /** `a < b`: false when either is NaN. */
  predicate Less(a: Num, b: Num) {
    a.Some? && b.Some? && a.value < b.value
  }

  /** `a > b`: false when either is NaN. */
  predicate Greater(a: Num, b: Num) {
    a.Some? && b.Some? && a.value > b.value
  }

  /** `a * k` for a constant k: NaN stays NaN. */
  function Times(a: Num, k: real): (r: Num)
    ensures r.None? <==> a.None?
  {
    match a
    case Some(v) => Some(v * k)
    case None => NaN
  }

  // ---------------------------------------------------------------------
  // Lemmas about ParseFloat

  /** The digit split of `d + t` is (d, t) when t cannot continue the digits. */
  lemma {:induction false} SpanDigitsOf(d: string, t: string)
    requires AllDigits(d)
    requires t == [] || !IsDigit(t[0])
    ensures SpanDigits(d + t) == (d, t)
  {
    if d == [] {
      assert d + t == t;
    } else {
      assert (d + t)[0] == d[0] && (d + t)[1..] == d[1..] + t;
      SpanDigitsOf(d[1..], t);
      assert [d[0]] + d[1..] == d;
    }
  }

  lemma {:induction false} DigitsValueOfNat(n: nat)
    ensures DigitsValue(NatToDigits(n)) == n
  {
    if n >= 10 {
      DigitsValueOfNat(n / 10);
      var d := NatToDigits(n);
      assert d[..|d| - 1] == NatToDigits(n / 10);
    }
  }

  /** A digit string is worth its first digit times a power of ten plus the
      value of the remaining digits. */
  lemma {:induction false} DigitsValueFront(d: string)
    requires AllDigits(d) && d != []
    ensures DigitsValue(d) == DigitValue(d[0]) * Pow10(|d| - 1) + DigitsValue(d[1..])
  {
    if |d| > 1 {
      var n := |d|;
      var init := d[..n - 1];
      var tail := d[1..];
      var mid := tail[..n - 2];
      var c := DigitValue(d[n - 1]);
      assert init[0] == d[0] && init[1..] == mid && tail[n - 2] == d[n - 1];
      DigitsValueFront(init);
      assert DigitsValue(d) == 10 * DigitsValue(init) + c;
      assert DigitsValue(tail) == 10 * DigitsValue(mid) + c;
      Distribute(DigitValue(d[0]), Pow10(n - 2), DigitsValue(mid), c);
    }
  }

  lemma Distribute(k: int, p: int, w: int, c: int)
    ensures 10 * (k * p + w) + c == k * (10 * p) + (10 * w + c)
  {
  }

  /** The digits after a point are worth their value as an integer divided
      by 10 to the number of digits: "25" is 25 / 100. */
  lemma {:induction false} FracValueClosedForm(f: string)
    requires AllDigits(f)
    ensures FracValue(f) == DigitsValue(f) as real / Pow10(|f|) as real
  {
    if f != [] {
      var rest := f[1..];
      FracValueClosedForm(rest);
      DigitsValueFront(f);
      var k := DigitValue(f[0]);
      var p := Pow10(|rest|);
      FracStep(FracValue(f), FracValue(rest), k, p, DigitsValue(rest), DigitsValue(f), Pow10(|f|));
    }
  }

  /** One step of the closed form, on plain reals. */
  lemma FracStep(fv: real, fr: real, k: nat, p: nat, v: nat, dv: nat, pf: nat)
    requires p >= 1
    requires fv == (k as real + fr) / 10.0 && fr == v as real / p as real
    requires dv == k * p + v && pf == 10 * p
    ensures fv == dv as real / pf as real
  {
    var kr, pr, vr := k as real, p as real, v as real;
    assert dv as real == kr * pr + vr;
    assert pf as real == 10.0 * pr;
    assert kr + vr / pr == (kr * pr + vr) / pr;
  }

  /** parseFloat reads a string that starts with a digit or a point as it is. */
  lemma ParseUnsignedStart(s: string)
    requires s != [] && (IsDigit(s[0]) || s[0] == '.')
    ensures ParseFloat(s) == ParseUnsigned(s)
  {
    assert TrimStart(s) == s;
    assert SplitSign(s) == (false, s);
  }

  lemma NoExponent(t: string)
    requires EndsNumber(t)
    ensures ExponentOf(t) == 0
  {
  }

  /** ParseUnsigned from the three parts of a literal. */
  lemma UnsignedOfSplit(u: string, ip: string, fp: string, rest: string)
    requires AllDigits(ip) && AllDigits(fp) && ip + fp != []
    requires SplitLiteral(u) == (ip, fp, rest)
    ensures ParseUnsigned(u) == Some(LiteralValue(ip, fp, rest))
  {
  }

  /** Without an exponent a literal is worth its digits. */
  lemma LiteralWithoutExponent(ip: string, fp: string, rest: string)
    requires AllDigits(ip) && AllDigits(fp) && ExponentOf(rest) == 0
    ensures LiteralValue(ip, fp, rest) == DigitsValue(ip) as real + FracValue(fp)
  {
  }

  lemma UnsignedInteger(d: string, t: string)
    requires AllDigits(d) && d != []
    requires EndsNumber(t)
    ensures ParseUnsigned(d + t) == Some(DigitsValue(d) as real)
  {
    SpanDigitsOf(d, t);
    assert SplitLiteral(d + t) == (d, [], t);
    UnsignedOfSplit(d + t, d, [], t);
    NoExponent(t);
    LiteralWithoutExponent(d, [], t);
    assert FracValue([]) == 0.0;
  }

  lemma SplitDecimal(ip: string, fp: string, t: string)
    requires AllDigits(ip) && AllDigits(fp)
    requires EndsNumber(t)
    ensures SplitLiteral(ip + ("." + fp + t)) == (ip, fp, t)
  {
    var rest := "." + fp + t;
    SpanDigitsOf(ip, rest);
    assert rest[1..] == fp + t;
    SpanDigitsOf(fp, t);
  }

  lemma UnsignedDecimal(ip: string, fp: string, t: string)
    requires AllDigits(ip) && AllDigits(fp) && ip + fp != []
    requires EndsNumber(t)
    ensures ParseUnsigned(ip + ("." + fp + t)) == Some(DigitsValue(ip) as real + FracValue(fp))
  {
    SplitDecimal(ip, fp, t);
    UnsignedOfSplit(ip + ("." + fp + t), ip, fp, t);
    NoExponent(t);
    LiteralWithoutExponent(ip, fp, t);
  }

  /** An integer literal followed by a unit parses to its value. */
  lemma ParseInteger(d: string, t: string)
    requires AllDigits(d) && d != []
    requires EndsNumber(t)
    ensures ParseFloat(d + t) == Some(DigitsValue(d) as real)
  {
    assert (d + t)[0] == d[0];
    ParseUnsignedStart(d + t);
    UnsignedInteger(d, t);
  }

  /** A literal with a decimal point followed by a unit parses to its value. */
  lemma ParseDecimal(ip: string, fp: string, t: string)
    requires AllDigits(ip) && AllDigits(fp) && ip + fp != []
    requires EndsNumber(t)
    ensures ParseFloat(ip + "." + fp + t) == Some(DigitsValue(ip) as real + FracValue(fp))
  {
    var s := ip + ("." + fp + t);
    assert ip + "." + fp + t == s;
    assert s[0] == if ip != [] then ip[0] else '.';
    ParseUnsignedStart(s);
    UnsignedDecimal(ip, fp, t);
  }

  /** Rendering a natural number in decimal and appending a unit round-trips
      through ParseFloat. */
  lemma ParseRendered(n: nat, unit: string)
    requires EndsNumber(unit)
    ensures ParseFloat(NatToDigits(n) + unit) == Some(n as real)
  {
    ParseInteger(NatToDigits(n), unit);
    DigitsValueOfNat(n);
  }

  /** The form used for concrete label amounts: digits worth n, then a unit. */
  lemma ParseWholeAmount(s: string, d: string, unit: string, n: nat)
    requires AllDigits(d) && d != [] && DigitsValue(d) == n
    requires EndsNumber(unit) && s == d + unit
    ensures ParseFloat(s) == Some(n as real)
  {
    ParseInteger(d, unit);
  }

  /** A leading space does not change what parseFloat reads. */
  lemma ParseSkipsWhiteSpace(c: char, s: string)
    requires IsWhiteSpace(c)
    ensures ParseFloat([c] + s) == ParseFloat(s)
  {
    assert ([c] + s)[1..] == s;
  }

  /** Text with no numeric prefix (a bare unit, a word, the empty string) is NaN. */
  lemma ParseNonNumeric(s: string)
    requires s != [] && !IsWhiteSpace(s[0]) && !IsDigit(s[0]) && s[0] != '.' && s[0] != '+' && s[0] != '-'
    ensures ParseFloat(s).None?
  {
  }
}
