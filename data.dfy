/** lib/data.ts: the product table, the recommendation tables and the
    comparison engine that classifies each nutrient of a supplement
    against a recommendation table as good, low or high.

    JavaScript objects are association lists in `Object.keys` /
    `Object.entries` order: JavaScript lists the keys that are array indices
    (such as '123456789') first, in ascending order, then the other keys in
    insertion order. In the tables here the only array-index key,
    '123456789', is also the first one inserted, so that order is the
    insertion order the lists keep. */
module VitaminData {
  import opened Wrappers
  import opened JsNumber
  import opened JsString

  /** `VitaminData`: nutrient name to the amount printed on the label. */
  type Vitamins = seq<(string, string)>

  datatype Product = Product(name: string, vitamins: Vitamins)

  /** The stored profile as `JSON.parse` gives it back: every field may be
      missing. Only `sex` is read. */
  datatype Profile = Profile(age: Option<real>, sex: Option<string>, isPregnant: Option<bool>)

  /** One entry of `Recommendations`. */
  datatype Target = Target(amount: string, upperLimit: Option<string>)

  /** `Recommendations`: nutrient name to its target, in key order. */
  type Recommendations = seq<(string, Target)>

  datatype Status = Good | Low | High

  datatype VitaminResult = VitaminResult(
    name: string,
    productAmount: string,
    recommendedAmount: string,
    status: Status,
    statusText: string)

  /** The `type` argument of getProductData. */
  datatype LookupMode = Barcode | Name

  const NotProvided := "Not provided"
  const AboveSafeLimit := "Above safe limit"
  const BelowRecommended := "Below recommended"
  const MuchHigherThanNeeded := "Much higher than needed"
  const MeetsYourNeeds := "Meets your needs"

  /** Below this fraction of the recommended amount a nutrient is low. */
  const LowFactor: real := 0.8
  /** Above this multiple of the recommended amount a nutrient is high. */
  const HighFactor: real := 2.0

  // -----------------------------------------------------------------------
  // Objects as association lists

  function Keys<V>(table: seq<(string, V)>): (ks: seq<string>)
    ensures |ks| == |table|
    ensures forall i :: 0 <= i < |table| ==> ks[i] == table[i].0
  {
    seq(|table|, i requires 0 <= i < |table| => table[i].0)
  }

  predicate DistinctKeys<V>(table: seq<(string, V)>) {
    forall i, j :: 0 <= i < j < |table| ==> table[i].0 != table[j].0
  }

  /** `object[key]`: the value stored under `key`, or None for undefined. */
  function Lookup<V>(table: seq<(string, V)>, key: string): (r: Option<V>)
    ensures r.None? <==> forall i :: 0 <= i < |table| ==> table[i].0 != key
    ensures r.Some? ==> exists i :: 0 <= i < |table| && table[i] == (key, r.value)
  {
    if table == [] then None
    else if table[0].0 == key then Some(table[0].1)
    else
      var r := Lookup(table[1..], key);
      assert r.Some? ==> exists i :: 0 <= i < |table[1..]| && table[1..][i] == (key, r.value);
      r
  }

  /** In an object, the value under the i-th key is the i-th value. */
  lemma {:induction false} LookupAt<V>(table: seq<(string, V)>, i: nat)
    requires DistinctKeys(table) && i < |table|
    ensures Lookup(table, table[i].0) == Some(table[i].1)
  {
    if i > 0 {
      assert table[0].0 != table[i].0;
      assert DistinctKeys(table[1..]) by {
        forall a, b | 0 <= a < b < |table| - 1 ensures table[1..][a].0 != table[1..][b].0 {
          assert table[a + 1].0 != table[b + 1].0;
        }
      }
      LookupAt(table[1..], i - 1);
    }
  }

  /** `object[key]` is the value of the first entry with that key. */
  lemma {:induction false} LookupFirst<V>(table: seq<(string, V)>, key: string, i: nat)
    requires i < |table| && table[i].0 == key
    requires forall j :: 0 <= j < i ==> table[j].0 != key
    ensures Lookup(table, key) == Some(table[i].1)
  {
    if i > 0 {
      assert table[0].0 != key;
      LookupFirst(table[1..], key, i - 1);
    }
  }

  // -----------------------------------------------------------------------
  // Tables (lib/data.ts:24-126)

  function Centrum(): Product {
    Product("Centrum Adult Multivitamin", [
    ("Vitamin A", "3500 IU"), ("Vitamin C", "90 mg"), ("Vitamin D", "1000 IU"),
    ("Vitamin E", "45 IU"), ("Vitamin K", "25 mcg"), ("Thiamin", "1.5 mg"),
    ("Riboflavin", "1.7 mg"), ("Niacin", "20 mg"), ("Vitamin B6", "2 mg"),
    ("Folate", "400 mcg"), ("Vitamin B12", "25 mcg"), ("Biotin", "40 mcg"),
    ("Pantothenic Acid", "10 mg"), ("Calcium", "200 mg"), ("Iron", "8 mg"),
    ("Phosphorus", "20 mg"), ("Iodine", "150 mcg"), ("Magnesium", "50 mg"),
    ("Zinc", "11 mg"), ("Selenium", "55 mcg"), ("Copper", "0.5 mg"),
    ("Manganese", "2.3 mg"), ("Chromium", "45 mcg"), ("Molybdenum", "50 mcg")])
  }

  function OneADayWomens(): Product {
    Product("One A Day Women's Multivitamin", [
    ("Vitamin A", "2333 IU"), ("Vitamin C", "75 mg"), ("Vitamin D", "1000 IU"),
    ("Vitamin E", "30 IU"), ("Vitamin K", "25 mcg"), ("Thiamin", "1.5 mg"),
    ("Riboflavin", "1.7 mg"), ("Niacin", "20 mg"), ("Vitamin B6", "2 mg"),
    ("Folate", "400 mcg"), ("Vitamin B12", "6 mcg"), ("Biotin", "40 mcg"),
    ("Pantothenic Acid", "10 mg"), ("Calcium", "450 mg"), ("Iron", "18 mg"),
    ("Iodine", "150 mcg"), ("Magnesium", "50 mg"), ("Zinc", "8 mg"),
    ("Selenium", "20 mcg"), ("Copper", "0.9 mg"), ("Manganese", "1.8 mg"),
    ("Chromium", "25 mcg"), ("Molybdenum", "50 mcg")])
  }

  /** PRODUCTS, keyed by barcode or short name. */
  function Products(): seq<(string, Product)> {
    [("123456789", Centrum()), ("one a day", OneADayWomens())]
  }

  const FemaleKey := "female_19-50"
  const MaleKey := "male_19-50"

  function FemaleAdult(): Recommendations {
    [
    ("Vitamin A", Target("700 mcg", Some("3000 mcg"))),
    ("Vitamin C", Target("75 mg", Some("2000 mg"))),
    ("Vitamin D", Target("600 IU", Some("4000 IU"))),
    ("Vitamin E", Target("15 mg", Some("1000 mg"))),
    ("Vitamin K", Target("90 mcg", None)),
    ("Thiamin", Target("1.1 mg", None)),
    ("Riboflavin", Target("1.1 mg", None)),
    ("Niacin", Target("14 mg", Some("35 mg"))),
    ("Vitamin B6", Target("1.3 mg", Some("100 mg"))),
    ("Folate", Target("400 mcg", Some("1000 mcg"))),
    ("Vitamin B12", Target("2.4 mcg", None)),
    ("Biotin", Target("30 mcg", None)),
    ("Pantothenic Acid", Target("5 mg", None)),
    ("Calcium", Target("1000 mg", Some("2500 mg"))),
    ("Iron", Target("18 mg", Some("45 mg"))),
    ("Magnesium", Target("310 mg", Some("350 mg"))),
    ("Zinc", Target("8 mg", Some("40 mg"))),
    ("Selenium", Target("55 mcg", Some("400 mcg")))]
  }

  function MaleAdult(): Recommendations {
    [
    ("Vitamin A", Target("900 mcg", Some("3000 mcg"))),
    ("Vitamin C", Target("90 mg", Some("2000 mg"))),
    ("Vitamin D", Target("600 IU", Some("4000 IU"))),
    ("Vitamin E", Target("15 mg", Some("1000 mg"))),
    ("Vitamin K", Target("120 mcg", None)),
    ("Thiamin", Target("1.2 mg", None)),
    ("Riboflavin", Target("1.3 mg", None)),
    ("Niacin", Target("16 mg", Some("35 mg"))),
    ("Vitamin B6", Target("1.3 mg", Some("100 mg"))),
    ("Folate", Target("400 mcg", Some("1000 mcg"))),
    ("Vitamin B12", Target("2.4 mcg", None)),
    ("Biotin", Target("30 mcg", None)),
    ("Pantothenic Acid", Target("5 mg", None)),
    ("Calcium", Target("1000 mg", Some("2500 mg"))),
    ("Iron", Target("8 mg", Some("45 mg"))),
    ("Magnesium", Target("400 mg", Some("350 mg"))),
    ("Zinc", Target("11 mg", Some("40 mg"))),
    ("Selenium", Target("55 mcg", Some("400 mcg")))]
  }

  /** RDA_DATA, keyed by demographic. */
  function RdaData(): seq<(string, Recommendations)> {
    [(FemaleKey, FemaleAdult()), (MaleKey, MaleAdult())]
  }

  // -----------------------------------------------------------------------
  // getProductData (lib/data.ts:128-136)

  /** `product.name.toLowerCase().includes(identifier.toLowerCase())` */
  predicate NameMatches(p: Product, identifier: string) {
    Includes(ToLower(p.name), ToLower(identifier))
  }

  /** `Object.keys(products).find(k => NameMatches(products[k], identifier))`:
      the first key, in order, whose product's name matches. In an object
      `products[k]` is the product stored beside `k`. */
  function FindByName(products: seq<(string, Product)>, identifier: string): (r: Option<string>)
    ensures r.None? <==> forall i :: 0 <= i < |products| ==> !NameMatches(products[i].1, identifier)
    ensures r.Some? ==> exists i :: 0 <= i < |products| && products[i].0 == r.value
                          && NameMatches(products[i].1, identifier)
                          && forall j :: 0 <= j < i ==> !NameMatches(products[j].1, identifier)
  {
    if products == [] then None
    else if NameMatches(products[0].1, identifier) then Some(products[0].0)
    else
      var r := FindByName(products[1..], identifier);
      assert r.Some? ==> exists i :: 1 <= i < |products| && products[i].0 == r.value
                           && NameMatches(products[i].1, identifier)
                           && forall j :: 1 <= j < i ==> !NameMatches(products[j].1, identifier) by {
        if r.Some? {
          var i :| 0 <= i < |products[1..]| && products[1..][i].0 == r.value
                   && NameMatches(products[1..][i].1, identifier)
                   && forall j :: 0 <= j < i ==> !NameMatches(products[1..][j].1, identifier);
          assert forall j :: 1 <= j < i + 1 ==> products[j] == products[1..][j - 1];
        }
      }
      r
  }

  lemma ProductsWellFormed()
    ensures DistinctKeys(Products())
    ensures forall i :: 0 <= i < |Products()| ==> Products()[i].0 != ""
  {
  }

  /** In an object with distinct keys, the product stored under the key
      that FindByName returns is the first product whose name matches. */
  lemma FoundByName(products: seq<(string, Product)>, identifier: string, key: string)
    requires DistinctKeys(products) && FindByName(products, identifier) == Some(key)
    ensures Lookup(products, key).Some?
    ensures exists i :: 0 <= i < |products| && products[i].1 == Lookup(products, key).value
                        && NameMatches(products[i].1, identifier)
                        && forall j :: 0 <= j < i ==> !NameMatches(products[j].1, identifier)
  {
    var i :| 0 <= i < |products| && products[i].0 == key
             && NameMatches(products[i].1, identifier)
             && forall j :: 0 <= j < i ==> !NameMatches(products[j].1, identifier);
    LookupAt(products, i);
  }

  /** getProductData: in barcode mode the product stored under the
      identifier; in name mode the first product, in key order, whose
      lower-cased name contains the lower-cased identifier; None for null. */
  function GetProductData(identifier: string, mode: LookupMode): (r: Option<Product>)
    ensures mode == Barcode ==> (r.Some? <==> identifier in Keys(Products()))
    ensures mode == Barcode && r.Some? ==> (identifier, r.value) in Products()
    ensures mode == Name ==>
      (r.None? <==> forall i :: 0 <= i < |Products()| ==> !NameMatches(Products()[i].1, identifier))
    ensures mode == Name && r.Some? ==>
      exists i :: 0 <= i < |Products()| && Products()[i].1 == r.value
        && NameMatches(Products()[i].1, identifier)
        && forall j :: 0 <= j < i ==> !NameMatches(Products()[j].1, identifier)
  {
    match mode
    case Name =>
      var key := FindByName(Products(), identifier);
      // `key ? PRODUCTS[key] : null`
      if key.Some? && key.value != "" then
        ProductsWellFormed();
        FoundByName(Products(), identifier, key.value);
        Lookup(Products(), key.value)
      else
        ProductsWellFormed();
        None
    case Barcode =>
      // `PRODUCTS[identifier] || null`: every product is a truthy object
      Lookup(Products(), identifier)
  }

  // -----------------------------------------------------------------------
  // getRecommendations (lib/data.ts:138-141)

  /** getRecommendations: the female table exactly when the profile's sex is
      "female", the male table for every other value, including a missing one. */
  function GetRecommendations(profile: Profile): (r: Recommendations)
    ensures r == FemaleAdult() <==> profile.sex == Some("female")
    ensures profile.sex != Some("female") ==> r == MaleAdult()
  {
    var key := if profile.sex == Some("female") then FemaleKey else MaleKey;
    assert FemaleAdult()[0] != MaleAdult()[0];
    LookupAt(RdaData(), 0);
    LookupAt(RdaData(), 1);
    match Lookup(RdaData(), key)
    case Some(rec) => rec
    case None => FemaleAdult()  // `|| RDA_DATA['female_19-50']`
  }

  // -----------------------------------------------------------------------
  // compareVitamins (lib/data.ts:143-181)

  /** `productVitamins[vitaminName] || '0'`: the label amount, or "0" when
      the nutrient is missing or its amount is the empty string. */
  function ProductAmount(vitamins: Vitamins, name: string): (a: string)
    ensures a != ""
    ensures Lookup(vitamins, name) == Some(a) || (a == "0" && Lookup(vitamins, name) in {None, Some("")})
  {
    match Lookup(vitamins, name)
    case Some(v) => if v != "" then v else "0"
    case None => "0"
  }

  /** `rec.upperLimit ? parseFloat(rec.upperLimit) : null`: None is null. */
  function UpperLimitOf(rec: Target): (u: Option<Num>)
    ensures u.Some? <==> rec.upperLimit.Some? && rec.upperLimit.value != ""
    ensures u.Some? ==> u.value == ParseFloat(rec.upperLimit.value)
  {
    if rec.upperLimit.Some? && rec.upperLimit.value != "" then Some(ParseFloat(rec.upperLimit.value)) else None
  }

  /** `upperLimit && productValue > upperLimit`: a null, NaN or zero limit
      never triggers. */
  predicate AboveLimit(productValue: Num, upperLimit: Option<Num>) {
    upperLimit.Some? && Truthy(upperLimit.value) && Greater(productValue, upperLimit.value)
  }

  /** The status texts that go with each status. */
  predicate Agree(status: Status, text: string) {
    match status
    case Low => text == NotProvided || text == BelowRecommended
    case High => text == AboveSafeLimit || text == MuchHigherThanNeeded
    case Good => text == MeetsYourNeeds
  }

  /** The decision ladder of compareVitamins for one nutrient. */
  function Classify(productValue: Num, recValue: Num, upperLimit: Option<Num>): (v: (Status, string))
    ensures Agree(v.0, v.1)
    ensures IsZero(productValue) ==> v == (Low, NotProvided)
    ensures productValue.None? ==> v == (Good, MeetsYourNeeds)
  {
    if IsZero(productValue) then (Low, NotProvided)
    else if AboveLimit(productValue, upperLimit) then (High, AboveSafeLimit)
    else if Less(productValue, Times(recValue, LowFactor)) then (Low, BelowRecommended)
    else if Greater(productValue, Times(recValue, HighFactor)) then (High, MuchHigherThanNeeded)
    else (Good, MeetsYourNeeds)
  }

  /** The result compareVitamins pushes for the nutrient `name`. */
  function Assess(vitamins: Vitamins, name: string, rec: Target): (r: VitaminResult)
    ensures r.name == name && r.recommendedAmount == rec.amount
    ensures r.productAmount == ProductAmount(vitamins, name)
    ensures Agree(r.status, r.statusText)
  {
    var productAmount := ProductAmount(vitamins, name);
    var (status, text) := Classify(ParseFloat(productAmount), ParseFloat(rec.amount), UpperLimitOf(rec));
    VitaminResult(name, productAmount, rec.amount, status, text)
  }

  /** What compareVitamins returns: one result per recommendation, in order. */
  function Comparison(vitamins: Vitamins, recommendations: Recommendations): seq<VitaminResult> {
    seq(|recommendations|, i requires 0 <= i < |recommendations| =>
      Assess(vitamins, recommendations[i].0, recommendations[i].1))
  }

  /** The if-else chain of compareVitamins (lib/data.ts:154-169): starts
      from good / "Meets your needs" and overwrites both on the first rung
      that applies. */
  method Ladder(productValue: Num, recValue: Num, upperLimit: Option<Num>)
    returns (status: Status, statusText: string)
    ensures (status, statusText) == Classify(productValue, recValue, upperLimit)
  {
    status := Good;
    statusText := MeetsYourNeeds;
    if IsZero(productValue) {
      status, statusText := Low, NotProvided;
    } else if AboveLimit(productValue, upperLimit) {
      status, statusText := High, AboveSafeLimit;
    } else if Less(productValue, Times(recValue, LowFactor)) {
      status, statusText := Low, BelowRecommended;
    } else if Greater(productValue, Times(recValue, HighFactor)) {
      status, statusText := High, MuchHigherThanNeeded;
    }
  }

  /** The body of compareVitamins' loop for entry i (lib/data.ts:147-177):
      read the amounts, run the ladder, build the result. */
  method AssessEntry(productVitamins: Vitamins, recommendations: Recommendations, i: nat)
    returns (result: VitaminResult)
    requires i < |recommendations|
    ensures result == Comparison(productVitamins, recommendations)[i]
  {
    var (vitaminName, rec) := recommendations[i];
    var productAmount := ProductAmount(productVitamins, vitaminName);
    var productValue := ParseFloat(productAmount);
    var recValue := ParseFloat(rec.amount);
    var upperLimit := UpperLimitOf(rec);
    var status, statusText := Ladder(productValue, recValue, upperLimit);
    result := VitaminResult(vitaminName, productAmount, rec.amount, status, statusText);
  }

  /** Extending a prefix by one element, stated once for any element type. */
  lemma PrefixStep<T>(s: seq<T>, i: nat)
    requires i < |s|
    ensures s[..i + 1] == s[..i] + [s[i]]
  {}

  /** compareVitamins: walks the recommendation entries in order, assesses
      each and pushes its result. */
  method CompareVitamins(productVitamins: Vitamins, recommendations: Recommendations)
    returns (results: seq<VitaminResult>)
    ensures results == Comparison(productVitamins, recommendations)
  {
    results := [];
    ghost var spec := Comparison(productVitamins, recommendations);
    for i := 0 to |recommendations|
      invariant results == spec[..i]
    {
      var result := AssessEntry(productVitamins, recommendations, i);
      PrefixStep(spec, i);
      results := results + [result];
    }
  }
}
