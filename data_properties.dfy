/** Properties of the comparison engine of lib/data.ts: the decision ladder,
    the shape of compareVitamins' result, the lookups, and worked cases on
    the shipped tables. */
module VitaminDataProperties {
  import opened Wrappers
  import opened JsNumber
  import opened JsString
  import opened VitaminData
  import opened LabelReadings

  /** low < good < high. */
  function Rank(s: Status): nat {
    match s
    case Low => 0
    case Good => 1
    case High => 2
  }

  // -----------------------------------------------------------------------
  // The decision ladder

  /** Each of the five outcomes happens exactly when its rung is the first
      that applies. */
  lemma ClassifyCases(p: Num, r: Num, u: Option<Num>)
    ensures Classify(p, r, u) == (Low, NotProvided) <==> IsZero(p)
    ensures Classify(p, r, u) == (High, AboveSafeLimit) <==> !IsZero(p) && AboveLimit(p, u)
    ensures Classify(p, r, u) == (Low, BelowRecommended) <==>
      !IsZero(p) && !AboveLimit(p, u) && Less(p, Times(r, LowFactor))
    ensures Classify(p, r, u) == (High, MuchHigherThanNeeded) <==>
      !IsZero(p) && !AboveLimit(p, u) && !Less(p, Times(r, LowFactor)) && Greater(p, Times(r, HighFactor))
    ensures Classify(p, r, u) == (Good, MeetsYourNeeds) <==>
      !IsZero(p) && !AboveLimit(p, u) && !Less(p, Times(r, LowFactor)) && !Greater(p, Times(r, HighFactor))
  {
  }

  /** A nonzero amount above a nonzero limit is "Above safe limit" whatever
      the recommended amount, even when it is also above twice it. */
  lemma UpperLimitPrecedence(p: real, r: Num, u: real)
    requires p != 0.0 && u != 0.0 && p > u
    ensures Classify(Some(p), r, Some(Some(u))) == (High, AboveSafeLimit)
  {
  }

  /** A missing limit, or one that parsed to 0 or NaN, takes no part. */
  lemma InactiveLimitIgnored(p: Num, r: Num, u: Option<Num>)
    requires u.None? || !Truthy(u.value)
    ensures Classify(p, r, u) == Classify(p, r, None)
  {
  }

  /** Between 0.8 and 2 times a positive recommended amount, and not above
      an active limit, a nutrient meets the needs. */
  lemma GoodWindow(p: real, r: real, u: Option<Num>)
    requires r > 0.0 && LowFactor * r <= p <= HighFactor * r
    requires !AboveLimit(Some(p), u)
    ensures Classify(Some(p), Some(r), u) == (Good, MeetsYourNeeds)
  {
  }

  /** For positive amounts the status only rises with the amount:
      low, then good, then high. */
  lemma ClassifyMonotone(p1: real, p2: real, r: Num, u: Option<Num>)
    requires 0.0 < p1 <= p2
    ensures Rank(Classify(Some(p1), r, u).0) <= Rank(Classify(Some(p2), r, u).0)
  {
  }

  /** Above twice a positive recommended amount, and not above an active
      limit, a nutrient is "Much higher than needed". */
  lemma AboveTwiceTarget(p: real, r: real, u: Option<Num>)
    requires r > 0.0 && p > HighFactor * r
    requires !AboveLimit(Some(p), u)
    ensures Classify(Some(p), Some(r), u) == (High, MuchHigherThanNeeded)
  {
  }

  /** A recommended amount that is NaN fails both multiplier tests. */
  lemma NaNRecommendation(p: Num, u: Option<Num>)
    requires !IsZero(p) && !AboveLimit(p, u)
    ensures Classify(p, NaN, u) == (Good, MeetsYourNeeds)
  {
  }

  // -----------------------------------------------------------------------
  // One nutrient

  lemma ParseZero()
    ensures ParseFloat("0") == Some(0.0)
  {
    var d := "0";
    assert AllDigits(d) && EndsNumber("");
    assert d[..0] == [];
    assert DigitsValue(d) == 0;
    assert d + "" == d;
    ParseInteger(d, "");
  }

  /** A nutrient the product does not list (or lists as "") is reported
      with amount "0" as low / "Not provided", whatever the target. */
  lemma AbsentNutrientNotProvided(vitamins: Vitamins, name: string, rec: Target)
    requires Lookup(vitamins, name).None? || Lookup(vitamins, name) == Some("")
    ensures Assess(vitamins, name, rec).productAmount == "0"
    ensures Assess(vitamins, name, rec).status == Low
    ensures Assess(vitamins, name, rec).statusText == NotProvided
  {
    ParseZero();
  }

  /** A listed amount without a numeric prefix parses to NaN, fails every
      comparison and is reported as good / "Meets your needs". */
  lemma NonNumericAmountIsGood(vitamins: Vitamins, name: string, rec: Target, amount: string)
    requires Lookup(vitamins, name) == Some(amount) && amount != ""
    requires !HasNumericPrefix(amount)
    ensures Assess(vitamins, name, rec).productAmount == amount
    ensures Assess(vitamins, name, rec).status == Good
    ensures Assess(vitamins, name, rec).statusText == MeetsYourNeeds
  {
  }

  // -----------------------------------------------------------------------
  // The whole comparison

  /** compareVitamins returns one result per recommendation, in the table's
      order, named after its key, with the product's raw amount (or "0"),
      the recommended amount verbatim and agreeing status and text. */
  lemma ComparisonShape(vitamins: Vitamins, recs: Recommendations)
    ensures |Comparison(vitamins, recs)| == |recs|
    ensures forall i :: 0 <= i < |recs| ==>
      var r := Comparison(vitamins, recs)[i];
      && r.name == recs[i].0
      && r.productAmount == ProductAmount(vitamins, recs[i].0)
      && r.recommendedAmount == recs[i].1.amount
      && Agree(r.status, r.statusText)
  {
  }

  /** The names of the results are the keys of the recommendation table. */
  lemma ComparisonNames(vitamins: Vitamins, recs: Recommendations)
    ensures seq(|recs|, i requires 0 <= i < |recs| => Comparison(vitamins, recs)[i].name) == Keys(recs)
  {
  }

  /** A product with no nutrients is low / "Not provided" everywhere. */
  lemma EmptyProductAllNotProvided(recs: Recommendations)
    ensures forall i :: 0 <= i < |recs| ==>
      Comparison([], recs)[i].status == Low && Comparison([], recs)[i].statusText == NotProvided
  {
    forall i | 0 <= i < |recs|
      ensures Comparison([], recs)[i].status == Low && Comparison([], recs)[i].statusText == NotProvided
    {
      AbsentNutrientNotProvided([], recs[i].0, recs[i].1);
    }
  }

  // -----------------------------------------------------------------------
  // Worked cases on the shipped tables

  /** Assess once the three numbers it reads are known. */
  lemma AssessReading(vitamins: Vitamins, name: string, rec: Target, p: Num, r: Num, u: Option<Num>)
    requires ParseFloat(ProductAmount(vitamins, name)) == p
    requires ParseFloat(rec.amount) == r
    requires UpperLimitOf(rec) == u
    ensures Assess(vitamins, name, rec).status == Classify(p, r, u).0
    ensures Assess(vitamins, name, rec).statusText == Classify(p, r, u).1
  {
  }

  /** 90 mg of vitamin C against the female 75 mg (limit 2000 mg) meets
      the needs: 60 <= 90 <= 150. */
  lemma VitaminCMeetsNeeds()
    ensures FemaleAdult()[1].0 == "Vitamin C"
    ensures Assess([("Vitamin C", "90 mg")], "Vitamin C", FemaleAdult()[1].1).status == Good
    ensures Assess([("Vitamin C", "90 mg")], "Vitamin C", FemaleAdult()[1].1).statusText == MeetsYourNeeds
  {
    var rec := FemaleAdult()[1].1;
    assert rec == Target("75 mg", Some("2000 mg"));
    assert ProductAmount([("Vitamin C", "90 mg")], "Vitamin C") == "90 mg";
    Reads90mg();
    Reads75mg();
    Reads2000mg();
    assert UpperLimitOf(rec) == Some(Some(2000.0));
    AssessReading([("Vitamin C", "90 mg")], "Vitamin C", rec, Some(90.0), Some(75.0), Some(Some(2000.0)));
    GoodWindow(90.0, 75.0, Some(Some(2000.0)));
  }

  /** "0 IU" of vitamin D is low / "Not provided" against any target. */
  lemma ZeroVitaminDNotProvided(rec: Target)
    ensures Assess([("Vitamin D", "0 IU")], "Vitamin D", rec).status == Low
    ensures Assess([("Vitamin D", "0 IU")], "Vitamin D", rec).statusText == NotProvided
  {
    assert ProductAmount([("Vitamin D", "0 IU")], "Vitamin D") == "0 IU";
    Reads0IU();
    AssessReading([("Vitamin D", "0 IU")], "Vitamin D", rec, Some(0.0), ParseFloat(rec.amount), UpperLimitOf(rec));
  }

  /** 40 mg of niacin against the male 16 mg with limit 35 mg is "Above safe
      limit", not "Much higher than needed", though 40 > 2 * 16 too. */
  lemma NiacinAboveSafeLimit()
    ensures MaleAdult()[7].0 == "Niacin"
    ensures Assess([("Niacin", "40 mg")], "Niacin", MaleAdult()[7].1).status == High
    ensures Assess([("Niacin", "40 mg")], "Niacin", MaleAdult()[7].1).statusText == AboveSafeLimit
  {
    var rec := MaleAdult()[7].1;
    assert rec == Target("16 mg", Some("35 mg"));
    assert ProductAmount([("Niacin", "40 mg")], "Niacin") == "40 mg";
    Reads40mg();
    Reads35mg();
    assert UpperLimitOf(rec) == Some(Some(35.0));
    AssessReading([("Niacin", "40 mg")], "Niacin", rec, Some(40.0), ParseFloat(rec.amount), Some(Some(35.0)));
    UpperLimitPrecedence(40.0, ParseFloat(rec.amount), 35.0);
  }

  /** Units are not reconciled: Centrum's "3500 IU" of vitamin A is read as
      3500 and compared with the "3000 mcg" limit of both tables as 3000,
      so the first result is high / "Above safe limit" for every profile. */
  lemma CentrumVitaminAAboveLimit(profile: Profile)
    ensures |Comparison(Centrum().vitamins, GetRecommendations(profile))| == 18
    ensures Comparison(Centrum().vitamins, GetRecommendations(profile))[0].status == High
    ensures Comparison(Centrum().vitamins, GetRecommendations(profile))[0].statusText == AboveSafeLimit
  {
    var recs := GetRecommendations(profile);
    var rec := recs[0].1;
    assert recs[0].0 == "Vitamin A" && rec.upperLimit == Some("3000 mcg");
    assert ProductAmount(Centrum().vitamins, "Vitamin A") == "3500 IU";
    Reads3500IU();
    Reads3000mcg();
    assert UpperLimitOf(rec) == Some(Some(3000.0));
    AssessReading(Centrum().vitamins, "Vitamin A", rec, Some(3500.0), ParseFloat(rec.amount), Some(Some(3000.0)));
    UpperLimitPrecedence(3500.0, ParseFloat(rec.amount), 3000.0);
    assert Comparison(Centrum().vitamins, recs)[0] == Assess(Centrum().vitamins, "Vitamin A", rec);
  }

  /** One A Day's 2333 (IU) of vitamin A is under the 3000 limit but above
      twice either table's amount (700 or 900), so its first result is
      high / "Much higher than needed" for every profile. */
  lemma OneADayVitaminAMuchHigher(profile: Profile)
    ensures |Comparison(OneADayWomens().vitamins, GetRecommendations(profile))| == 18
    ensures Comparison(OneADayWomens().vitamins, GetRecommendations(profile))[0].status == High
    ensures Comparison(OneADayWomens().vitamins, GetRecommendations(profile))[0].statusText == MuchHigherThanNeeded
  {
    var recs := GetRecommendations(profile);
    var rec := recs[0].1;
    assert recs[0].0 == "Vitamin A" && rec.upperLimit == Some("3000 mcg");
    assert rec.amount == "700 mcg" || rec.amount == "900 mcg";
    assert ProductAmount(OneADayWomens().vitamins, "Vitamin A") == "2333 IU";
    Reads2333IU();
    Reads3000mcg();
    Reads700mcg();
    Reads900mcg();
    assert UpperLimitOf(rec) == Some(Some(3000.0));
    var r := if rec.amount == "700 mcg" then 700.0 else 900.0;
    assert ParseFloat(rec.amount) == Some(r);
    AssessReading(OneADayWomens().vitamins, "Vitamin A", rec, Some(2333.0), Some(r), Some(Some(3000.0)));
    AboveTwiceTarget(2333.0, r, Some(Some(3000.0)));
    assert Comparison(OneADayWomens().vitamins, recs)[0] == Assess(OneADayWomens().vitamins, "Vitamin A", rec);
  }

  /** Thiamin is the sixth entry of both tables: 1.1 or 1.2 mg, no limit. */
  lemma ThiaminTarget(profile: Profile)
    ensures |GetRecommendations(profile)| == 18 && GetRecommendations(profile)[5].0 == "Thiamin"
    ensures GetRecommendations(profile)[5].1 in {Target("1.1 mg", None), Target("1.2 mg", None)}
  {
  }

  /** A decimal amount: 1.5 mg of thiamin (Centrum's label value) is read
      as 1.5 and sits between 0.8 and 2 times either table's target (1.1
      or 1.2 mg, no limit), so it meets the needs for every profile. */
  lemma ThiaminDecimalMeetsNeeds(profile: Profile)
    ensures |GetRecommendations(profile)| == 18 && GetRecommendations(profile)[5].0 == "Thiamin"
    ensures Assess([("Thiamin", "1.5 mg")], "Thiamin", GetRecommendations(profile)[5].1).status == Good
    ensures Assess([("Thiamin", "1.5 mg")], "Thiamin", GetRecommendations(profile)[5].1).statusText == MeetsYourNeeds
  {
    ThiaminTarget(profile);
    var rec := GetRecommendations(profile)[5].1;
    var onLabel := [("Thiamin", "1.5 mg")];
    assert ProductAmount(onLabel, "Thiamin") == "1.5 mg";
    Reads1_5mg();
    Reads1_1mg();
    Reads1_2mg();
    var r := if rec.amount == "1.1 mg" then 1.1 else 1.2;
    assert ParseFloat(rec.amount) == Some(r);
    assert UpperLimitOf(rec) == None;
    AssessReading(onLabel, "Thiamin", rec, Some(1.5), Some(r), None);
    GoodWindow(1.5, r, None);
  }

  /** The two recommendation tables list the same 18 nutrients in the same
      order, so a result list always has the same names whatever the sex. */
  lemma RecommendationTablesAligned()
    ensures |FemaleAdult()| == |MaleAdult()| == 18
    ensures Keys(FemaleAdult()) == Keys(MaleAdult())
  {
  }

  /** The male magnesium limit (350) is below its amount (400): the limit
      is checked first, so a male magnesium reading between 350 and 800
      is "Above safe limit", and good needs 320 <= p <= 350. */
  lemma MaleMagnesiumLimitBelowAmount(p: real)
    requires 350.0 < p
    ensures MaleAdult()[15].0 == "Magnesium"
    ensures Classify(Some(p), ParseFloat(MaleAdult()[15].1.amount), UpperLimitOf(MaleAdult()[15].1)) == (High, AboveSafeLimit)
  {
    var rec := MaleAdult()[15].1;
    assert rec == Target("400 mg", Some("350 mg"));
    Reads350mg();
    assert UpperLimitOf(rec) == Some(Some(350.0));
    UpperLimitPrecedence(p, ParseFloat(rec.amount), 350.0);
  }

  // -----------------------------------------------------------------------
  // Lookups

  /** getRecommendations reads nothing but `sex`. */
  lemma RecommendationsDependOnlyOnSex(p1: Profile, p2: Profile)
    requires p1.sex == p2.sex
    ensures GetRecommendations(p1) == GetRecommendations(p2)
  {
  }

  /** The profile the profile page stores has no `sex`: the male table. */
  lemma MissingSexIsMale(profile: Profile)
    requires profile.sex.None?
    ensures GetRecommendations(profile) == MaleAdult()
  {
  }

  /** Barcode mode is an exact key lookup: the keys map to their products
      and no near miss matches. */
  lemma BarcodeLookups()
    ensures GetProductData("123456789", Barcode) == Some(Centrum())
    ensures GetProductData("one a day", Barcode) == Some(OneADayWomens())
    ensures GetProductData("One A Day", Barcode).None?
    ensures GetProductData("12345678", Barcode).None?
  {
    ProductsWellFormed();
    LookupAt(Products(), 0);
    LookupAt(Products(), 1);
  }

  /** Name mode tries Centrum first: any search that matches its name
      finds it, whatever else would match too. */
  lemma CentrumFoundFirst(identifier: string)
    requires NameMatches(Centrum(), identifier)
    ensures GetProductData(identifier, Name) == Some(Centrum())
  {
    assert Products()[0].1 == Centrum();
  }

  /** "MULTIVITAMIN" matches both shipped names (case-insensitively) and an
      empty search matches every name; both find Centrum. */
  lemma NameSearchFirstMatch()
    ensures GetProductData("MULTIVITAMIN", Name) == Some(Centrum())
    ensures GetProductData("", Name) == Some(Centrum())
  {
    MultivitaminMatchesCentrum();
    CentrumFoundFirst("MULTIVITAMIN");
    IncludesTrivial(ToLower(Centrum().name));
    assert ToLower("") == "";
    CentrumFoundFirst("");
  }

  lemma LowerMultivitamin()
    ensures ToLower("Multivitamin") == "multivitamin"
    ensures ToLower("MULTIVITAMIN") == "multivitamin"
  {
    assert ToLower("Multivitamin") == "multivitamin";
  }

  lemma MultivitaminMatchesCentrum()
    ensures NameMatches(Centrum(), "MULTIVITAMIN")
  {
    var head := "Centrum Adult ";
    assert Centrum().name == head + "Multivitamin";
    ToLowerConcat(head, "Multivitamin");
    LowerMultivitamin();
    IncludesTrivial("multivitamin");
    IncludesConcat(ToLower(head), "multivitamin", "", "multivitamin");
    assert ToLower(head) + "multivitamin" + "" == ToLower(Centrum().name);
  }
}
