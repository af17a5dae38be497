/** The results page (app/results/page.tsx): choosing the product from the
    query parameters, the overall verdict over compareVitamins' results,
    and the page state that the effect updates. */
module ResultsPage {
  import opened Wrappers
  import VD = VitaminData
  import VP = VitaminDataProperties

  /** `overallStatus`: 'good' | 'caution' | 'poor'. */
  datatype Overall = Good | Caution | Poor

  const NotFoundName := "Product not found"

  // -----------------------------------------------------------------------
  // The verdict

  /** `comparison.filter(v => v.status === s).length`. */
  function CountStatus(results: seq<VD.VitaminResult>, s: VD.Status): (n: nat)
    ensures n <= |results|
    ensures n == 0 <==> forall i :: 0 <= i < |results| ==> results[i].status != s
    ensures n == |results| <==> forall i :: 0 <= i < |results| ==> results[i].status == s
  {
    if results == [] then 0
    else
      var rest := CountStatus(results[1..], s);
      assert forall i :: 1 <= i < |results| ==> results[i] == results[1..][i - 1];
      (if results[0].status == s then 1 else 0) + rest
  }

  /** Any high nutrient means caution; otherwise more than two low ones
      mean poor; otherwise good. */
  function OverallStatus(results: seq<VD.VitaminResult>): (o: Overall)
    ensures o == Caution <==> exists i :: 0 <= i < |results| && results[i].status == VD.High
    ensures o == Poor <==>
      (forall i :: 0 <= i < |results| ==> results[i].status != VD.High) && CountStatus(results, VD.Low) > 2
    ensures o == Good <==>
      (forall i :: 0 <= i < |results| ==> results[i].status != VD.High) && CountStatus(results, VD.Low) <= 2
  {
    if CountStatus(results, VD.High) > 0 then Caution
    else if CountStatus(results, VD.Low) > 2 then Poor
    else Good
  }

  /** The verdict as the effect computes it: count the low and the high
      results, then the if-else chain. */
  method Verdict(comparison: seq<VD.VitaminResult>) returns (o: Overall)
    ensures o == OverallStatus(comparison)
  {
    var lowCount := CountStatus(comparison, VD.Low);
    var highCount := CountStatus(comparison, VD.High);
    if highCount > 0 {
      o := Caution;
    } else if lowCount > 2 {
      o := Poor;
    } else {
      o := Good;
    }
  }

  /** The computation of the effect for a product that was found. */
  method Analyze(product: VD.Product, recommendations: VD.Recommendations)
    returns (comparison: seq<VD.VitaminResult>, verdict: Overall)
    ensures comparison == VD.Comparison(product.vitamins, recommendations)
    ensures verdict == OverallStatus(comparison)
  {
    comparison := VD.CompareVitamins(product.vitamins, recommendations);
    verdict := Verdict(comparison);
  }

  /** `getOverallMessage()`: the banner shown for each verdict. */
  function OverallMessage(o: Overall): (m: string)
    ensures m != ""
  {
    match o
    case Good => "This supplement is a good match for your needs"
    case Caution => "Caution: Some vitamins exceed recommended levels"
    case Poor => "This supplement may not meet your nutritional needs"
  }

  /** Each verdict has its own banner. */
  lemma OverallMessageInjective(o1: Overall, o2: Overall)
    ensures OverallMessage(o1) == OverallMessage(o2) <==> o1 == o2
  {
    assert |OverallMessage(Good)| == 46;
    assert |OverallMessage(Caution)| == 48;
    assert |OverallMessage(Poor)| == 51;
  }

  /** Counting splits over concatenation. */
  lemma {:induction false} CountConcat(a: seq<VD.VitaminResult>, b: seq<VD.VitaminResult>, s: VD.Status)
    ensures CountStatus(a + b, s) == CountStatus(a, s) + CountStatus(b, s)
  {
    if a == [] {
      assert a + b == b;
    } else {
      assert (a + b)[0] == a[0];
      assert (a + b)[1..] == a[1..] + b;
      CountConcat(a[1..], b, s);
    }
  }

  /** Taking the first element out of `a` and a copy of it out of `b`
      keeps two equal multisets equal. */
  lemma MultisetRemove(a: seq<VD.VitaminResult>, b: seq<VD.VitaminResult>, j: int)
    requires a != [] && 0 <= j < |b| && b[j] == a[0] && multiset(a) == multiset(b)
    ensures multiset(a[1..]) == multiset(b[..j] + b[j + 1..])
  {
    assert b == b[..j] + [b[j]] + b[j + 1..];
    assert a == [a[0]] + a[1..];
    calc {
      multiset(a[1..]);
      multiset(a) - multiset{a[0]};
      multiset(b) - multiset{b[j]};
      multiset(b[..j]) + multiset(b[j + 1..]);
      multiset(b[..j] + b[j + 1..]);
    }
  }

  /** Taking one result out of a list takes its status out of the count. */
  lemma CountRemove(b: seq<VD.VitaminResult>, j: nat, s: VD.Status)
    requires j < |b|
    ensures CountStatus(b, s) == CountStatus(b[..j] + b[j + 1..], s) + CountStatus([b[j]], s)
  {
    assert b == b[..j] + [b[j]] + b[j + 1..];
    CountConcat(b[..j] + [b[j]], b[j + 1..], s);
    CountConcat(b[..j], [b[j]], s);
    CountConcat(b[..j], b[j + 1..], s);
  }

  /** Counting ignores order. */
  lemma {:induction false} CountPermutation(a: seq<VD.VitaminResult>, b: seq<VD.VitaminResult>, s: VD.Status)
    requires multiset(a) == multiset(b)
    ensures CountStatus(a, s) == CountStatus(b, s)
    decreases |a|
  {
    if a == [] {
      assert |b| == |multiset(b)| == 0;
    } else {
      assert a[0] in multiset(b);
      var j :| 0 <= j < |b| && b[j] == a[0];
      MultisetRemove(a, b, j);
      CountPermutation(a[1..], b[..j] + b[j + 1..], s);
      CountRemove(b, j, s);
      CountConcat([a[0]], a[1..], s);
      assert a == [a[0]] + a[1..];
    }
  }

  /** The verdict depends only on which results there are, not on the
      order of the recommendation table. */
  lemma OverallPermutation(a: seq<VD.VitaminResult>, b: seq<VD.VitaminResult>)
    requires multiset(a) == multiset(b)
    ensures OverallStatus(a) == OverallStatus(b)
  {
    CountPermutation(a, b, VD.High);
    CountPermutation(a, b, VD.Low);
  }

  /** Nutrients that meet the needs never change the verdict. */
  lemma GoodResultsNeutral(a: seq<VD.VitaminResult>, g: seq<VD.VitaminResult>, b: seq<VD.VitaminResult>)
    requires forall i :: 0 <= i < |g| ==> g[i].status == VD.Good
    ensures OverallStatus(a + g + b) == OverallStatus(a + b)
  {
    CountConcat(a + g, b, VD.High);
    CountConcat(a, g, VD.High);
    CountConcat(a, b, VD.High);
    CountConcat(a + g, b, VD.Low);
    CountConcat(a, g, VD.Low);
    CountConcat(a, b, VD.Low);
  }

  /** One more low nutrient never improves the verdict: good can turn into
      poor, and caution stays caution. */
  lemma ExtraLowNeverImproves(a: seq<VD.VitaminResult>, r: VD.VitaminResult)
    requires r.status == VD.Low
    ensures OverallStatus(a) == Poor ==> OverallStatus(a + [r]) == Poor
    ensures OverallStatus(a) == Caution ==> OverallStatus(a + [r]) == Caution
  {
    CountConcat(a, [r], VD.High);
    CountConcat(a, [r], VD.Low);
  }

  /** Three low nutrients make poor, two do not, and one high nutrient
      outweighs any number of low ones. */
  lemma VerdictThresholds(low: VD.VitaminResult, good: VD.VitaminResult, high: VD.VitaminResult)
    requires low.status == VD.Low && good.status == VD.Good && high.status == VD.High
    ensures OverallStatus([low, low, low]) == Poor
    ensures OverallStatus([low, low, good]) == Good
    ensures OverallStatus([low, low, low, high]) == Caution
    ensures OverallStatus([]) == Good
  {
    CountConcat([low, low], [low], VD.Low);
    CountConcat([low], [low], VD.Low);
    assert [low, low] == [low] + [low] && [low, low, low] == [low, low] + [low];
    CountConcat([low, low], [good], VD.Low);
    assert CountStatus([good], VD.Low) == 0;
    assert [low, low, good] == [low, low] + [good];
    assert [low, low, low, high][3].status == VD.High;
  }

  /** A product with no nutrients (every result low) is poor exactly when
      the table has more than two entries. */
  lemma EmptyProductVerdict(recs: VD.Recommendations)
    ensures OverallStatus(VD.Comparison([], recs)) == (if |recs| > 2 then Poor else Good)
  {
    var c := VD.Comparison([], recs);
    VP.EmptyProductAllNotProvided(recs);
    assert forall i :: 0 <= i < |c| ==> c[i].status == VD.Low;
    assert CountStatus(c, VD.Low) == |c|;
  }

  /** Both shipped products come out as caution for every profile: their
      vitamin A reading is high. */
  lemma ShippedProductsCaution(profile: VD.Profile)
    ensures OverallStatus(VD.Comparison(VD.Centrum().vitamins, VD.GetRecommendations(profile))) == Caution
    ensures OverallStatus(VD.Comparison(VD.OneADayWomens().vitamins, VD.GetRecommendations(profile))) == Caution
  {
    VP.CentrumVitaminAAboveLimit(profile);
    VP.OneADayVitaminAMuchHigher(profile);
  }

  // -----------------------------------------------------------------------
  // Which product

  /** A query parameter or stored item that JavaScript treats as true: set
      and not empty. */
  predicate IsPresent(p: Option<string>) {
    p.Some? && p.value != ""
  }

  /** A barcode wins over a search; with neither there is no product. The
      product found is always one of the shipped ones. */
  function SelectProduct(barcode: Option<string>, search: Option<string>): (p: Option<VD.Product>)
    ensures IsPresent(barcode) ==> p == VD.GetProductData(barcode.value, VD.Barcode)
    ensures !IsPresent(barcode) && IsPresent(search) ==> p == VD.GetProductData(search.value, VD.Name)
    ensures !IsPresent(barcode) && !IsPresent(search) ==> p.None?
    ensures p.Some? ==> exists i :: 0 <= i < |VD.Products()| && VD.Products()[i].1 == p.value
  {
    if IsPresent(barcode) then
      var r := VD.GetProductData(barcode.value, VD.Barcode);
      assert r.Some? ==> (barcode.value, r.value) in VD.Products();
      r
    else if IsPresent(search) then VD.GetProductData(search.value, VD.Name)
    else None
  }

  /** The branch of the effect that picks the product. */
  method ChooseProduct(barcode: Option<string>, search: Option<string>) returns (product: Option<VD.Product>)
    ensures product == SelectProduct(barcode, search)
  {
    product := None;
    if IsPresent(barcode) {
      product := VD.GetProductData(barcode.value, VD.Barcode);
    } else if IsPresent(search) {
      product := VD.GetProductData(search.value, VD.Name);
    }
  }

  /** A known barcode finds its product whatever the search says. */
  lemma KnownBarcodeWins(search: Option<string>)
    ensures SelectProduct(Some("123456789"), search) == Some(VD.Centrum())
  {
    VP.BarcodeLookups();
  }

  /** An unknown barcode finds nothing even when the search would match:
      the search is consulted only without a barcode. */
  lemma UnknownBarcodeIgnoresSearch(barcode: string)
    requires barcode != "" && barcode !in VD.Keys(VD.Products())
    ensures SelectProduct(Some(barcode), Some("MULTIVITAMIN")) == None
    ensures SelectProduct(None, Some("MULTIVITAMIN")) == Some(VD.Centrum())
    ensures SelectProduct(Some(""), Some("MULTIVITAMIN")) == Some(VD.Centrum())
  {
    VP.NameSearchFirstMatch();
  }

  // -----------------------------------------------------------------------
  // The page state

  /** The four useState hooks of ResultsContent, plus whether the effect
      sent the user to the profile page. */
  datatype Page = Page(
    results: seq<VD.VitaminResult>,
    productName: string,
    overallStatus: Overall,
    loading: bool,
    redirectedToProfile: bool)

  /** The verdict on display is the verdict of the results on display. */
  predicate Consistent(p: Page) {
    p.overallStatus == OverallStatus(p.results)
  }

  /** `useState([])`, `useState('')`, `useState('good')`, `useState(true)`:
      the initial verdict is already the verdict of the (empty) results. */
  function InitialPage(): (p: Page)
    ensures Consistent(p) && p.loading && p.results == [] && !p.redirectedToProfile
  {
    Page([], "", Good, true, false)
  }

  /** What one run of the effect makes of the page. Without a stored
      profile it only redirects. Otherwise loading ends, and either the
      chosen product's name, comparison and verdict are shown, or "Product
      not found" is shown beside the old results and verdict.
      `userProfile` is what JSON.parse makes of the stored profile. */
  function AfterLoad(p: Page, barcode: Option<string>, search: Option<string>,
                     storedProfile: Option<string>, userProfile: VD.Profile): (q: Page)
    ensures Consistent(p) ==> Consistent(q)
  {
    if !IsPresent(storedProfile) then p.(redirectedToProfile := true)
    else
      match SelectProduct(barcode, search)
      case None => p.(productName := NotFoundName, loading := false)
      case Some(product) =>
        var comparison := VD.Comparison(product.vitamins, VD.GetRecommendations(userProfile));
        Page(comparison, product.name, OverallStatus(comparison), false, p.redirectedToProfile)
  }

  /** The cases of AfterLoad. Without a stored profile only the redirect
      flag changes. With one, loading ends and the redirect flag is kept;
      with no product "Product not found" is shown beside the old results
      and verdict; with a product its name, its comparison against the
      profile's table and the matching verdict are shown. */
  lemma AfterLoadCases(p: Page, barcode: Option<string>, search: Option<string>,
                       storedProfile: Option<string>, userProfile: VD.Profile, q: Page)
    requires q == AfterLoad(p, barcode, search, storedProfile, userProfile)
    ensures !IsPresent(storedProfile) ==>
      q.redirectedToProfile && q.(redirectedToProfile := p.redirectedToProfile) == p
    ensures IsPresent(storedProfile) ==>
      !q.loading && q.redirectedToProfile == p.redirectedToProfile
    ensures IsPresent(storedProfile) && SelectProduct(barcode, search).None? ==>
      q.productName == NotFoundName && q.results == p.results && q.overallStatus == p.overallStatus
    ensures IsPresent(storedProfile) && SelectProduct(barcode, search).Some? ==>
      && q.productName == SelectProduct(barcode, search).value.name
      && q.results == VD.Comparison(SelectProduct(barcode, search).value.vitamins,
                                    VD.GetRecommendations(userProfile))
      && Consistent(q)
  {
  }

  /** Running the effect again with the same inputs changes nothing more. */
  lemma AfterLoadIdempotent(p: Page, barcode: Option<string>, search: Option<string>,
                            storedProfile: Option<string>, userProfile: VD.Profile)
    ensures AfterLoad(AfterLoad(p, barcode, search, storedProfile, userProfile),
                      barcode, search, storedProfile, userProfile)
         == AfterLoad(p, barcode, search, storedProfile, userProfile)
  {
  }

  /** Once a product is found, what is shown does not depend on what the
      page showed before. */
  lemma FoundProductForgetsHistory(p1: Page, p2: Page, barcode: Option<string>, search: Option<string>,
                                   storedProfile: Option<string>, userProfile: VD.Profile)
    requires IsPresent(storedProfile) && SelectProduct(barcode, search).Some?
    requires p1.redirectedToProfile == p2.redirectedToProfile
    ensures AfterLoad(p1, barcode, search, storedProfile, userProfile)
         == AfterLoad(p2, barcode, search, storedProfile, userProfile)
  {
  }

  /** A page loaded from its initial state shows either no results (no
      product) or one result per entry of the 18-entry table. */
  lemma LoadedResultCount(barcode: Option<string>, search: Option<string>,
                          storedProfile: Option<string>, userProfile: VD.Profile)
    ensures var q := AfterLoad(InitialPage(), barcode, search, storedProfile, userProfile);
      Consistent(q) && (q.results == [] || |q.results| == 18)
  {
    VP.RecommendationTablesAligned();
    var q := AfterLoad(InitialPage(), barcode, search, storedProfile, userProfile);
    if IsPresent(storedProfile) && SelectProduct(barcode, search).Some? {
      var recs := VD.GetRecommendations(userProfile);
      assert |recs| == 18;
      assert |VD.Comparison(SelectProduct(barcode, search).value.vitamins, recs)| == 18;
    }
  }

  /** The body of the effect (app/results/page.tsx:27-68) on a page value:
      redirect without a stored profile; otherwise pick the product, show
      it with its comparison and verdict or show "Product not found", and
      end loading. */
  method RunEffect(p: Page, barcode: Option<string>, search: Option<string>,
                   storedProfile: Option<string>, userProfile: VD.Profile) returns (q: Page)
    ensures q == AfterLoad(p, barcode, search, storedProfile, userProfile)
  {
    q := p;
    if !IsPresent(storedProfile) {
      q := q.(redirectedToProfile := true);
      return;
    }
    var product := ChooseProduct(barcode, search);
    if product.Some? {
      var comparison, verdict := Analyze(product.value, VD.GetRecommendations(userProfile));
      q := q.(productName := product.value.name, results := comparison, overallStatus := verdict);
    } else {
      q := q.(productName := NotFoundName);
    }
    q := q.(loading := false);
  }

  /** ResultsContent's state, updated in place by its effect. */
  class ResultsContent {
    var results: seq<VD.VitaminResult>
    var productName: string
    var overallStatus: Overall
    var loading: bool
    var redirectedToProfile: bool

    function State(): Page
      reads this
    {
      Page(results, productName, overallStatus, loading, redirectedToProfile)
    }

    /** The initial state: no results, no name, good, loading. */
    constructor()
      ensures State() == InitialPage()
    {
      results := [];
      productName := "";
      overallStatus := Good;
      loading := true;
      redirectedToProfile := false;
    }

    /** One run of the effect. React applies the state updates of one run
        together once it returns; so does this method. */
    method Load(barcode: Option<string>, search: Option<string>,
                storedProfile: Option<string>, userProfile: VD.Profile)
      modifies this
      ensures State() == AfterLoad(old(State()), barcode, search, storedProfile, userProfile)
    {
      var next := RunEffect(State(), barcode, search, storedProfile, userProfile);
      results, productName, overallStatus, loading, redirectedToProfile :=
        next.results, next.productName, next.overallStatus, next.loading, next.redirectedToProfile;
    }
  }

  /** A fresh page opened with an unknown barcode and a stored profile
      ends loaded with no results, a good verdict and "Product not found". */
  method OpenUnknownBarcode(barcode: string, stored: string, userProfile: VD.Profile)
    returns (page: ResultsContent)
    requires barcode != "" && barcode !in VD.Keys(VD.Products()) && stored != ""
    ensures page.State() == Page([], NotFoundName, Good, false, false)
  {
    page := new ResultsContent();
    page.Load(Some(barcode), None, Some(stored), userProfile);
  }
}
