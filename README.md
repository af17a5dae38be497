# vitamin-scanner: the comparison engine and the results page

This Dafny project models the core of vitamin-scanner, a mobile web app that
compares a supplement's label against recommended daily intakes.

- **`lib/data.ts`.** This file holds the product table (`PRODUCTS`) and the two
  recommendation tables (`RDA_DATA`). It also holds the lookups
  `getProductData` and `getRecommendations`, and `compareVitamins`. That
  function rates every nutrient of the recommendation table as good, low or
  high, with a status text.
- **`app/results/page.tsx`.** The results page picks the product from the
  `barcode` or `search` query parameter. It runs the comparison against the
  stored profile's table and sums it up as an overall verdict: good, caution
  or poor. It then updates its four pieces of React state.

The modules follow the source:

- `Wrappers`: `Option`.
- `JsNumber`: the JavaScript number semantics the engine relies on. This is
  `parseFloat`, with NaN as `None`, plus `===`, `<`, `>`, `*` and truthiness.
- `JsString`: `toLowerCase` and `includes`.
- `VitaminData`: `lib/data.ts`. The tables, the lookups, the decision ladder,
  and `compareVitamins` as a method with a loop, proved against the function
  `Comparison`.
- `LabelReadings`: what `parseFloat` reads from the label and table amounts
  that the worked cases use.
- `VitaminDataProperties`: properties of the ladder, of the comparison and of
  the lookups, plus worked cases on the shipped tables.
- `ResultsPage`: `app/results/page.tsx`.
  - The product selection, and the verdict as a function with a method that
    computes it.
  - `AfterLoad`: what the effect makes of the page state.
  - `RunEffect`: the effect's body as a method on a page value.
  - The class `ResultsContent`, whose `Load` updates the state fields in
    place.

JavaScript objects are association lists, so that `Object.keys` and
`Object.entries` keep insertion order. The model follows the code's
truthiness tests:

- `productVitamins[name] || '0'` also turns an empty amount into `"0"`.
- `rec.upperLimit ? … : null` treats an empty limit as missing.
- `upperLimit && …` switches off a limit that parses to 0 or NaN.
- `if (barcode)` ignores an empty parameter.

The code compares the raw numbers that `parseFloat` reads, whatever their
units (lib/data.ts:149-152); its own comment at lib/data.ts:149 calls this a
simple comparison that real parsing would have to replace. `RDA_DATA` has only
the two keys `female_19-50` and `male_19-50` (lib/data.ts:85-126), and
`getRecommendations` reads only `sex`, never `age` or `isPregnant`
(lib/data.ts:10-14 and 138-141). The model follows the code. Two lemmas show
what comparing raw numbers means: `CentrumVitaminAAboveLimit` (3500 IU read
as above a 3000 mcg limit) and `MaleMagnesiumLimitBelowAmount` (a male limit
of 350 below the amount of 400).

The profile page stores `{name, email}` (app/profile/page.tsx:13-21), so the
profile the results page parses usually has no `sex`, and
`getRecommendations` then picks the male table.

## Model

| member | source | states |
|---|---|---|
| JsNumber.ParseFloat | lib/data.ts:150-152 | parseFloat gives NaN exactly when the text has no decimal number after leading white space and one sign; a negative result needs a leading '-' |
| JsNumber.ParseUnsigned | lib/data.ts:150-152 | an unsigned literal is NaN exactly when the text starts with neither a digit nor a point followed by a digit; otherwise its value is non-negative |
| JsNumber.TrimStart | lib/data.ts:150 | parseFloat skips exactly the leading white space: the rest is a suffix that does not start with white space, and everything dropped is white space |
| JsNumber.SpanDigits | lib/data.ts:150 | the longest all-digit prefix and the rest concatenate back to the input, and the rest does not start with a digit |
| JsNumber.SplitLiteral | lib/data.ts:150 | a literal's integer and fraction digits are both empty exactly when the text does not start a decimal number |
| JsNumber.FracValue | lib/data.ts:150 | digits after the point are worth at least 0 and less than 1 |
| JsNumber.FracValueClosedForm | lib/data.ts:150 | the digits after the point are worth their integer value divided by 10 to the number of digits (".5" is 5/10, ".25" is 25/100) |
| JsNumber.DigitsValueFront | lib/data.ts:150 | the leading digit of a run of digits is worth its digit value times 10 to the number of digits after it |
| JsNumber.ParseInteger | lib/data.ts:150-151 | digits followed by a unit such as " mg" parse to the digits' value; the unit is ignored |
| JsNumber.ParseDecimal | lib/data.ts:150-151 | digits, a point, digits and a unit parse to the integer part plus the fraction |
| JsNumber.ParseRendered | lib/data.ts:150-151 | a natural number written in decimal, followed by a unit, parses back to itself |
| JsNumber.DigitsValueOfNat | lib/data.ts:150 | the value of a natural number's decimal digits is that number |
| JsNumber.ParseSkipsWhiteSpace | lib/data.ts:150 | a leading white-space character does not change what parseFloat reads |
| JsNumber.ParseNonNumeric | lib/data.ts:150 | text that starts with a letter or other non-numeric, non-space, non-sign character is NaN |
| JsNumber.Times | lib/data.ts:163-166 | `recValue * 0.8` and `recValue * 2` are NaN exactly when recValue is NaN |
| JsNumber.IsZero | lib/data.ts:157 | `productValue === 0` holds exactly for the number 0, never for NaN |
| JsNumber.Truthy | lib/data.ts:160 | a number is truthy exactly when it is neither NaN nor 0 |
| JsNumber.Less | lib/data.ts:163 | `a < b` holds exactly when both are numbers and a is the smaller; any NaN makes it false |
| JsNumber.Greater | lib/data.ts:160-166 | `a > b` holds exactly when both are numbers and a is the larger; any NaN makes it false |
| JsString.ToLower | lib/data.ts:131 | toLowerCase keeps the length and maps each character on its own, A-Z to a-z |
| JsString.LowerChar | lib/data.ts:131 | an upper-case ASCII letter A-Z becomes the matching a-z (32 code points on); a lower-cased character is never A-Z, and every other character is left alone |
| JsString.ToLowerIgnoresCase | lib/data.ts:131 | two strings lower-case to the same string exactly when they have the same length and differ, position by position, only in ASCII letter case (both directions) |
| JsString.Includes | lib/data.ts:131 | `includes` holds exactly when the needle occurs as a contiguous part of the haystack at some position |
| JsString.ToLowerIdempotent | lib/data.ts:131 | lower-casing twice is lower-casing once |
| JsString.IncludesTrivial | lib/data.ts:131 | every name includes the empty search and itself |
| JsString.IncludesConcat | lib/data.ts:131 | a match inside part of a name is a match inside the whole name |
| VitaminData.Keys | lib/data.ts:130 | Object.keys lists one key per entry, in order |
| VitaminData.Lookup | lib/data.ts:135 | `object[key]` is undefined exactly when no entry has the key, and otherwise an entry holds the key and that value |
| VitaminData.LookupFirst | lib/data.ts:135 | `object[key]` is the value of the first entry with that key |
| VitaminData.LookupAt | lib/data.ts:133 | in an object with distinct keys, the value under the i-th key is the i-th value (`PRODUCTS[key]` after `find`) |
| VitaminData.Centrum | lib/data.ts:25-53 | the Centrum product: its name and its 24 label amounts, in source order |
| VitaminData.OneADayWomens | lib/data.ts:54-81 | the One A Day Women's product: its name and its label amounts, in source order |
| VitaminData.Products | lib/data.ts:24-82 | PRODUCTS: the key '123456789' for Centrum, then 'one a day' |
| VitaminData.FemaleAdult | lib/data.ts:86-105 | the `female_19-50` table: 18 targets with their upper limits where given, in source order |
| VitaminData.MaleAdult | lib/data.ts:106-125 | the `male_19-50` table: 18 targets with their upper limits where given, in source order |
| VitaminData.RdaData | lib/data.ts:85-126 | RDA_DATA: the female table under `female_19-50`, then the male table under `male_19-50` |
| VitaminData.ProductsWellFormed | lib/data.ts:24-82 | PRODUCTS has distinct, non-empty keys |
| VitaminData.NameMatches | lib/data.ts:131 | a product matches when its lower-cased name includes the lower-cased identifier |
| VitaminData.FindByName | lib/data.ts:130-132 | find gives no key exactly when no product's lower-cased name includes the lower-cased search; otherwise it gives the key of the first matching product, and every earlier one fails to match |
| VitaminData.FoundByName | lib/data.ts:133 | `PRODUCTS[key]` for the key that find returns is defined, and it is the first product, in key order, whose name matches |
| VitaminData.GetProductData | lib/data.ts:128-136 | barcode mode finds a product exactly when the identifier is a key of PRODUCTS, and that key's product; name mode finds nothing exactly when no name matches, and otherwise the first matching product in key order |
| VitaminData.GetRecommendations | lib/data.ts:138-141 | the female table exactly when sex is "female"; the male table otherwise, including when sex is missing |
| VitaminData.ProductAmount | lib/data.ts:147 | the label amount when it is listed and not empty, and otherwise "0"; never empty |
| VitaminData.UpperLimitOf | lib/data.ts:152 | a limit is parsed exactly when one is given and not empty, and it is then parseFloat of it; otherwise null |
| VitaminData.AboveLimit | lib/data.ts:160 | `upperLimit && productValue > upperLimit`: a limit is given, it is neither 0 nor NaN, and the amount exceeds it |
| VitaminData.Classify | lib/data.ts:154-169 | the status and text always agree; an amount of 0 is low / "Not provided"; a NaN amount is good / "Meets your needs" |
| VitaminData.Assess | lib/data.ts:146-177 | a result carries the nutrient's name, the amount from the label (or "0"), the recommended amount verbatim and agreeing status and text |
| VitaminData.Ladder | lib/data.ts:154-169 | the if-else chain that starts from good and overwrites on the first rung that applies computes the decision ladder |
| VitaminData.Comparison | lib/data.ts:143-181 | the value compareVitamins returns: the i-th result is the assessment of the i-th recommendation entry |
| VitaminData.AssessEntry | lib/data.ts:146-177 | one pass of the loop body, for entry i, builds exactly the i-th result of Comparison |
| VitaminData.CompareVitamins | lib/data.ts:143-181 | the loop over Object.entries returns one assessment per recommendation, in table order (the function `Comparison`) |
| VitaminDataProperties.ClassifyCases | lib/data.ts:157-169 | each of the five outcomes happens exactly when its rung is the first that applies (both directions) |
| VitaminDataProperties.UpperLimitPrecedence | lib/data.ts:160-162 | a nonzero amount above a nonzero limit is "Above safe limit", whatever the recommended amount |
| VitaminDataProperties.InactiveLimitIgnored | lib/data.ts:152-162 | a missing limit, or one that parses to 0 or NaN, changes no outcome |
| VitaminDataProperties.GoodWindow | lib/data.ts:163-169 | between 0.8 and 2 times a positive recommended amount, and under the limit, a nutrient meets the needs |
| VitaminDataProperties.AboveTwiceTarget | lib/data.ts:166-168 | above twice a positive recommended amount, and under the limit, a nutrient is "Much higher than needed" |
| VitaminDataProperties.ClassifyMonotone | lib/data.ts:157-169 | for positive amounts, the status never falls as the amount rises (low before good before high) |
| VitaminDataProperties.NaNRecommendation | lib/data.ts:151-169 | a recommended amount that parses to NaN fails both multiplier tests, so the nutrient is good |
| VitaminDataProperties.ParseZero | lib/data.ts:147-157 | the fallback amount "0" parses to 0 |
| VitaminDataProperties.AbsentNutrientNotProvided | lib/data.ts:147-159 | a nutrient the label does not list, or lists as "", is reported with amount "0" as low / "Not provided" |
| VitaminDataProperties.NonNumericAmountIsGood | lib/data.ts:150-169 | a listed amount with no numeric prefix is reported verbatim as good / "Meets your needs" |
| VitaminDataProperties.ComparisonShape | lib/data.ts:146-177 | compareVitamins gives one result per recommendation, in order, with its name, the label amount, the recommended amount and agreeing status and text |
| VitaminDataProperties.ComparisonNames | lib/data.ts:146-172 | the result names are the keys of the recommendation table |
| VitaminDataProperties.EmptyProductAllNotProvided | lib/data.ts:147-159 | a product with no nutrients is low / "Not provided" on every entry |
| VitaminDataProperties.AssessReading | lib/data.ts:150-177 | once the three parsed numbers are known, a result's status and text are the ladder's verdict on them |
| VitaminDataProperties.VitaminCMeetsNeeds | lib/data.ts:88 | 90 mg of vitamin C against the female 75 mg target with a 2000 mg limit meets the needs |
| VitaminDataProperties.ZeroVitaminDNotProvided | lib/data.ts:157-159 | "0 IU" of vitamin D is low / "Not provided" against any target |
| VitaminDataProperties.ThiaminTarget | lib/data.ts:92 | thiamin is the sixth entry of both tables, at 1.1 mg or 1.2 mg (lib/data.ts:112), with no limit |
| VitaminDataProperties.ThiaminDecimalMeetsNeeds | lib/data.ts:33 | for every profile, a label reading of 1.5 mg of thiamin is good / "Meets your needs" against that profile's decimal target of 1.1 or 1.2 mg |
| LabelReadings.Reads1_5mg | lib/data.ts:33 | parseFloat reads the decimal label amount "1.5 mg" as exactly 1.5 |
| VitaminDataProperties.NiacinAboveSafeLimit | lib/data.ts:114 | 40 mg of niacin against the male 16 mg target with a 35 mg limit is "Above safe limit", not "Much higher than needed" |
| VitaminDataProperties.CentrumVitaminAAboveLimit | lib/data.ts:28 | Centrum's first result is high / "Above safe limit" for every profile (3500 IU against a 3000 mcg limit) |
| VitaminDataProperties.OneADayVitaminAMuchHigher | lib/data.ts:57 | One A Day's first result is high / "Much higher than needed" for every profile |
| VitaminDataProperties.RecommendationTablesAligned | lib/data.ts:85-126 | both recommendation tables list the same 18 nutrients in the same order |
| VitaminDataProperties.MaleMagnesiumLimitBelowAmount | lib/data.ts:122 | any male magnesium reading above 350 is "Above safe limit", though the target is 400 |
| VitaminDataProperties.RecommendationsDependOnlyOnSex | lib/data.ts:138-141 | getRecommendations reads nothing of the profile but its sex |
| VitaminDataProperties.MissingSexIsMale | lib/data.ts:139 | a profile without sex, as the profile page stores it, gets the male table |
| VitaminDataProperties.BarcodeLookups | lib/data.ts:135 | the two barcodes find their products, and near misses ("One A Day", "12345678") find nothing |
| VitaminDataProperties.CentrumFoundFirst | lib/data.ts:130-133 | a name search that matches Centrum finds Centrum, whatever else matches too |
| VitaminDataProperties.NameSearchFirstMatch | lib/data.ts:129-133 | "MULTIVITAMIN" matches case-insensitively, and the empty search matches every name; both find Centrum |
| VitaminDataProperties.MultivitaminMatchesCentrum | lib/data.ts:131 | Centrum's lower-cased name includes "multivitamin" |
| ResultsPage.CountStatus | app/results/page.tsx:53-54 | the filter count is at most the length; it is 0 exactly when no result has the status, and the length exactly when all have it |
| ResultsPage.OverallStatus | app/results/page.tsx:53-62 | caution exactly when some result is high; poor exactly when none is high and more than two are low; good exactly when none is high and at most two are low |
| ResultsPage.Verdict | app/results/page.tsx:53-62 | the counts and the if-else chain compute the verdict |
| ResultsPage.Analyze | app/results/page.tsx:48-62 | the effect's comparison is compareVitamins' result, and the verdict it sets is the verdict of that comparison |
| ResultsPage.OverallMessage | app/results/page.tsx:83-92 | every verdict has a banner |
| ResultsPage.OverallMessageInjective | app/results/page.tsx:83-92 | two verdicts share a banner exactly when they are the same verdict |
| ResultsPage.CountConcat | app/results/page.tsx:53-54 | counting splits over concatenation |
| ResultsPage.CountPermutation | app/results/page.tsx:53-54 | the counts do not depend on the order of the results |
| ResultsPage.OverallPermutation | app/results/page.tsx:53-62 | reordering the results never changes the verdict |
| ResultsPage.GoodResultsNeutral | app/results/page.tsx:53-62 | adding results that meet the needs never changes the verdict |
| ResultsPage.ExtraLowNeverImproves | app/results/page.tsx:56-62 | one more low result keeps poor as poor and caution as caution |
| ResultsPage.VerdictThresholds | app/results/page.tsx:56-62 | three low results make poor and two do not; one high result outweighs three low ones; no results are good |
| ResultsPage.EmptyProductVerdict | app/results/page.tsx:53-62 | a product with no nutrients is poor exactly when the table has more than two entries |
| ResultsPage.ShippedProductsCaution | app/results/page.tsx:46-62 | both shipped products are caution for every profile |
| ResultsPage.IsPresent | app/results/page.tsx:32-42 | `if (x)` on a query parameter or stored item: it is given and not the empty string |
| ResultsPage.SelectProduct | app/results/page.tsx:38-44 | a non-empty barcode is looked up by barcode; failing that, a non-empty search is looked up by name; with neither there is no product; a product found is one of the shipped ones |
| ResultsPage.ChooseProduct | app/results/page.tsx:38-44 | the `let product = null` and if-else-if chain pick the same product |
| ResultsPage.KnownBarcodeWins | app/results/page.tsx:40-41 | a known barcode finds its product whatever the search says |
| ResultsPage.UnknownBarcodeIgnoresSearch | app/results/page.tsx:40-44 | an unknown barcode finds nothing even with a matching search, while the same search without a barcode, or with an empty one, finds Centrum |
| ResultsPage.InitialPage | app/results/page.tsx:20-23 | the four `useState` initial values: no results, no name, a good verdict, loading; that verdict is already the verdict of the empty results |
| ResultsPage.AfterLoad | app/results/page.tsx:27-68 | the shown verdict stays the verdict of the shown results |
| ResultsPage.AfterLoadCases | app/results/page.tsx:32-67 | without a stored profile only the redirect happens; otherwise loading ends; with no product "Product not found" is shown beside the old results and verdict; with a product its name, its comparison against the profile's table and that comparison's verdict are shown |
| ResultsPage.AfterLoadIdempotent | app/results/page.tsx:27-68 | running the effect a second time with the same inputs changes nothing more |
| ResultsPage.FoundProductForgetsHistory | app/results/page.tsx:46-67 | once a product is found, the page shown does not depend on what was shown before |
| ResultsPage.LoadedResultCount | app/results/page.tsx:20-65 | a page loaded from its initial state shows either no results or 18, with the matching verdict |
| ResultsPage.RunEffect | app/results/page.tsx:27-68 | the effect's body, step by step, yields the page AfterLoad describes |
| ResultsPage.ResultsContent.constructor | app/results/page.tsx:20-23 | a new page has no results, no name, a good verdict and is loading |
| ResultsPage.ResultsContent.Load | app/results/page.tsx:27-68 | one run of the effect sets the state fields to AfterLoad of the old state |
| ResultsPage.OpenUnknownBarcode | app/results/page.tsx:20-67 | a new page opened with an unknown barcode and a stored profile ends loaded, with no results, a good verdict and "Product not found" |

## Left out

- The user interface is not modelled: the rendering, the icons, the animation and the navigation buttons, plus the scan page, the profile form, the camera and barcode scanner, and the OCR service (`lib/scanner.ts`, `netlify/functions`).
- `localStorage` and `JSON.parse` are external. The stored item and the parsed profile are parameters of `AfterLoad` and `Load`, and a stored item that fails to parse is not modelled.
- A stored item `"null"` is truthy, so the effect goes on; `JSON.parse` makes it `null`, and once a product is found `getRecommendations(null)` throws at `profile.sex` (lib/data.ts:139). `VitaminData.Profile` is always an object, so the model cannot express this crash.
- `router.push('/profile')` is recorded only as the flag `redirectedToProfile`.
- React's scheduling is not modelled: re-renders, the dependency array and effects running more than once. `Load` applies one run's updates together.
- JsNumber.ParseFloat: the `Infinity` prefix, which parseFloat also accepts, is not modelled. No table amount uses it. Values are exact reals, so floating-point rounding, overflow and the sign of -0 are not modelled.
- JsString.ToLower: maps only the ASCII letters. JavaScript's full Unicode case mapping is not modelled. Every name and search in the shipped tables is ASCII.
- VitaminData.Lookup: keys that JavaScript objects inherit from their prototype are not modelled, such as a barcode equal to "constructor".
- VitaminDataProperties: the worked cases cover the nutrients named in their lemmas, not every row of every table.
