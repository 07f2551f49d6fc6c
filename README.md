# Life cost index — a verified model

The system is a small web app. Someone enters a city and a monthly salary.
The server scrapes that city's cost-of-living table from an upstream site
and keeps it in a one-hour in-memory cache. It also serves a static ranking
of cities. The page looks up the prices of a fixed monthly basket in the
scraped table and sums them into housing, food and transport. It then
reports the surplus or deficit and emits an ordered list of suggestions.

This project models that core in Dafny:

- `Budget` (`budget.dfy`) covers the page's cost, verdict and suggestion logic.
  - `Categorize`, `AddSuggestions`, `AddDeficitAdvice` and `Render` accumulate the figures step by step, as the page does.
  - Each method is proved equal to the pure specification `Evaluate` / `Advise`.
  - The lemmas state what the verdict promises:
    - the summary, the order of the suggestions and their severities;
    - when each suggestion appears, and when the food share is added;
    - concrete scenarios.
- `PriceLookup` (`price_lookup.dfy`) is `getPrice`.
  - Lookup is case-insensitive on the first record containing the label.
  - The cost is cleaned to digits and points, read with `parseFloat`, and `|| 0` applies.
- `Rankings` (`rankings.dfy`) covers the start-up loader of the tab-separated ranking table and the `/rankings` slicing.
- `Scraper` (`scraper.dfy`) keeps a table row's trimmed name and cleaned price. `ScrapeCosts` is its loop, proved equal to `ScrapedCosts`.
- `CityHandler` (`city_cache.dfy`) is the `/city/:city` handler.
  - `CityCache` is a class whose `entries` map `Handle` updates in place.
  - `Respond` is the pure specification of one request.
  - The lemmas cover freshness, the stale fallback, and what a store changes.
- `Text` and `Numbers` (`text.dfy`, `numbers.dfy`) model the JavaScript string operations and `parseFloat`, on the inputs the core gives them.
- `Seqs` (`seqs.dfy`) holds `reverse` and the `map(...).filter(x => x)` idiom, generic over the element type.
- `Wrappers` (`wrappers.dfy`) holds `Option`.

## Model

| member | source | states |
|---|---|---|
| Text.Lower | public/script.js:60 | `toLowerCase` keeps the length and leaves no upper-case letter |
| Text.LowerIdempotent | public/script.js:60 | lowering twice is lowering once |
| Text.Includes | public/script.js:60 | definition, no `ensures`: `includes` holds when the fragment occurs at some position; used by `PriceLookup.Matches` |
| Text.TrimStart | index.js:101-102 | the result is a suffix, all dropped characters are white space, and the result does not start with white space |
| Text.TrimEnd | index.js:101-102 | the result is a prefix, all dropped characters are white space, and the result does not end with white space |
| Text.TrimEnds | index.js:26 | a non-empty trimmed string neither starts nor ends with white space |
| Text.TrimIdempotent | index.js:101-102 | trimming twice is trimming once |
| Text.TrimFixed | index.js:101-102 | a string without white space at its ends is its own trim |
| Text.Trim | index.js:101-102 | definition, no `ensures`: `trim` is `TrimEnd` after `TrimStart`; properties in `Text.TrimEnds`, `Text.TrimIdempotent`, `Text.TrimFixed` |
| Text.Retain | index.js:105 | the cleaned text is no longer than the input and holds only kept characters |
| Text.RetainAppend | public/script.js:61 | cleaning a concatenation cleans each piece |
| Text.RetainFixed | public/script.js:61 | text made only of kept characters is unchanged, so cleaning is idempotent |
| Text.RetainNone | index.js:105 | text with no kept character is cleaned to the empty string |
| Text.Split | index.js:29 | `split` gives at least one piece and no piece holds the separator |
| Text.Join | index.js:26 | definition, no `ensures`: the inverse of `split`, with no counterpart in the code; it is the partner in `Text.JoinSplit` and `Text.SplitJoin` |
| Text.JoinSplit | index.js:26 | joining the pieces of a split gives back the string |
| Text.SplitJoin | index.js:29 | splitting a join of separator-free pieces gives back the pieces |
| Text.SplitPlain | index.js:29-30 | a string without the separator splits into itself alone |
| Seqs.Reverse | index.js:52 | `reverse` keeps the length |
| Seqs.ReverseAt | index.js:52 | position `k` of the reversal holds position `n-1-k` |
| Seqs.ReverseEach | index.js:52 | every position `k` of the reversal holds position `n-1-k` |
| Seqs.FilterMap | index.js:28-41 | `map` then `filter(x => x)` yields at most one value per element |
| Seqs.FilterMapAppend | index.js:28-41 | values keep the order of their elements across concatenation |
| Seqs.FilterMapSnoc | index.js:100-108 | one more element appends its value, if any, at the end |
| Seqs.FilterMapSound | index.js:41 | every value comes from some element |
| Seqs.FilterMapComplete | index.js:41 | every element that gives a value contributes it |
| Numbers.LeadingDigits | public/script.js:61 | the longest digit prefix: a prefix made of digits and followed by a non-digit |
| Numbers.Fraction | public/script.js:61 | a digit string after the point reads as a value in [0, 1) |
| Numbers.ParseFloat | public/script.js:61 | `parseFloat` on cleaned text is never negative |
| Numbers.ParseFloatNaN | public/script.js:61 | NaN exactly when the text starts neither with a digit nor with a point and a digit |
| Numbers.LeadingDigitsOf | public/script.js:61 | digits followed by a non-digit are the leading digits |
| Numbers.ParseFloatPrefix | public/script.js:61 | `whole.frac` followed by a second point reads as `whole.frac`: the longest numeric prefix wins |
| Numbers.ParseFloatDigits | public/script.js:61 | a digit string reads as its value |
| Numbers.ParseFloatExamples | public/script.js:61 | `"1.2.3"` reads as 1.2 and the empty string is NaN |
| PriceLookup.FindFirst | public/script.js:60 | the index `find` returns lies within the table |
| PriceLookup.Matches | public/script.js:60 | definition, no `ensures`: a record matches when its lower-cased item contains the lower-cased fragment; properties in `PriceLookup.GetPriceIgnoresCase` |
| PriceLookup.FindFirstIsFirst | public/script.js:60 | `find` returns a matching record with no match before it, and nothing only when no record matches |
| PriceLookup.CleanIsNumeral | public/script.js:61 | `/[^0-9.]/g` leaves only digits and points |
| PriceLookup.CostValue | public/script.js:61 | a cost reads as a non-negative number, with NaN collapsed to 0 |
| PriceLookup.EmptyCostIsZero | public/script.js:61 | an empty cost reads as 0 |
| PriceLookup.GetPrice | public/script.js:59-62 | a price is never negative |
| PriceLookup.GetPriceIsFind | public/script.js:59-62 | the price is the cost of the record `find` returns, or 0 when it returns none |
| PriceLookup.GetPriceFirstMatch | public/script.js:60-61 | the first matching record decides the price |
| PriceLookup.GetPriceIgnoresLater | public/script.js:60 | records after a match are never consulted |
| PriceLookup.GetPriceMiss | public/script.js:61 | with no matching record the price is 0 |
| PriceLookup.GetPriceIgnoresCase | public/script.js:60 | the case of the label fragment does not matter |
| PriceLookup.FindFirstSameMatches | public/script.js:60 | fragments matching the same records find the same record |
| PriceLookup.CostValueOfDollars | public/script.js:61 | `"$1,234.56"` reads as 1234.56 |
| PriceLookup.CleanDollars | public/script.js:61 | `"$1,234.56"` is cleaned to `"1234.56"` |
| PriceLookup.ParseAmount | public/script.js:61 | `"1234.56"` reads as 1234.56 |
| Budget.Lookups | public/script.js:65-89 | every looked-up basket price is non-negative |
| Budget.Housing | public/script.js:65-68 | definition, no `ensures`: rent, utilities and internet; bounds in `Budget.CategoriesNonNegative` |
| Budget.Transport | public/script.js:71-72 | definition, no `ensures`: the monthly pass price; bounds in `Budget.CategoriesNonNegative` |
| Budget.DiningOut | public/script.js:89 | definition, no `ensures`: four inexpensive restaurant meals; bounds in `Budget.CategoriesNonNegative` |
| Budget.Food | public/script.js:76-91 | definition, no `ensures`: the grocery quantities plus dining out; bounds in `Budget.CategoriesNonNegative` |
| Budget.RentSavings | public/script.js:153-154 | definition, no `ensures`: centre rent minus outside rent, which may be negative; used by `Budget.DeficitVerdict` |
| Budget.CategoriesOf | public/script.js:64-94 | definition, no `ensures`: the categories of a basket; tied to the accumulators by `Budget.Categorize` and `Budget.CategoriesFromPrices` |
| Budget.Total | public/script.js:94 | definition, no `ensures`: housing plus food plus transport; stated in `Budget.VerdictSummary` |
| Budget.Ratio | public/script.js:137-141 | definition, no `ensures`: a share of the salary in percent; the 30% test is restated in `Budget.RatioAbove30` |
| Budget.SavingsRule | public/script.js:137-138 | definition, no `ensures`: the good savings share; stated in `Budget.SurplusVerdict` |
| Budget.HousingRule | public/script.js:141-143 | definition, no `ensures`: the housing share, neutral above 30%; stated in `Budget.SurplusVerdict` |
| Budget.DeficitRule | public/script.js:147 | definition, no `ensures`: the bad deficit showing the shortfall; stated in `Budget.DeficitVerdict` |
| Budget.MoveOutRule | public/script.js:152-163 | definition, no `ensures`: move-out advice when the rent saving is positive; stated in `Budget.DeficitPresence` and `Budget.DeficitSeverities` |
| Budget.CookRule | public/script.js:165-173 | definition, no `ensures`: cook-more advice when there is dining out; stated in `Budget.DeficitPresence` and `Budget.DeficitSeverities` |
| Budget.WalkRule | public/script.js:175-178 | definition, no `ensures`: neutral walk/bike advice when there is a pass; stated in `Budget.DeficitPresence` |
| Budget.SurvivalDiff | public/script.js:181 | definition, no `ensures`: the deficit plus all three levers; used by `Budget.DeficitVerdict` and `Budget.SurvivalCheck` |
| Budget.SurvivalRule | public/script.js:180-186 | definition, no `ensures`: survival mode when the levers leave money over, critical otherwise; stated in `Budget.DeficitPresence` and `Budget.SurvivalCheck` |
| Budget.FoodRule | public/script.js:189-193 | definition, no `ensures`: the neutral food share above 30%; stated in `Budget.FoodVerdict` |
| Budget.SurplusAdvice | public/script.js:135-143 | definition, no `ensures`: the surplus rules in order; stated in `Budget.SurplusVerdict` |
| Budget.DeficitAdvice | public/script.js:145-187 | definition, no `ensures`: the deficit rules in order; stated in `Budget.DeficitVerdict` |
| Budget.Suggestions | public/script.js:134-193 | definition, no `ensures`: the surplus or deficit advice, then the food rule; stated in `Budget.SurplusVerdict`, `Budget.DeficitVerdict`, `Budget.FoodVerdict` |
| Budget.Advise | public/script.js:94-193 | definition, no `ensures`: the verdict for categories and a salary; stated in `Budget.VerdictSummary` and the verdict lemmas |
| Budget.Evaluate | public/script.js:53-193 | definition, no `ensures`: the verdict for a cost table; `Budget.Render` is proved equal to it |
| Budget.SeverityOf | public/script.js:134-193 | definition, no `ensures`: the severity each branch gives a suggestion kind; tied to the verdict by `Budget.SeveritiesOf` |
| Budget.SeveritiesOf | public/script.js:134-193 | every suggestion of a verdict has the severity `SeverityOf` gives its kind, in surplus and deficit alike |
| Budget.SeverityOfRaise | public/script.js:141-171 | a kind whose severity is good stays good on a higher salary: the housing share stays under 30%, and move-out and cook-more stay profitable |
| Budget.SurvivalCheck | public/script.js:180-186 | survival mode appears exactly in deficit when the levers leave money over, and critical appears exactly in deficit otherwise |
| Budget.CategoriesNonNegative | public/script.js:68-94 | housing, food and transport are non-negative; dining out is part of food; the total covers each category |
| Budget.RatioAbove30 | public/script.js:141-142 | a share is above 30% of the salary exactly when ten times the part exceeds three times the salary |
| Budget.HasConcat | public/script.js:123-132 | a suggestion kind is in a concatenation exactly when it is in one of the parts |
| Budget.HasIn | public/script.js:145-187 | the same, for the six pieces of the deficit advice |
| Budget.OrderConcat | public/script.js:134-193 | two ordered runs, the second ranked above the first, form an ordered run |
| Budget.VerdictSummary | public/script.js:94-120 | the total sums the categories, `diff` is the salary minus the total, and the summary is a deficit exactly when `diff < 0` |
| Budget.SurplusVerdict | public/script.js:135-143 | a surplus gives a good savings share, then the housing share, neutral exactly above 30%; at most the food share follows |
| Budget.DeficitVerdict | public/script.js:145-187 | a deficit gives: the bad deficit first; move-out only with a positive rent saving; cook-more only with dining out; walk/bike only with a pass; survival or critical by the combined lever; all in order with the source's severities |
| Budget.DeficitOrder | public/script.js:145-193 | the deficit suggestions and the food share come in emission order |
| Budget.DeficitPresence | public/script.js:156-186 | each deficit suggestion appears exactly under its condition |
| Budget.DeficitSeverities | public/script.js:147-186 | each deficit suggestion has the severity its branch gives |
| Budget.FoodVerdict | public/script.js:189-193 | the food share appears, neutral and last, exactly when food takes more than 30% of the salary |
| Budget.NoFoodNoFoodShare | public/script.js:190-193 | with no food cost the food share never appears |
| Budget.EvaluateNonNegative | public/script.js:53-94 | every amount derived from a cost table is non-negative |
| Budget.EmptyTableVerdict | public/script.js:53-143 | an empty table costs nothing: the verdict is sustainable with 100% savings and a 0% housing share |
| Budget.NoPrices | public/script.js:59-62 | an empty table gives every basket price 0 |
| Budget.NothingToPay | public/script.js:112-143 | zero costs give the whole salary as surplus with 100% savings and a 0% housing share |
| Budget.RaiseNeverHurts | public/script.js:112-186 | a raise never lowers `diff`; a sustainable budget stays sustainable; a kind whose suggestions were all good stays all good; a good survival check never turns critical |
| Budget.SurplusScenario | public/script.js:135-143 | 5000 against 3000 leaves 2000 with a 40% savings share |
| Budget.FullRecoveryScenario | public/script.js:147-183 | a 500 deficit with 400 + 200 + 100 of levers gives neutral levers and a good survival check of 200 |
| Budget.NoRecoveryScenario | public/script.js:147-186 | the same deficit with no levers gives only the deficit and a critical shortfall of 500 |
| Budget.Categorize | public/script.js:53-94 | the accumulated housing, food, transport and dining-out costs equal the basket categories |
| Budget.CategoriesFromPrices | public/script.js:153-154 | the accumulators and the outside rent give the categories of the looked-up basket |
| Budget.AddSuggestions | public/script.js:134-193 | the suggestions added equal the specified pipeline for the accumulated categories |
| Budget.AddDeficitAdvice | public/script.js:145-187 | the deficit suggestions added equal the specified deficit advice |
| Budget.Render | public/script.js:53-193 | the rendered verdict equals `Evaluate` of the cost table and salary |
| Rankings.ParseLineOfFields | index.js:29-40 | a line of eight or more tab-free fields parses to its first eight fields in column order |
| Rankings.ParseLineNoTab | index.js:30 | a line without a tab has fewer than eight fields and is dropped |
| Rankings.ParseLine | index.js:29-40 | definition, no `ensures`: split on tabs, `null` below eight fields, otherwise the first eight fields; properties in `Rankings.ParseLineOfFields` and `Rankings.ParseLineNoTab` |
| Rankings.ParseLines | index.js:28-41 | definition, no `ensures`: `map(parse).filter(x => x)` as `Seqs.FilterMap`; properties in `Rankings.ParseLinesExactly` and `Rankings.ParseLinesAppend` |
| Rankings.LoadRankings | index.js:25-41 | definition, no `ensures`: trim, split on newlines, drop the header, parse; properties in `Rankings.HeaderOnly` and `Rankings.LoadRankingsOfLines` |
| Rankings.ParseLinesExactly | index.js:28-41 | each row comes from a line that parses, and each line that parses gives a row |
| Rankings.ParseLinesAppend | index.js:28-41 | rows keep the order of their lines |
| Rankings.HeaderOnly | index.js:26-28 | a file with only a header line yields no rows |
| Rankings.LoadRankingsOfLines | index.js:25-41 | for a header followed by lines, the rows are those lines' rows; only the header is skipped |
| Rankings.Expensive | index.js:49 | `slice(0, 5)` gives the first `min(5, n)` rows in order |
| Rankings.Cheapest | index.js:52 | `slice(-5).reverse()` gives `min(5, n)` rows, the last row first |
| Rankings.CheapestIsExpensiveReversed | index.js:49-52 | the cheapest list is the expensive list of the reversed table |
| Rankings.Respond | index.js:47-54 | `/rankings` answers the first five rows, the reversed table's first five, and the whole table |
| Scraper.ScrapeRowKept | index.js:101-106 | a row is kept exactly when both trimmed cells are non-empty; the name is trimmed and the cost holds only digits, points and commas |
| Scraper.CellText | index.js:101-102 | definition, no `ensures`: the text of the `k`-th `td`, or empty when there is none; used by `Scraper.ShortRowSkipped` |
| Scraper.ScrapeRow | index.js:101-106 | definition, no `ensures`: one row's record or nothing; properties in `Scraper.ScrapeRowKept` and `Scraper.UnpricedRowKept` |
| Scraper.ScrapedCosts | index.js:100-108 | definition, no `ensures`: the rows' records in order; properties in `Scraper.ScrapedCostsExactly`, `Scraper.ScrapedCostsAppend`, `Scraper.AllScrapedClean` |
| Scraper.ShortRowSkipped | index.js:101-104 | a row with fewer than two data cells is skipped |
| Scraper.ScrapedCostsAppend | index.js:100-108 | records keep the order of their rows |
| Scraper.ScrapedCostsExactly | index.js:100-108 | every record comes from a kept row, and every kept row gives a record |
| Scraper.AllScrapedClean | index.js:104-106 | every scraped record has a non-empty name and a cost of digits, points and commas only |
| Scraper.UnpricedRowKept | index.js:104-107 | a row whose price has no digit, point or comma is kept with an empty cost, which the page reads as 0 |
| Scraper.ScrapeCosts | index.js:98-108 | the loop over the rows pushes exactly `ScrapedCosts(rows)` |
| CityHandler.FreshForOneHour | index.js:58-69 | an entry is fresh for one hour after storing, and not a millisecond longer |
| CityHandler.IsFresh | index.js:69 | definition, no `ensures`: younger than one hour; boundary in `CityHandler.FreshForOneHour` |
| CityHandler.Respond | index.js:60-120 | definition, no `ensures`: one request's reply and new cache; properties in the `CityHandler` lemmas, and `CityHandler.CityCache.Handle` is proved equal to it |
| CityHandler.FreshHitIgnoresUpstream | index.js:68-72 | a fresh entry is served, the cache is unchanged, and the upstream answer does not matter |
| CityHandler.FailureKeepsCache | index.js:88-93 | only a scraped page changes the cache |
| CityHandler.FailureReplies | index.js:88-93 | a refusal serves the stale entry or 404; a thrown error is a 500 |
| CityHandler.OtherCitiesUntouched | index.js:113 | a request touches only its own city's entry |
| CityHandler.StoredThenServed | index.js:68-72 | a stored sheet is served from the cache for the rest of the hour, whatever the upstream would answer |
| CityHandler.StoredThenStale | index.js:88-93 | after the hour the site is asked again: an error is a 500 and a refusal serves the stale sheet |
| CityHandler.CityCache.constructor | index.js:57 | the cache starts empty |
| CityHandler.CityCache.Handle | index.js:60-120 | the reply and the new cache are those `Respond` specifies for the old cache |

## Left out

- DOM rendering is not modelled. This covers `innerHTML`, `toFixed` formatting, colours and icons (public/script.js:97-110, 113-116, 123-132). Each suggestion keeps its kind, its severity and one figure:
  - the savings, housing and food shares;
  - the deficit and the critical shortfall as magnitudes;
  - the rent saving, the dining-out cost and the pass price for the three levers;
  - the survival surplus.

  Two figures in the texts are dropped: the new surplus in the good move-out text (public/script.js:159), and the three lever amounts in the survival text (public/script.js:183).
- `fetch`, Express routing, `fs.readFileSync`, console logging and `res.json` are I/O. The upstream answer is a parameter (`Upstream`), the file contents are a string, and the reply is a datatype.
- Parsing HTML with cheerio is not modelled. A page is given as its table rows, each as the texts of its `td` cells.
- `_.startCase`/`_.words` city-name formatting (index.js:63) is lodash code that is not part of this model. The cache key is the already formatted name.
- `Date.now()` is read twice, at index.js:69 and 113. Each reading is a parameter.
- The handler is async, and concurrent requests interleave at the `await`s. Handle runs one request atomically.
- Numbers are `real`, not IEEE doubles. Rounding is not modelled, and `toFixed` display is not modelled.
- Budget.Render: requires `salary > 0`. The page divides by the salary and is not analysed for 0, negative or non-numeric input.
- Text.Lower: lowers ASCII letters only. `toLowerCase` on other scripts is not modelled.
- Text.Includes: `includes` is stated as the existence of an occurrence, not as a search.
- Numbers.ParseFloat: modelled only on text made of digits and points. That is all `getPrice` passes it, after its cleaning regex. Signs, exponents, `Infinity` and leading white space are not modelled.
- Rankings.ParseLine: the numeric columns are kept as their field text. `parseInt`/`parseFloat` on them is not modelled; a row whose numbers are NaN is still kept, as in the source.
- test_scraper.js is a manual scraping script and not part of the server.
- Budget.Render: the page's single `render` function is split into `Categorize`, `AddSuggestions` and `AddDeficitAdvice`. The additions happen in the same order.
