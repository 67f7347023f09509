# Supplier risk scoring and sea-route banding — a Dafny model

This project models the algorithmic core of a small logistics/insurance
backend written in TypeScript:

- **Supplier risk scoring** (`calculateRiskPercentage` in `src/template.ts`):
  a supplier's cost, rating (0–10) and review count are validated, turned
  into risk contributions in [0,100], combined with the fixed weights
  0.5/0.3/0.2, rounded to two decimals together with the complementary
  `score`, and labelled "Low risk" / "Medium risk" / "High risk" at the
  thresholds 30 and 60.
- **Best-supplier selection**: the basic analysis sorts the scored list by
  ascending risk and takes the head; the detailed analysis refuses an empty
  list and folds the list with a strict `<`, keeping the first record of
  least risk.
- **Post-hoc adjustment**: the detailed analysis multiplies every risk by a
  weather factor (reported temperature / 100) and a sentiment factor
  (1 + average article sentiment / 10) and rounds again; only
  `riskPercentage` and the analysis text change.
- **Sea-route banding** (`src/seaRoute.ts`): the request's `placeName` must
  be a non-empty string; the `riskScore` returned by the language model is
  mapped to one of five (level, colour) pairs, with ("Neutral", "gray") for
  zero or a missing score.

Numbers are exact `real`s. `Math.round(x * 100) / 100` is
`Floor(100x + 1/2) / 100` (JavaScript rounds halves toward +infinity).
External inputs — the reported temperature, the per-article sentiment
scores, the model's `riskScore` — are parameters.

Modules: `Wrappers` (Option/Result), `Rounding`, `SupplierRisk` (one
supplier), `Selection` (sort and reduce), `Adjustment` (weather and
sentiment factors), `SupplierHandlers` (the two list handlers and the fixed
supplier list), `SeaRoute`.

Behaviour of the code worth knowing before reading the model:

- There are three labels, at the thresholds 30 and 60
  (src/template.ts:121-129).
- The label is picked from the risk before rounding, not from the rounded
  `riskPercentage` (src/template.ts:119-139).
- The adjusted risk is not clamped to [0,100], and the label is not
  re-derived after adjustment (src/template.ts:243-255).
- Cost is never validated: a cost at or below 40000, negative included,
  contributes 0 (src/template.ts:82-108).
- Ties in the sort keep input order, since `Array.prototype.sort` is stable
  (src/template.ts:154). Ties in the reduce keep the earlier record
  (src/template.ts:263-265).

Facts the proofs establish. They hold for exact reals; IEEE doubles may
round a half-hundredth differently:

- `riskPercentage + score` is 100, except when the exact risk sits on a
  half-hundredth (then it is 100.01). Example: cost 40002, rating 10, one
  review gives the exact risk 10.005.
- A supplier whose displayed risk is 30.00 can still be labelled
  "Low risk". Example: cost 43999, rating 10, no reviews gives the exact
  risk 29.9975.
- While risk × weather factor is non-negative, a larger sentiment factor
  never lowers the adjusted risk. Positive news gives a factor above 1, so
  it ranks at or above neutral news. When that product is negative, the
  effect is reversed.
- An average sentiment below −10 makes the factor negative, which reverses
  the order of the adjusted list.

## Model

| member | source | states |
|---|---|---|
| Rounding.Round2 | src/template.ts:138-139 | the two-decimal rounding lands within half a hundredth of its input and yields a whole number of hundredths |
| Rounding.Round2Monotone | src/template.ts:138-139 | rounding never reorders two values |
| Rounding.Round2OfCents | src/template.ts:248 | a whole number of hundredths rounds to itself |
| Rounding.Round2Idempotent | src/template.ts:248 | rounding an already rounded risk again changes nothing |
| Rounding.Round2FixesCents | src/template.ts:248 | any value already in hundredths is a fixed point of the rounding |
| Rounding.Round2InPercentRange | src/template.ts:138 | rounding keeps a value in [0,100] inside [0,100] |
| Rounding.Round2Complement | src/template.ts:118-119 | rounding x and 100 − x separately sums to 100, or to 100.01 exactly at a half-hundredth tie |
| SupplierRisk.CostRisk | src/template.ts:103-108 | cost contribution is in [0,100]: 0 up to 40000, 100 from 60000, (cost − 40000)/200 in between |
| SupplierRisk.RatingRisk | src/template.ts:109 | a valid rating contributes within [0,100]; the contribution is 0 iff the rating is 10 and 100 iff it is 0; ten times the rating plus the contribution is 100 |
| SupplierRisk.ReviewRisk | src/template.ts:110-111 | the review contribution is in (0,100] and the explicit zero-reviews branch agrees with 100/(reviews+1) |
| SupplierRisk.WeightedRisk | src/template.ts:113-116 | the weighted risk lies between the smallest and the largest contribution, and equals their common value when all three agree |
| SupplierRisk.BandOf | src/template.ts:121-129 | "Low risk" iff risk < 30, "Medium risk" iff 30 ≤ risk < 60, "High risk" iff risk ≥ 60 |
| SupplierRisk.CalculateRisk | src/template.ts:82-142 | fails iff the rating is outside [0,10] (checked first) or reviews are negative; otherwise copies the supplier fields, rounds the reference weighted risk and its complement, and labels by the unrounded risk |
| SupplierRisk.WeightedIsExpected | src/template.ts:99-116 | the clamped, branch-wise computation equals the closed form 0.5·cost + 3·(10 − rating) + 20/(reviews+1) |
| SupplierRisk.WeightedRiskBounds | src/template.ts:99-101 | with weights summing to one, contributions in [0,100] give a weighted risk in [0,100], and equal contributions give that value |
| SupplierRisk.RatingRiskRange | src/template.ts:109 | a valid rating contributes within [0,100]; rating 10 gives 0, rating 0 gives 100, a higher rating less |
| SupplierRisk.ScoredRiskInRange | src/template.ts:113-119 | a valid supplier is scored, with risk and score in [0,100], in whole hundredths, and risk within 0.005 of the exact value |
| SupplierRisk.ScoreComplementsRisk | src/template.ts:118-119 | risk + score is 100, except 100.01 when the exact risk is a half-hundredth |
| SupplierRisk.BandMonotone | src/template.ts:121-129 | a higher risk never gets a lower label |
| SupplierRisk.LabelUsesUnroundedRisk | src/template.ts:122-139 | cost 43999, rating 10, no reviews (exact risk 29.9975) shows risk 30.00 yet is labelled "Low risk" |
| SupplierRisk.HalfCentTieExample | src/template.ts:118-139 | cost 40002, rating 10, one review: exact risk 10.005 shows as 10.01 with score 90, summing to 100.01 |
| Selection.FirstMinIndex | src/template.ts:263-265 | reference position of the first record of minimal risk: minimal, and every earlier record strictly riskier |
| Selection.Insert | src/template.ts:154 | inserting into a sorted list keeps it sorted and adds exactly that record |
| Selection.SortByRisk | src/template.ts:154 | the sorted list is in ascending risk order and is a permutation of the input |
| Selection.SortedIsPermutation | src/template.ts:154 | a record is in the sorted list iff it is in the input |
| Selection.SortIsStable | src/template.ts:154 | for every risk value, the records with that risk keep their input order |
| Selection.SortHeadIsFirstMin | src/template.ts:154-157 | the head of the sorted list is the first minimal-risk record of the input |
| Selection.FoldBest | src/template.ts:263-265 | the fold returns its seed or one of the records, no riskier than the seed or any record |
| Selection.FoldBestSpec | src/template.ts:263-265 | the strict-`<` fold keeps its seed unless a record is strictly less risky, and then returns the first least-risk record |
| Selection.ReduceBest | src/template.ts:263-265 | the reduce seeded with the first record returns a record of the list whose risk is minimal |
| Selection.ReduceIsFirstMin | src/template.ts:263-265 | the reduce seeded with the first record returns the first record of minimal risk |
| Selection.SortAndReduceAgree | src/template.ts:154-157 | the head after sorting and the reduce's choice are the same record |
| Selection.SelectBest | src/template.ts:257-265 | an empty list fails with "no suppliers"; otherwise the loop returns the first minimal-risk record |
| Adjustment.WeatherRiskFactor | src/template.ts:209 | the factor is a hundredth of the temperature: 1 iff the temperature is 100, non-negative iff the temperature is |
| Adjustment.Sum | src/template.ts:234-237 | the left-to-right sum of the scores equals the independently defined sum from the right |
| Adjustment.SumConcat | src/template.ts:234-237 | the sum of a concatenation is the sum of the parts, so the grouping of the reduce does not matter |
| Adjustment.AverageSentiment | src/template.ts:232-238 | the average is 0 for no scores, and otherwise times the count equals the sum |
| Adjustment.SentimentRiskFactor | src/template.ts:240 | the factor is 1 iff the average is 0, above 1 iff positive, negative iff the average is below −10 |
| Adjustment.SumBounds | src/template.ts:232-238 | n scores that each lie in [lo, hi] sum to a value in [n·lo, n·hi] |
| Adjustment.AverageBounded | src/template.ts:232-238 | the average of scores in [lo, hi] lies in [lo, hi] |
| Adjustment.AdjustedRisk | src/template.ts:244-248 | the adjusted risk is in whole hundredths and within 0.005 of risk × weather × sentiment |
| Adjustment.Adjust | src/template.ts:243-255 | every field except riskPercentage and analysis is copied; the label is kept and the factors recorded |
| Adjustment.AdjustAll | src/template.ts:243-255 | the map keeps length and order and adjusts each record with the shared sentiment factor |
| Adjustment.NeutralAdjustKeepsRisk | src/template.ts:244-248 | with both factors 1 an already rounded risk is unchanged |
| Adjustment.NeutralAdjustAllKeepsRisks | src/template.ts:232-255 | weather factor 1 and no articles leave every rounded risk unchanged |
| Adjustment.AdjustedRiskMonotone | src/template.ts:244-248 | a non-negative combined factor preserves the order of two risks |
| Adjustment.AdjustedRiskAntitone | src/template.ts:240-248 | a negative combined factor reverses the order of two risks |
| Adjustment.SentimentRaisesRisk | src/template.ts:240-248 | with risk × weather factor non-negative, a larger sentiment factor never gives a lower adjusted risk |
| Adjustment.AdjustKeepsOrder | src/template.ts:243-255 | adjusting two records by a non-negative combined factor keeps their order |
| Adjustment.AdjustAllKeepsSorted | src/template.ts:243-255 | a sorted list stays sorted under a non-negative combined factor |
| Adjustment.AdjustedRiskIsNotClamped | src/template.ts:209-255 | a risk of 68.5 adjusted for 290 degrees and no articles reads 198.65, above 100, and keeps its label |
| SupplierHandlers.ScoreAll | src/template.ts:149-151 | succeeds iff every supplier is valid, scoring each in order; otherwise fails with the first invalid supplier's error |
| SupplierHandlers.AnalyzeSuppliers | src/template.ts:145-157 | fails iff scoring fails, with the scorer's error; otherwise reports exactly the stable ascending sort of the scores (a sorted permutation with ties in input order) and, for a non-empty list, the first least-risk supplier |
| SupplierHandlers.SupplierAnalysis | src/template.ts:188-265 | scoring errors come first, then the empty-list error; success reports the adjusted sorted list, its length, both factors and the first minimal adjusted record |
| SupplierHandlers.SortedFirstMinIsHead | src/template.ts:263-265 | in an ascending list the reduce's choice is the head |
| SupplierHandlers.BasicBestIsSortedHead | src/template.ts:154-157 | for a non-empty valid list the basic analysis reports the head of its sorted list |
| SupplierHandlers.AdjustedSortedHeadIsBest | src/template.ts:243-265 | with a non-negative combined factor the reduce over the adjusted sorted list picks its head, the same supplier the basic analysis reports |
| SupplierHandlers.FixedSuppliersAnalysis | src/template.ts:54-79 | the fixed list scores 55.33, 68.5, 34, 39.67; the best is "Quick Haulers" at 34, "Medium risk" |
| SeaRoute.ValidatePlaceName | src/seaRoute.ts:16-20 | accepted iff placeName is a non-empty string, which is passed on; anything else is refused |
| SeaRoute.Classify | src/seaRoute.ts:86-101 | >5 positive/green, (0,5] slightly positive/lightgreen, 0 or missing neutral/gray, [−5,0) slightly negative/orange, < −5 negative/red |
| SeaRoute.ColourFollowsLevel | src/seaRoute.ts:86-101 | the colour is a function of the level |
| SeaRoute.ClassifyMonotone | src/seaRoute.ts:89-100 | a higher score never gives a riskier level |
| SeaRoute.BoundariesAreSlight | src/seaRoute.ts:92-100 | the scores 5 and −5 fall in the "Slightly" bands, 0 is neutral |
| SeaRoute.Assess | src/seaRoute.ts:12-112 | fails iff the place name is refused; otherwise echoes the name and score with the classified level and its colour |

## Left out

- HTTP routing, status codes, response envelopes, logging, and the checks
  for missing API keys are not modelled. They are request plumbing.
- The calls to the weather service, the news service and the language model
  are not modelled. Their results enter as parameters: the reported
  temperature, the per-article sentiment scores and the parsed `riskScore`.
- The sentiment library's per-article scoring and `JSON.parse` of the model
  output are not modelled. They are foreign code.
- JavaScript coercion of non-numeric `riskScore` values is not modelled:
  `"7"` compares as 7, `true` as 1, `null` as 0. The model takes either a
  number or nothing. Scores outside −10..+10 are banded like any other,
  since the code does not clamp them.
- IEEE-754 behaviour is not modelled, nor NaN inputs to the rating and
  review checks. Exact reals are used instead.
- `toLocaleString` and `toFixed` formatting and the analysis timestamps are
  not modelled. The analysis text is kept as its label plus the factors it
  reports.
- GET /analyze-supplier/:name (src/template.ts:297-337) and GET /suppliers
  are not modelled. The lookup depends on case folding and has no logic of
  its own beyond `calculateRiskPercentage`.
- User/visit CRUD, JWT issuance and file upload (src/index.ts) are not
  modelled. Neither are the persistence schemas (src/db.ts) or the storage
  configuration (src/cloudinary.ts). They are database and foreign-library
  code.
- The live handler in src/landRoute.ts only forwards a prompt to the
  language model and is not modelled. Its best-supplier reduce is
  commented out.
- Adjust: an already adjusted record's note is replaced rather than
  appended to. The source adjusts each record once, so this is never
  observable.
