# Keyword analysis and plan quotas, modelled in Dafny

This project models two parts of the SEO content platform's backend.

- **The keyword-metrics engine** (`backend/src/services/keywordAnalysis.ts`).
  - A keyword string becomes a `KeywordMetrics` record.
  - The record holds:
    - an estimated monthly search volume and its bucket;
    - a traffic potential;
    - a 0–100 difficulty, with its label and competition level;
    - a short-, mid- or long-tail or question type;
    - a search intent;
    - an opportunity score and its priority;
    - a cost per click;
    - a recommended article length;
    - featured-snippet potential;
    - a seasonality score.
  - A batch of keywords is analysed and ranked by opportunity score, highest first.
  - A keyword yields ten related suggestions.
- **The plan-quota rule** of the usage-limits middleware (`backend/src/middleware/usageLimits.ts`).
  - The per-plan limits table (FREE, STARTER, GROWTH, ENTERPRISE), where `-1` means unlimited.
  - `checkUsageLimit`, which decides whether a request for more projects, articles or lead magnets fits the plan.
  - `hasFeatureAccess`.
  - The `usageInfo` summary that the article middleware stores.

## Modules

- `Strings` (`strings.dfy`): the JavaScript string operations the engine calls.
  - `toLowerCase`, for ASCII letters only.
  - `trim`, using ECMAScript's whitespace set.
  - `includes` and `startsWith`.
  - `split(/\s+/).length` and `split(' ').length`.
- `JsMath` (`jsmath.dfy`): `Math.round` (floor of x + 1/2), `Math.max`, `Math.min` and the clamp.
  - `Math.log10` becomes a parameter `log10: real -> real`.
  - The predicate `IsLog10` constrains that parameter: its value is 1 at 10, and it is monotone on the positive reals.
- `KeywordAnalysis` (`keyword_analysis.dfy`): the engine, in two layers.
  - **Specification functions**, for example `SearchVolume`, `Difficulty`, `Cpc`, `ContentLength`, `Seasonality` and `Metrics`. The lemmas about the engine are stated over these.
  - **Imperative methods** that follow the source step by step. `EstimateSearchVolume`, `CalculateDifficulty`, `EstimateCpc` and `RecommendContentLength` mutate one accumulator. `CalculateSeasonality` is a loop with an early return. `AnalyzeKeyword` makes the same calls as the source, in the source's order. Each method is proved equal to its specification function.
  - `Math.random()` becomes the parameter `variance`, which lies in [0.8, 1.2].
  - The year in `generateRelatedKeywords` becomes the parameter `currentYear`.
- `UsageLimits` (`usage_limits.dfy`): pure functions over the plan table.
  - The usage counts are inputs; the model does not fetch them.

## Where the documentation and the code differ (the model follows the code)

- **Difficulty ignores intent.** `calculateDifficulty` receives the intent but never reads it. `Difficulty` therefore takes only the keyword and the word count.
- **Navigational intent** leaves the volume (`:107-114`) and the CPC (`:302-308`) unchanged. Informational intent also leaves the CPC unchanged.
- **The year test** for difficulty is `/20\d{2}|202[0-9]/` (`HasYear`). The second alternative is contained in the first.
- **Seasonality uses a different year pattern**, `/202[4-9]|203[0-9]/` (`HasRecentYear`).
- **Bare geographic modifiers.** The list contains `in`, `at` and `us`, matched as plain substrings. Most keywords containing those letters therefore count as geographic, in both the volume and the difficulty estimate.
- **Snippet rule word count.** The snippet rule counts words with `split(' ')`. The rest of the engine uses the whitespace split of the trimmed keyword.
- **Unlimited plans report no figures.** An unlimited plan's check carries no `current` or `limit`. As a result, the article middleware's `limit === -1` branch can never be taken, and `usageInfo` is all zeros for such plans.

## Model

| member | source | states |
|---|---|---|
| Strings.ToLower | backend/src/services/keywordAnalysis.ts:123 | the result has the input's length, and each of its characters is the input's character lower-cased: an ASCII capital becomes the letter 32 code points above it (so no capital is left), every other character stays as it is |
| Strings.Trim | backend/src/services/keywordAnalysis.ts:429 | the result is an infix of the input with only whitespace cut from both ends, and neither of its ends is whitespace |
| Strings.IsWhitespace | backend/src/services/keywordAnalysis.ts:429-430 | the characters `\s` matches and `trim()` removes: ECMAScript's WhiteSpace and LineTerminator sets |
| Strings.Contains | backend/src/services/keywordAnalysis.ts:125 | `s.includes(t)`, as a scan over start positions; `ContainsAt` proves it means an occurrence at some position |
| Strings.ContainsAt | backend/src/services/keywordAnalysis.ts:125 | the left-to-right `includes` scan succeeds exactly when the needle occurs at some position |
| Strings.ContainsAny | backend/src/services/keywordAnalysis.ts:132 | `some(w => s.includes(w))` holds exactly when some listed word occurs in the string |
| Strings.CountContaining | backend/src/services/keywordAnalysis.ts:180 | the `filter(...).length` count is at most the list length; it is positive exactly when some word occurs, and full exactly when all words occur |
| Strings.CountContainingAppend | backend/src/services/keywordAnalysis.ts:180 | the count over a concatenated list is the sum of the counts over its parts, and a one-word list counts 1 when the word occurs and 0 otherwise, which fixes the count's value for every list |
| Strings.CountChar | backend/src/services/keywordAnalysis.ts:370 | the count of a character is its multiplicity in the string; it is 0 exactly when the character does not occur |
| Strings.SpaceSplitCount | backend/src/services/keywordAnalysis.ts:370 | `split(' ').length` is one more than the number of spaces, so it is at least 1, equals 1 exactly when there is no space, and is at least 3 exactly when there are at least two spaces |
| Strings.WordCount | backend/src/services/keywordAnalysis.ts:430 | `split(/\s+/).length` is at least 1, and is 1 for the empty string |
| Strings.WordCountIsTokenCount | backend/src/services/keywordAnalysis.ts:429-430 | for a trimmed non-empty keyword, the whitespace split counts exactly its maximal non-whitespace tokens |
| JsMath.Round | backend/src/services/keywordAnalysis.ts:139 | `Math.round(x)` is an integer within half a unit of x, with halves rounding up |
| JsMath.RoundMonotone | backend/src/services/keywordAnalysis.ts:292 | rounding never reverses an order |
| JsMath.RoundToThousand | backend/src/services/keywordAnalysis.ts:143 | `Math.round(n / 1000) * 1000` is a multiple of 1000 in (n − 500, n + 500] |
| JsMath.RoundToHundred | backend/src/services/keywordAnalysis.ts:145 | `Math.round(n / 100) * 100` is a multiple of 100 in (n − 50, n + 50] |
| JsMath.RoundToTen | backend/src/services/keywordAnalysis.ts:147 | `Math.round(n / 10) * 10` is a multiple of 10 in (n − 5, n + 5] |
| JsMath.Clamp | backend/src/services/keywordAnalysis.ts:229 | `Math.max(lo, Math.min(hi, x))` lies in [lo, hi]; it is x inside the range and the nearer bound outside it |
| KeywordAnalysis.IsQuestion | backend/src/services/keywordAnalysis.ts:117 | question form is `QUESTION_WORDS.some(qw => keyword.toLowerCase().startsWith(qw + ' '))`, the existential that `StartsWithAnyWord` states, over the lower-cased keyword; the same test recurs at :174, :263, :351 and :366 |
| KeywordAnalysis.DetermineIntent | backend/src/services/keywordAnalysis.ts:235-256 | the intent chain over the lower-cased keyword; its precedence is stated in `DetermineIntentPrecedence` |
| KeywordAnalysis.StartsWithAnyWord | backend/src/services/keywordAnalysis.ts:117 | a keyword is in question form exactly when it starts with some question word followed by a space |
| KeywordAnalysis.DetermineIntentPrecedence | backend/src/services/keywordAnalysis.ts:235-256 | intent is transactional iff a transactional term occurs; navigational iff none does and a navigational term does; commercial iff neither does and a commercial term does; informational otherwise |
| KeywordAnalysis.DetermineKeywordType | backend/src/services/keywordAnalysis.ts:261-276 | the type is question iff the keyword is in question form; otherwise short-tail up to 2 words, mid-tail at 3, long-tail above |
| KeywordAnalysis.HasFeaturedSnippetPotential | backend/src/services/keywordAnalysis.ts:362-385 | the early-return chain of snippet signals; its meaning as one disjunction is stated in `SnippetPotentialSignals` |
| KeywordAnalysis.HasCapital | backend/src/services/keywordAnalysis.ts:190 | `/[A-Z]/.test(keyword)`: some character is an ASCII capital |
| KeywordAnalysis.HasDigit | backend/src/services/keywordAnalysis.ts:196 | `/\d/.test(keyword)`: some character is an ASCII digit |
| KeywordAnalysis.HasYear | backend/src/services/keywordAnalysis.ts:202 | `/20\d{2}\|202[0-9]/` as an existential over start positions, one per alternative |
| KeywordAnalysis.HasRecentYear | backend/src/services/keywordAnalysis.ts:418 | `/202[4-9]\|203[0-9]/` as an existential over start positions, one per alternative |
| KeywordAnalysis.SnippetPotentialSignals | backend/src/services/keywordAnalysis.ts:362-385 | snippet potential holds iff one of its signals holds: question form; informational with at least two spaces (3+ pieces of `split(' ')`, by `SpaceSplitCount`); a comparison phrase; a definition phrase; `MetricsShape` derives from it that every question-form record has snippet potential |
| KeywordAnalysis.FirstMatch | backend/src/services/keywordAnalysis.ts:124-129 | the index found is that of a table key occurring in the string, with no earlier key occurring, or the table length when none occurs |
| KeywordAnalysis.FirstMatchScan | backend/src/services/keywordAnalysis.ts:411-415 | the in-order scan with early exit stops at the first matching entry |
| KeywordAnalysis.ScaleByFirstMatchScan | backend/src/services/keywordAnalysis.ts:124-129 | the `for…of` loop with `break` multiplies by the factor of the first industry term found, and by nothing when there is none |
| KeywordAnalysis.IndustryMultiplier | backend/src/services/keywordAnalysis.ts:62-80 | the industry factor applied is between 1 and 2.5 |
| KeywordAnalysis.ScaleByIndustry | backend/src/services/keywordAnalysis.ts:122-129 | the industry step is a multiplication by that factor |
| KeywordAnalysis.BaseVolumeBounds | backend/src/services/keywordAnalysis.ts:91-135 | before the variance, the volume lies between 448 and 243750 |
| KeywordAnalysis.CleanRound | backend/src/services/keywordAnalysis.ts:141-148 | the clean rounding is to the nearest 1000 from 10000 on, to the nearest 100 from 1000 on and to the nearest 10 below (a multiple of the step within half a step of the input), so always a multiple of 10 |
| KeywordAnalysis.CleanRoundMonotone | backend/src/services/keywordAnalysis.ts:141-148 | the clean rounding never reverses an order, including across the 1000 and 10000 boundaries |
| KeywordAnalysis.VolumeFromBase | backend/src/services/keywordAnalysis.ts:137-150 | after the variance and the rounding, the volume is at least 10 and a multiple of 10 |
| KeywordAnalysis.SearchVolume | backend/src/services/keywordAnalysis.ts:91-151 | the search-volume estimate is at least 10 and a multiple of 10 for every variance draw |
| KeywordAnalysis.EstimateBaseVolume | backend/src/services/keywordAnalysis.ts:91-135 | the step-by-step accumulator ends at the base volume: the word-count base scaled for intent, then question form, then industry, then geography |
| KeywordAnalysis.RoundVolume | backend/src/services/keywordAnalysis.ts:137-150 | the rounding steps compute the volume for the given base and draw |
| KeywordAnalysis.EstimateSearchVolume | backend/src/services/keywordAnalysis.ts:91-151 | `estimateSearchVolume` returns the search-volume estimate |
| KeywordAnalysis.VolumeFromBaseMonotone | backend/src/services/keywordAnalysis.ts:137-150 | a larger base or a larger variance draw never gives a smaller volume |
| KeywordAnalysis.SearchVolumeMonotoneInVariance | backend/src/services/keywordAnalysis.ts:137-139 | for a fixed keyword, the volume does not decrease as the variance grows |
| KeywordAnalysis.SearchVolumeBounds | backend/src/services/keywordAnalysis.ts:91-151 | with the variance in [0.8, 1.2], the volume lies between 360 and 293000 |
| KeywordAnalysis.Difficulty | backend/src/services/keywordAnalysis.ts:156-230 | difficulty is an integer in [0, 100], and equals the unclamped sum of adjustments whenever that sum is in range |
| KeywordAnalysis.CalculateDifficulty | backend/src/services/keywordAnalysis.ts:156-230 | the method adding and subtracting each adjustment in turn returns the difficulty, whatever intent it is given |
| KeywordAnalysis.AdjustForWordCount | backend/src/services/keywordAnalysis.ts:160-170 | the word-count branch adds +40, +25, +10, −10 or −25 for 1, 2, 3, 4 or 5+ words, and nothing otherwise |
| KeywordAnalysis.AdjustForWording | backend/src/services/keywordAnalysis.ts:172-187 | the question, commercial (5 per term found) and transactional steps add the wording adjustment |
| KeywordAnalysis.AdjustForSpecificity | backend/src/services/keywordAnalysis.ts:189-205 | the capital-letter, digit and year steps add the specificity adjustment |
| KeywordAnalysis.AdjustForNiche | backend/src/services/keywordAnalysis.ts:207-226 | the technical-term, geographic and comparison steps add the niche adjustment |
| KeywordAnalysis.OpportunityScore | backend/src/services/keywordAnalysis.ts:281-293 | for a real log10, a volume of at least 10 and a difficulty in [0, 100], the score lies in [8, 100] |
| KeywordAnalysis.OpportunityScoreMonotone | backend/src/services/keywordAnalysis.ts:281-293 | more volume or less difficulty never lowers the score |
| KeywordAnalysis.ToCents | backend/src/services/keywordAnalysis.ts:323 | `Math.round(x * 100) / 100` is a whole number of cents within half a cent of x |
| KeywordAnalysis.Cpc | backend/src/services/keywordAnalysis.ts:298-324 | the CPC is a whole number of cents |
| KeywordAnalysis.CpcBounds | backend/src/services/keywordAnalysis.ts:298-324 | for a difficulty in [0, 100], the CPC is between 0.50 and 24.00 dollars |
| KeywordAnalysis.CpcMonotoneInDifficulty | backend/src/services/keywordAnalysis.ts:310-311 | a harder keyword never gets a lower CPC |
| KeywordAnalysis.ScaleCpcForIndustryMonotone | backend/src/services/keywordAnalysis.ts:313-321 | the industry multiplier of the CPC keeps the order of the amounts it scales |
| KeywordAnalysis.ScaleCpcForIndustryStep | backend/src/services/keywordAnalysis.ts:313-321 | the industry branch multiplies by 8, 5 or 3 for the first matching group in order, and leaves the CPC alone otherwise |
| KeywordAnalysis.EstimateCpc | backend/src/services/keywordAnalysis.ts:298-324 | the step-by-step `baseCPC` accumulator returns the CPC |
| KeywordAnalysis.ContentLength | backend/src/services/keywordAnalysis.ts:329-357 | the recommended length lies between 900 and 3900 words |
| KeywordAnalysis.ContentLengthMonotone | backend/src/services/keywordAnalysis.ts:333-341 | a harder keyword never gets a shorter recommendation |
| KeywordAnalysis.RecommendContentLength | backend/src/services/keywordAnalysis.ts:329-357 | the step-by-step `baseLength` accumulator returns the recommended length |
| KeywordAnalysis.Seasonality | backend/src/services/keywordAnalysis.ts:390-423 | the seasonality score lies in [0, 100] |
| KeywordAnalysis.SeasonalityFirstMatch | backend/src/services/keywordAnalysis.ts:394-422 | the first seasonal term found, in table order, gives the score; with none, a year from 2024 to 2039 gives 50 and anything else 0 |
| KeywordAnalysis.CalculateSeasonality | backend/src/services/keywordAnalysis.ts:390-423 | the early-return loop over the seasonal terms returns the seasonality score |
| KeywordAnalysis.DifficultyLabelOf | backend/src/services/keywordAnalysis.ts:442-446 | Easy below 30, Medium below 60, Hard below 80, otherwise Very Hard, each as an iff |
| KeywordAnalysis.CompetitionOf | backend/src/services/keywordAnalysis.ts:448-451 | Low below 40, Medium below 70, otherwise High, each as an iff |
| KeywordAnalysis.PriorityOf | backend/src/services/keywordAnalysis.ts:453-456 | High from 70, Medium from 40, otherwise Low, each as an iff |
| KeywordAnalysis.VolumeRangeOf | backend/src/services/keywordAnalysis.ts:458-464 | the bucket boundaries are 100000, 10000, 1000 and 100, each as an iff |
| KeywordAnalysis.Metrics | backend/src/services/keywordAnalysis.ts:428-487 | the record's keyword is the trimmed input |
| KeywordAnalysis.TrafficPotentialExact | backend/src/services/keywordAnalysis.ts:467 | 30% of a multiple of ten needs no rounding: the traffic potential is exactly volume / 10 * 3 |
| KeywordAnalysis.MetricsShape | backend/src/services/keywordAnalysis.ts:429-441 | the word count is at least 1, and counts the tokens of a non-empty keyword; the type is question iff the keyword is in question form; every question has snippet potential |
| KeywordAnalysis.MetricsVolumeRanges | backend/src/services/keywordAnalysis.ts:436-467 | a record's volume is a multiple of 10 in [360, 293000], and its traffic potential is exactly 30% of it |
| KeywordAnalysis.MetricsScoreRanges | backend/src/services/keywordAnalysis.ts:436-485 | a record's difficulty is in [0, 100]; its opportunity score is in [8, 100] (for a real log10); its CPC is in [0.50, 24.00]; its length in [900, 3900]; its seasonality in [0, 100] |
| KeywordAnalysis.MetricsLabels | backend/src/services/keywordAnalysis.ts:442-464 | every label of a record agrees with the thresholds on the numeric field it comes from |
| KeywordAnalysis.VarianceAffectsOnlyVolumeFields | backend/src/services/keywordAnalysis.ts:436-485 | two analyses of one keyword with different variance draws agree on every field except the volume, its bucket, the traffic potential, the opportunity score and the priority |
| KeywordAnalysis.AnalyzeKeyword | backend/src/services/keywordAnalysis.ts:428-487 | the method calling the estimators in order builds the record for the keyword and the draw |
| KeywordAnalysis.AssembleMetrics | backend/src/services/keywordAnalysis.ts:436-486 | once the keyword is trimmed and its word count and intent are known, the estimator calls and the record literal build the record for that keyword |
| KeywordAnalysis.Analyses | backend/src/services/keywordAnalysis.ts:493 | the `keywords.map(kw => analyzeKeyword(kw))` step: the i-th record is `Metrics` of the i-th keyword and its own variance draw |
| KeywordAnalysis.SortByOpportunity | backend/src/services/keywordAnalysis.ts:496 | the in-place sort leaves the array non-increasing by opportunity score and a permutation of what it was |
| KeywordAnalysis.InsertLast | backend/src/services/keywordAnalysis.ts:496 | one insertion step extends the sorted prefix by one element, permutes the array, and leaves every element after that prefix where it was |
| KeywordAnalysis.AnalyzeKeywords | backend/src/services/keywordAnalysis.ts:492-497 | the result has one record per keyword, is a permutation of the per-keyword records, and is sorted by opportunity score, highest first |
| KeywordAnalysis.DecimalString | backend/src/services/keywordAnalysis.ts:526 | a number in a template literal prints as its decimal numeral: a non-empty string of digits whose value is the number, with no leading zero |
| KeywordAnalysis.GenerateRelatedKeywords | backend/src/services/keywordAnalysis.ts:502-528 | exactly 10 suggestions: the six question prefixes, then best, top, free and online, each followed by a space and the lower-cased keyword; no suffix or year variant survives |
| UsageLimits.LimitsOf | backend/src/middleware/usageLimits.ts:15-44 | every quota is `-1` or positive, and API access implies export access |
| UsageLimits.CheckAgainst | backend/src/middleware/usageLimits.ts:94-142 | one `switch` case: an unlimited quota allows with no figures; otherwise the case reports current and limit and allows iff current + requested <= limit |
| UsageLimits.CheckUsageLimit | backend/src/middleware/usageLimits.ts:84-148 | an unlimited quota allows with no figures; otherwise the check reports the resource's own count and quota (monthly articles, total projects and lead magnets) and allows iff current + requested <= limit; it never reports the sentinel |
| UsageLimits.AllowedForSmallerAmount | backend/src/middleware/usageLimits.ts:100-108 | if an amount is allowed, every smaller amount is allowed |
| UsageLimits.AllowedWithLessUsage | backend/src/middleware/usageLimits.ts:100-108 | if a request is allowed, it stays allowed with less usage |
| UsageLimits.QuotaBoundary | backend/src/middleware/usageLimits.ts:117-125 | filling a limited quota exactly is allowed, and one more is refused |
| UsageLimits.LimitsGrowWithTier | backend/src/middleware/usageLimits.ts:15-44 | every quota and feature flag grows from FREE to STARTER to GROWTH to ENTERPRISE |
| UsageLimits.UpgradeKeepsAllowed | backend/src/middleware/usageLimits.ts:84-148 | a request allowed on a plan is allowed on every higher plan |
| UsageLimits.HasFeatureAccess | backend/src/middleware/usageLimits.ts:275-286 | export access is the plan's `canExport`, API access its `canUseAPI`; which plans that grants is stated in `FeatureMatrix` |
| UsageLimits.FeatureMatrix | backend/src/middleware/usageLimits.ts:15-44 | export for every plan except FREE; the API for GROWTH and ENTERPRISE only |
| UsageLimits.OrZero | backend/src/middleware/usageLimits.ts:222-223 | the `or 0` default: a missing value reads as 0, a present one as itself; what that gives after a real check is stated in `UsageInfoAfterArticleCheck` |
| UsageLimits.ArticleUsageInfo | backend/src/middleware/usageLimits.ts:221-225 | current and limit default to 0; remaining is -1 for a reported limit of -1, and limit − current otherwise; `UsageInfoAfterArticleCheck` states the summary an allowed check actually yields |
| UsageLimits.UsageInfoAfterArticleCheck | backend/src/middleware/usageLimits.ts:206-225 | after an allowed article check, the summary is (0, 0, 0) on an unlimited plan; otherwise it is (used, limit, limit − used), with room for the requested amount |

## Left out

- **Fetching usage.** `getUserUsage` runs Mongoose queries; the usage counts are inputs instead.
- **Middleware plumbing.** The middleware wrappers' Express request and response handling: the 401, 404 and 403 responses and `next()`.
- **Reading the article count.** The article middleware reads `req.body.count || requestedCount`; the requested amount is a parameter instead.
- **Refusal messages.** The display text of a refused check is not modelled.
- UsageLimits.CheckUsageLimit: the requested amount is an integer. The source's `number` could also be fractional or `NaN`. The `default` branch of the resource `switch` is not modelled, because the datatype has only the three resources.
- UsageLimits.HasFeatureAccess: the `default: false` branch of the feature `switch` is not modelled, because the datatype has only the two features.
- **Arithmetic.** Numbers are exact reals and unbounded integers, not IEEE doubles, so floating-point rounding error in the multipliers is not modelled.
- **Logarithm.** `Math.log10` is abstract. The only facts assumed about it are `IsLog10`: its value at 10 and its monotonicity.
- **Inputs from the environment:**
  - `Math.random()` is the `variance` parameter.
  - The current year is the `currentYear` parameter. It only feeds a suggestion that `slice(0, 10)` cuts off.
- Strings.ToLower: only ASCII capitals are lower-cased, whereas JavaScript's `toLowerCase` folds all of Unicode.
- **Character encoding.** Strings are sequences of Unicode scalar values rather than UTF-16 code units. Lengths and positions can differ for characters outside the Basic Multilingual Plane.
- KeywordAnalysis.SortByOpportunity: the engine's `Array.prototype.sort` algorithm is not modelled, only its result. The model sorts by insertion, and the relative order of records with equal scores is not stated.
- KeywordAnalysis.AnalyzeKeywords: the `map` step builds the array from the specification function `Metrics` (also proved equal to `AnalyzeKeyword`'s result), not by calling the method in a loop.
- KeywordAnalysis.EstimateSearchVolume is split into `EstimateBaseVolume` and `RoundVolume`. The industry loop also runs in the generic `ScaleByFirstMatchScan`, and the CPC industry branch in `ScaleCpcForIndustryStep`. The statements are the source's, in the source's order.
- KeywordAnalysis.CalculateDifficulty is split into `AdjustForWordCount`, `AdjustForWording`, `AdjustForSpecificity` and `AdjustForNiche`, each updating the running difficulty. The statements are the source's, in the source's order.
- KeywordAnalysis.AnalyzeKeyword trims the keyword and computes its word count and intent, then hands the rest of the body to `AssembleMetrics`. The calls are the source's, in the source's order. The four label `if` chains are calls to the label functions, stored in locals before the traffic potential, as in the source. The four estimators the source calls inside the returned object literal run just before the literal, in the same order.
- **Variance range.** The variance bound is [0.8, 1.2]. `0.8 + Math.random() * 0.4` never reaches 1.2.
