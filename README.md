# Token and cost estimator engine

This project models the pricing engine under two React components that estimate
token counts and spend for hosted language-model APIs. The two parts are:

- **Model comparison** (`ai-model-comparison.tsx`). A static catalog `modelData` lists
  each provider, model family and version with a context window, a response limit and
  input/output prices per 1000 tokens. The Llama family's prices are the string
  `'Self-hosted'`. There are also three monthly usage profiles. `calculateMetrics`
  turns a prompt text and an expected-response text into token counts, a flag for
  whether they fit the context window, the cost of the request and a monthly projection.
- **Tiered volume** (`api-based-calculation.tsx`). The `APIRates` table gives each
  provider a base price per million tokens and an ordered list of volume tiers.
  `calculateAPITier` picks the first tier whose limit admits the token count and prices
  the whole volume at that tier's rate.

Both parts estimate tokens as `ceil(length / 4)`. That estimator is one shared module,
`Tokens`. The length is JavaScript's `text.length`, which counts UTF-16 code units, so a
character outside the Basic Multilingual Plane (an emoji, say) counts twice. The model
computes it as `Utf16Length` over the text's Unicode characters.

Files:

- `wrappers.dfy`: `Option`.
- `tokens.dfy`: the estimator.
- `model_catalog.dfy`: `modelData`, `monthlyUsageEstimates` and catalog well-formedness.
- `model_comparison.dfy`: `getModelValue`, the cost formulas and `calculateMetrics`.
- `api_tiers.dfy`: `APIRates`, `calculateAPITier` and the sum in `updateTokenCount`.

How JavaScript values are represented:

- A number-or-string attribute is the datatype `Value = Number(real) | NaN | Label(string)`.
  Prices are exact reals.
- `NaN` is there because JavaScript gives NaN when a number is multiplied by a string.
  Every comparison with NaN, or with a non-numeric string, is false.
- An attribute is `Field = Absent | PerVersion(map) | Scalar(Value)`.
- JavaScript falsiness (0, NaN, the empty string, a missing key) is modelled where the
  code tests it: `!property` and `property[version] || 'N/A'` in `getModelValue`, and
  `!limit` in `calculateAPITier`. Because of `!limit`, a tier limit of 0 acts like
  `null` and admits every count.
- `calculateAPITier` is a `while` loop method (`CalculateApiTier`). It is proved equal to
  the specification function `ApiTier`, which is built on the recursive first-match
  function `FirstAdmitting`.

Behaviour of the code worth noting:

- The code never checks the response limit. It reads the limit only for display.
- A context window that resolves to `'N/A'` makes `withinContext` false, because JavaScript compares the count with NaN.
- An unknown version raises no error. It resolves to `'N/A'`, or to `'Self-hosted'` for
  the Llama family, whose prices are scalars. This is `UnlistedVersionMetrics`.

## Model

| member | source | states |
|---|---|---|
| Tokens.EstimateTokens | ai-model-comparison.tsx:145-147 | the count is the real-number ceiling of the UTF-16 length divided by 4: the least whole number at least a quarter of that length |
| Tokens.EstimateTokensAtBoundaries | api-based-calculation.tsx:51 | 4k code units give k tokens, 4k+1 to 4k+3 code units give k+1, the empty text gives 0 |
| Tokens.EstimateTokensMonotone | ai-model-comparison.tsx:147 | a text with at least as many code units never has fewer estimated tokens |
| Tokens.Utf16LengthBounds | ai-model-comparison.tsx:147 | the code-unit length lies between the number of characters and twice that number |
| Tokens.Utf16LengthOfBmpText | ai-model-comparison.tsx:147 | a text without supplementary characters has as many code units as characters |
| Tokens.Utf16LengthConcat | api-based-calculation.tsx:51 | the code-unit length of a concatenation is the sum of the two lengths (this supports SplitEstimate) |
| Tokens.FourEmojiExample | api-based-calculation.tsx:51 | four emoji are 8 code units and so 2 tokens |
| Tokens.EstimateTokensGrowsByAppending | ai-model-comparison.tsx:147 | appending text never lowers the estimate |
| Tokens.SplitEstimate | api-based-calculation.tsx:53-55 | summing the two texts' estimates over-counts the estimate of their concatenation by at most one |
| ApiTiers.UpdateTokenCount | api-based-calculation.tsx:53-56 | the total is the prompt's estimate plus the response's estimate; so 4*total lies in [len, len+8) for the combined code-unit length, and the total is within one token of the concatenation's estimate |
| ModelCatalog.UsageLevelsAscend | ai-model-comparison.tsx:133-137 | low < medium < high in prompts, average prompt size and average response size |
| ModelCatalog.CatalogWellFormed | ai-model-comparison.tsx:3-131 | every catalog model lists versions; its window and limit are keyed by exactly those versions with positive numbers; its two prices are both such maps or both the 'Self-hosted' scalar |
| ModelComparison.GetModelValue | ai-model-comparison.tsx:163-167 | the result is never falsy; absent gives 'N/A'; a per-version map gives the version's entry when it is present and truthy, and 'N/A' when it is missing or falsy; a scalar gives itself, or 'N/A' when it is falsy |
| ModelComparison.ScalarIgnoresVersion | ai-model-comparison.tsx:165-166 | a scalar attribute resolves the same for every version |
| ModelComparison.RequestCost | ai-model-comparison.tsx:179-180 | a string input price passes through; the result is a number exactly when both prices are; it is NaN when the input price is not a string and either price is not a number; a numeric result times 1000 is promptTokens*in + responseTokens*out, and it is non-negative for non-negative prices |
| ModelComparison.CalculateMonthlyEstimate | ai-model-comparison.tsx:154-161 | the monthly estimate is the profile's prompt count times the cost of one request of the profile's average size; a string input price passes through |
| ModelComparison.CalculateMetrics | ai-model-comparison.tsx:169-195 | the token counts are the estimates of the two texts; the total is their sum; within-context holds iff the window resolves to a number and total <= window; the current cost uses the entered counts, the monthly estimate uses the selected profile; a string input price makes both costs that string |
| ModelComparison.RequestCostMonotone | ai-model-comparison.tsx:179-180 | for non-negative prices the request cost is non-negative and does not decrease when either token count grows |
| ModelComparison.CurrentCostMonotoneInText | ai-model-comparison.tsx:171-180 | longer prompt or response texts never make a metered request cheaper |
| ModelComparison.MonthlyEstimateIgnoresText | ai-model-comparison.tsx:182-186 | the monthly estimate is the same for any two pairs of entered texts |
| ModelComparison.MonthlyEstimateGrowsWithLevel | ai-model-comparison.tsx:154-161 | for non-negative prices, low <= medium <= high monthly estimates, all non-negative numbers |
| ModelComparison.WellFormedMetrics | ai-model-comparison.tsx:175-192 | for a well-formed model and a listed version: the window is a number, within-context iff total <= window, and both costs are non-negative numbers or both 'Self-hosted' |
| ModelComparison.UnlistedVersionMetrics | ai-model-comparison.tsx:163-192 | for a version the model does not list: never within context, and both costs are the same marker, 'N/A' or 'Self-hosted' |
| ModelComparison.CatalogMetrics | ai-model-comparison.tsx:169-195 | every row of the shipped catalog has the shape stated by WellFormedMetrics |
| ModelComparison.SelfHostedPassThrough | ai-model-comparison.tsx:154-180 | Llama shows 'Self-hosted' for both costs whatever the texts and the version |
| ModelComparison.ClaudeOpusAttributes | ai-model-comparison.tsx:36-56 | Claude 3-Opus resolves to a 200000 window and prices 0.015 and 0.075 |
| ModelComparison.ClaudeOpusCosts | ai-model-comparison.tsx:154-180 | at those prices 100+50 tokens cost 0.00525 and the medium profile projects 825 |
| ModelComparison.ClaudeOpusExample | ai-model-comparison.tsx:48-59 | Claude 3-Opus with texts of 400 and 200 code units gives 100+50 tokens, within context, a cost of 0.00525 and 825 a month at the medium level |
| ModelComparison.ContextBoundaryExample | ai-model-comparison.tsx:192 | the window bound is inclusive: 4096 tokens fit Llama-3.1-70b's 4096 window, 4097 do not |
| ApiTiers.FirstAdmitting | api-based-calculation.tsx:35-42 | the result is the first index, in table order, whose tier admits the count (null limit, limit 0, or count <= limit); it is None only if no tier admits it |
| ApiTiers.ApiTier | api-based-calculation.tsx:31-43 | null exactly for a provider that is not a key of the table; otherwise the first admitting tier's name with the flat cost tokens*base*rate/1000000, or undefined when no tier admits |
| ApiTiers.CalculateApiTier | api-based-calculation.tsx:31-43 | the loop's early return gives exactly the result ApiTier specifies |
| ApiTiers.AdmitsCases | api-based-calculation.tsx:36 | a null limit and a limit of 0 admit every count; a positive limit admits exactly the counts up to it, inclusive |
| ApiTiers.TierCost | api-based-calculation.tsx:39 | the cost is the token count times one per-token price, base*rate/1000000, for the whole volume; it is non-negative for non-negative base and rate |
| ApiTiers.UnboundedLastTierMatches | api-based-calculation.tsx:35-42 | a tier list that ends with a null limit prices every count |
| ApiTiers.KnownProvidersAlwaysPriced | api-based-calculation.tsx:4-29 | every shipped provider prices every token count, never undefined |
| ApiTiers.TierIndexMonotone | api-based-calculation.tsx:35-36 | a larger count never selects an earlier tier than a smaller one, for any table |
| ApiTiers.ZeroTokensFirstTier | api-based-calculation.tsx:36 | zero tokens select the first tier of any non-empty list |
| ApiTiers.ZeroTokensFree | api-based-calculation.tsx:36-39 | zero tokens cost 0 at a shipped provider's first tier |
| ApiTiers.TierBracket | api-based-calculation.tsx:35-36 | over a well-ordered list, tier i is selected iff the count is above the previous limit and at most tier i's own limit (both directions) |
| ApiTiers.ShippedRatesWellOrdered | api-based-calculation.tsx:4-29 | each shipped list has positive, strictly ascending limits and ends with a null limit |
| ApiTiers.AnthropicBoundaries | api-based-calculation.tsx:13-19 | 1,000,000 tokens is Starter at 15; 1,000,001 is Growth at 12.75001275; 10,000,001 and 50,000,000 are Enterprise, the latter at 525 |
| ApiTiers.FlatCostDropsAtBoundary | api-based-calculation.tsx:39 | because the rate applies to the whole volume, 1,000,001 Anthropic tokens cost less than 1,000,000 |

## Left out

- React rendering, the JSX tables, the `useState` hooks and the `Card` component are presentation only. The usage level and the provider are parameters instead. The write of `tokenCount` in `updateTokenCount` is left out; the model keeps its sum.
- `setError` and the catch branches of `calculateTokens` and `calculateMetrics` are left out. They can only run for non-string input, and every input here is a string.
- `toLocaleString` and `toFixed` are display formatting done by host library calls.
- IEEE-754 rounding is left out. Prices are exact reals, so 0.015 is exactly 0.015.
- String-to-number coercion is left out. A label in a comparison or a product is treated as non-numeric (NaN). Every label the code can see is 'N/A' or 'Self-hosted'.
- The order in which `Object.entries` lists providers and families for display is left out. Only the order of the tier lists matters, and that is kept.
- Lookups by inherited JavaScript property names are not modelled. In JavaScript, `APIRates["constructor"]` is truthy and makes `calculateAPITier` throw, and `property["constructor"]` in `getModelValue` returns a function. The model treats such names like any missing key (`UnknownProvider`, 'N/A'). Every call site passes a key of the table.
- Arrays and `null` as attribute values are not separate cases in `Field`. A `null` attribute is falsy, so it behaves like `Absent`.
