# GigScope pricing engine, in Dafny

GigScope is a quoting tool for freelancers and small agencies. The user builds a
scope out of cost items, each with a category, a pricing type, a rate, a quantity
and optional/selected flags. The tool then produces four things:

- a quote: four category subtotals, the total cost, the profit at a margin, and the price;
- three variants of that quote: conservative, standard and premium;
- a confidence score that compares the user's hourly labor rates with a market table;
- a short list of scope risks.

This project models that engine and the small store that holds the scope. It proves what
each operation computes and the properties the code promises.

| file | module | source |
|---|---|---|
| `wrappers.dfy` | `Wrappers` | `Option`, standing in for fields that may be `undefined` |
| `js_math.dfy` | `JsMath` | `Math.max`, `Math.abs`, `Math.round` on exact reals |
| `cost_engine.dfy` | `CostEngine` | `src/data/costEngine.ts` |
| `quote_variants.dfy` | `QuoteVariants` | `src/data/v2/quoteVariants.ts` |
| `market_intelligence.dfy` | `MarketIntelligence` | `src/data/v2/marketIntelligence.ts` |
| `scope_store.dfy` | `GigScopeContext` | the state and actions of `src/context/GigScopeContext.tsx` |

How the model is built:

- **Money.** Amounts are exact `real`s.
- **JavaScript defaults are written out.**
  - `quantity || 1` reads both an absent and a zero quantity as 1.
  - `rate || 0` reads an absent rate as 0.
  - An optional boolean counts as true only when it is present and `true`.
- **Values outside the declared unions.** A category outside the union takes the
  `default` arm of the calculator, which adds the cost to labor. A pricing type outside
  the union hits no arm and costs 0. The constructors `UnknownCategory` and `UnknownType`
  model these values.
- **The calculator.** `CostEngine.CalculateQuote` is a loop with an invariant. It is
  proved against the recursive function `Tally`, and the properties of the quote are
  proved as lemmas about `Quote`.
- **The variant generator.** `QuoteVariants.GenerateVariants` calls the calculator three
  times. It builds the premium list by pushing the support item onto a fresh copy of the
  standard list.
- **The two advisors.** `CalculateConfidenceScore` and `AnalyzeRisk` reassign and push
  as the source does. Each is proved equal to a declarative specification
  (`ConfidenceOf`, `Risks`).
- **The store.** `GigScopeStore` is a class with one field per piece of state. Each
  action states the store's whole new state. `Derive` computes the render-time figures
  and changes nothing.

The confidence score benchmarks only labor, hourly items whose `isSelected` is truthy
(src/data/v2/marketIntelligence.ts:61). An item without the flag is therefore never
benchmarked, and that includes the industry default items, which carry no `isSelected`.
`MarketIntelligence.IsBenchmark` keeps exactly this filter.

## Model

| member | source | states |
|---|---|---|
| CostEngine.CalculateQuote | src/data/costEngine.ts:32-78 | The result is the quote of the items, `Quote(items, margin)`, built from the four subtotals. Total cost is the sum of the four subtotals. Profit is total cost × (margin / 100). Price is cost plus profit. |
| CostEngine.AddItem | src/data/costEngine.ts:38-63 | One turn of the `forEach` callback adds exactly the item's contribution to the four accumulators. That contribution is its cost in its bucket, or nothing when the item is optional and unselected. |
| CostEngine.ContributionTotal | src/data/costEngine.ts:39-62 | An item adds its cost to the total exactly once, whatever its bucket. A skipped item adds nothing. |
| CostEngine.TallyStep | src/data/costEngine.ts:38-63 | Visiting one more item adds that item's contribution to the accumulators. |
| CostEngine.TallyPush | src/data/costEngine.ts:38-63 | Appending an item to a scope adds its contribution to the subtotals and its total to the total cost. |
| CostEngine.QuoteSingle | src/data/costEngine.ts:32-78 | A one-item scope is priced from that item's contribution alone. |
| CostEngine.QuantityDefaultsToOne | src/data/costEngine.ts:42 | An absent or zero quantity costs the same as a quantity of 1. A metred item then costs its rate. |
| CostEngine.RateDefaultsToZero | src/data/costEngine.ts:43 | An absent rate costs the same as rate 0, so the item costs nothing. |
| CostEngine.FixedIgnoresQuantity | src/data/costEngine.ts:51-53 | A fixed item costs its rate, whatever its quantity. |
| CostEngine.MetredCost | src/data/costEngine.ts:46-50 | An hourly, unit or subscription item with a non-zero quantity costs rate × quantity. |
| CostEngine.SingleItemRouting | src/data/costEngine.ts:56-62 | A single item's cost lands in exactly one subtotal. Labor, material, software and overhead feed their own subtotal. The fixed category and unknown categories feed labor. A skipped item lands nowhere. |
| CostEngine.SumOfSingle | src/data/costEngine.ts:38-63 | Summing a one-item scope gives that item's part. |
| CostEngine.SumOfAppend | src/data/costEngine.ts:38-63 | Summing over a concatenation adds the sums of the two parts, bucket by bucket. |
| CostEngine.SumOfPermutation | src/data/costEngine.ts:38-63 | Two scopes with the same multiset of items have the same sums. |
| CostEngine.SumOfInsert | src/data/costEngine.ts:38-63 | Inserting an item anywhere in a scope adds its part to the sum. |
| CostEngine.PlusSwap | src/data/costEngine.ts:38-63 | Adding two contributions to the accumulators in either order gives the same accumulators. |
| CostEngine.SumOfNonNegative | src/data/costEngine.ts:33-63 | If every item's part is non-negative in each bucket, so is the sum. |
| CostEngine.EmptyScopeIsZero | src/data/costEngine.ts:33-67 | An empty scope gives zero in all seven result fields, at any margin. |
| CostEngine.MarginIsUnclamped | src/data/costEngine.ts:66-67 | The margin is not clamped. At margin 0 the price equals the cost. For a positive cost, a negative margin prices below cost and no other margin does. A margin above 100 more than doubles the cost. |
| CostEngine.QuoteAppend | src/data/costEngine.ts:38-65 | Each subtotal of a concatenated scope, and its total cost, is the sum of the two scopes' values. |
| CostEngine.QuoteIgnoresOrder | src/data/costEngine.ts:38-63 | The quote does not depend on the order of the items. |
| CostEngine.SkippedItemChangesNothing | src/data/costEngine.ts:39 | Inserting an optional, unselected item anywhere leaves every result field unchanged, and so does removing one. |
| CostEngine.ContributionNonNegative | src/data/costEngine.ts:41-62 | An item with a non-negative rate and quantity contributes non-negatively to every bucket. |
| CostEngine.PricedNonNegative | src/data/costEngine.ts:65-67 | Non-negative accumulators give subtotals between 0 and the total cost. With a non-negative margin they also give a price of at least the cost. |
| CostEngine.NonNegativeQuote | src/data/costEngine.ts:33-67 | With non-negative rates and quantities, every subtotal lies between 0 and the total cost. With a non-negative margin as well, the price is at least the cost. |
| JsMath.Max | src/data/v2/quoteVariants.ts:21 | `Math.max` returns one of its arguments and is at least both. |
| JsMath.Abs | src/data/v2/marketIntelligence.ts:67 | `Math.abs` returns the argument or its negation, and is non-negative. |
| JsMath.Round | src/data/v2/marketIntelligence.ts:89 | `Math.round` returns the integer nearest to x, with halves rounded up. |
| QuoteVariants.GenerateVariants | src/data/v2/quoteVariants.ts:12-72 | The result equals the specification `Variants`: three variants, each holding its own scope and that scope's quote at its own margin. |
| QuoteVariants.VariantsShape | src/data/v2/quoteVariants.ts:49-71 | There are exactly three variants, in the order conservative, standard, premium, with matching tiers. The standard variant holds the input list itself and `Quote(input, margin)`. The conservative variant holds its scope priced at max(10, margin − 5). The premium variant holds its scope priced at margin + 5. |
| QuoteVariants.ConservativeScope | src/data/v2/quoteVariants.ts:19-24 | The conservative list has the input's length. A labor/hourly item differs from the original only in its quantity, which becomes max(1, 0.8 q) with an absent q read as 0, so it is at least 1. Every other item is passed through unchanged. |
| QuoteVariants.PremiumScope | src/data/v2/quoteVariants.ts:28-45 | The premium list is the input with labor/hourly quantities set to 1.2 q, plus exactly one final item. That item has id premium-support, is labor and fixed, has quantity 1, is selected, and its rate is 0.15 × the standard total price. The list is one longer than the input. |
| QuoteVariants.VariantMargins | src/data/v2/quoteVariants.ts:25-47 | The conservative margin is at least 10. From a margin of 15 up, it is exactly margin − 5. Conservative profit is at least a tenth of a non-negative cost. The premium margin is always above the standard one, with no cap. |
| QuoteVariants.PricedMargin | src/data/v2/quoteVariants.ts:25 | At a margin of at least 10, the profit on a non-negative cost is at least a tenth of that cost. |
| QuoteVariants.FloorCanRaiseConservativePrice | src/data/v2/quoteVariants.ts:25 | The floor of 10 can make the conservative variant dearer than the standard one. A single fixed item of 100 at margin 0 is quoted at 100 as standard and 110 as conservative. |
| QuoteVariants.PointwiseOtherBuckets | src/data/v2/quoteVariants.ts:19-33 | Two scopes that agree item by item outside the labor bucket agree outside the labor bucket. |
| QuoteVariants.PointwiseTotal | src/data/v2/quoteVariants.ts:19-33 | If each item of one scope costs no more than the matching item of another, the whole scope costs no more. |
| QuoteVariants.RescaledItemStaysPut | src/data/v2/quoteVariants.ts:19-33 | Rescaling hours changes nothing outside the labor bucket. |
| QuoteVariants.VariantsKeepOtherBuckets | src/data/v2/quoteVariants.ts:19-47 | The conservative and premium variants keep the standard material, software and overhead subtotals. |
| QuoteVariants.ShrinkBelow | src/data/v2/quoteVariants.ts:21 | Trimmed hours never exceed the hours the calculator reads, provided a present non-zero quantity is at least 1. |
| QuoteVariants.ShrinkCost | src/data/v2/quoteVariants.ts:19-24 | Trimming a labor/hourly item with whole hours and a non-negative rate never raises its cost. |
| QuoteVariants.FewerHoursCostLess | src/data/costEngine.ts:46-50 | For an hourly item with a non-negative rate, changing only its quantity moves its cost in the same direction as the hours the calculator reads. |
| QuoteVariants.ShrinkNoDearer | src/data/v2/quoteVariants.ts:19-24 | For an item with a non-negative rate and quantity whose labor hours are absent, zero or at least 1, trimming never raises its contribution to the total. A quantity strictly between 0 and 1 can be raised to 1, so the item can get dearer. |
| QuoteVariants.StretchAbove | src/data/v2/quoteVariants.ts:30 | For a non-negative quantity, buffered hours are never fewer than the hours the calculator reads. An absent or zero quantity still reads as one hour. |
| QuoteVariants.StretchCost | src/data/v2/quoteVariants.ts:28-33 | For a labor/hourly item with a non-negative rate and quantity, buffering never lowers its cost. |
| QuoteVariants.StretchNoCheaper | src/data/v2/quoteVariants.ts:28-33 | For an item with a non-negative rate and quantity, buffering never lowers its contribution to the total. |
| QuoteVariants.ConservativeNoDearer | src/data/v2/quoteVariants.ts:14-25 | With non-negative rates and quantities and whole labor hours, the conservative cost is at most the standard cost. From a margin of 15 up, the conservative price is also at most the standard price. |
| QuoteVariants.TrimmedScopeNoDearer | src/data/v2/quoteVariants.ts:19-24 | Under the same assumptions, the conservative list's cost lies between 0 and the standard cost. |
| QuoteVariants.PriceMonotone | src/data/costEngine.ts:66-67 | A larger non-negative cost at a larger non-negative margin gives a larger price. |
| QuoteVariants.PricedMonotone | src/data/costEngine.ts:65-67 | Priced accumulators are monotone in their total cost and in a non-negative margin. |
| QuoteVariants.SupportCost | src/data/v2/quoteVariants.ts:36-45 | Pushing the support item adds exactly 0.15 × the standard price to the cost. |
| QuoteVariants.PremiumCost | src/data/v2/quoteVariants.ts:28-47 | The premium cost is the buffered list's cost plus 15% of the standard total price. |
| QuoteVariants.PremiumPricing | src/data/v2/quoteVariants.ts:14-47 | The premium cost is the buffered list's cost plus 15% of the standard price; the support item is priced from the standard quote, not from itself. With non-negative inputs and margin, the premium price is at least the standard price. |
| QuoteVariants.PremiumNoCheaper | src/data/v2/quoteVariants.ts:28-47 | With non-negative rates, quantities and margin, the premium price is at least the standard price. |
| QuoteVariants.BufferedScopeNoCheaper | src/data/v2/quoteVariants.ts:28-33 | With non-negative rates and quantities, the buffered list costs at least as much as the input. |
| QuoteVariants.WorkedExample | src/data/v2/quoteVariants.ts:14-47 | One labor/hourly item of 40 hours at 10000, with margin 20, is quoted at 368000 conservative, 480000 standard and 690000 premium. |
| MarketIntelligence.GetMarketData | src/data/v2/marketIntelligence.ts:45-53 | The record always carries the requested id. Its average rate is positive and below its 90th-percentile rate. |
| MarketIntelligence.MarketTable | src/data/v2/marketIntelligence.ts:13-53 | web-dev, graphic-design, photography and catering get their table rows. Every other id gets 10000 / 20000 / 5% / medium demand. |
| MarketIntelligence.BenchmarkItems | src/data/v2/marketIntelligence.ts:61 | The benchmark list is no longer than the scope. It holds exactly the scope's items that are labor, selected and hourly. |
| MarketIntelligence.CalculateConfidenceScore | src/data/v2/marketIntelligence.ts:55-90 | The result equals the specification `ConfidenceOf`: no benchmark gives 100/High; otherwise the rounded score, the tier of the unrounded score, and the tier's message for above or below the market. |
| MarketIntelligence.ScoreInRange | src/data/v2/marketIntelligence.ts:67-89 | Against a positive market rate, the score lies in [0, 100]. |
| MarketIntelligence.RawScoreInRange | src/data/v2/marketIntelligence.ts:67-72 | The unrounded score max(0, 100 − deviation %) lies in [0, 100]. |
| MarketIntelligence.NothingToBenchmark | src/data/v2/marketIntelligence.ts:61-62 | With no benchmark item, the result is 100, High, "No labor items to benchmark.". That message appears only in this case. |
| MarketIntelligence.AlignedRates | src/data/v2/marketIntelligence.ts:67-76 | A mean rate equal to the market rate gives 100, High and the "align" message. |
| MarketIntelligence.StatusTiers | src/data/v2/marketIntelligence.ts:74-87 | The status follows the unrounded score: Low below 50, Medium below 80, High otherwise. The "above" wording appears exactly when the status is not High and the mean rate is strictly above the market's, so a tie reads as "below". |
| MarketIntelligence.RoundedScoreCanCrossTier | src/data/v2/marketIntelligence.ts:72-89 | Rounding comes after the tier is chosen. A single rate of 12040 against the fallback rate of 10000 gives score 80 with status Medium and "slightly high". |
| MarketIntelligence.BenchmarkAppend | src/data/v2/marketIntelligence.ts:61 | The benchmark filter distributes over concatenation. |
| MarketIntelligence.BenchmarkIdempotent | src/data/v2/marketIntelligence.ts:61 | Filtering the benchmark items again changes nothing. |
| MarketIntelligence.ConfidenceReadsOnlyBenchmark | src/data/v2/marketIntelligence.ts:61-89 | The confidence depends only on the benchmark items. Adding a non-benchmark item changes nothing. |
| MarketIntelligence.SameBenchmarkSameConfidence | src/data/v2/marketIntelligence.ts:61-89 | Two scopes with the same benchmark items get the same confidence. |
| MarketIntelligence.ToLower | src/data/v2/marketIntelligence.ts:110 | Lower-casing keeps the length and leaves no letter A-Z. Each upper-case letter becomes a lower-case one, and every other character stays in place. |
| MarketIntelligence.TimelineCaseIgnored | src/data/v2/marketIntelligence.ts:103-117 | Two timelines that differ only in the case of their letters give the same risks, so "day" is matched whatever its case. |
| MarketIntelligence.UpperCaseTimeline | src/data/v2/marketIntelligence.ts:110-117 | "5 DAYS" and "5 Days" both count as tight for a scope of more than five items. |
| MarketIntelligence.AnalyzeRisk | src/data/v2/marketIntelligence.ts:99-131 | The result equals the specification `Risks`: at most one timeline risk, then the assumptions risk when there are no assumptions. |
| MarketIntelligence.RisksAreFewAndDistinct | src/data/v2/marketIntelligence.ts:99-131 | The result has at most two risks, and their ids are distinct. |
| MarketIntelligence.EmptyTimelineRisk | src/data/v2/marketIntelligence.ts:103-109 | An empty timeline always gives a first, critical no-timeline risk, and then no tight-timeline risk. |
| MarketIntelligence.TightTimelineRule | src/data/v2/marketIntelligence.ts:110-117 | A tight-timeline risk appears exactly when three things hold: the timeline is non-empty, its lower-cased text contains "day", and the scope has more than five items, selected or not. |
| MarketIntelligence.NoAssumptionsRule | src/data/v2/marketIntelligence.ts:120-128 | A no-assumptions risk appears exactly when no assumption is listed, and it is then the last risk. |
| MarketIntelligence.TightTimelineExample | src/data/v2/marketIntelligence.ts:103-130 | A six-item scope due in "5 Days" with no assumptions gets the tight-timeline and the no-assumptions warnings, in that order. |
| GigScopeContext.RemoveById | src/context/GigScopeContext.tsx:131-133 | Removal keeps exactly the items whose id differs, and the list never grows. |
| GigScopeContext.UpdateById | src/context/GigScopeContext.tsx:135-137 | An update keeps the length of the list. |
| GigScopeContext.PatchLaws | src/context/GigScopeContext.tsx:136 | Spreading the same update twice is spreading it once. The empty update changes nothing. |
| GigScopeContext.RemoveAppend | src/context/GigScopeContext.tsx:132 | Removal distributes over concatenation, so it keeps the surviving items in their order. |
| GigScopeContext.RemoveAbsent | src/context/GigScopeContext.tsx:132 | Removing an id that no item has changes nothing. Afterwards no item has the id. |
| GigScopeContext.RemoveIdempotent | src/context/GigScopeContext.tsx:131-133 | Removing the same id twice is removing it once. |
| GigScopeContext.AddThenRemove | src/context/GigScopeContext.tsx:127-133 | Adding an item with a new id and then removing that id gives back the original list. |
| GigScopeContext.UpdatePointwise | src/context/GigScopeContext.tsx:135-137 | Items with another id are unchanged and keep their place. Matching items take exactly the fields present in the update. |
| GigScopeContext.UpdateLaws | src/context/GigScopeContext.tsx:135-137 | An update that keeps the id is idempotent. An update for an id that no item has, or an empty update, changes nothing. |
| GigScopeContext.UpdateThenRemove | src/context/GigScopeContext.tsx:131-137 | Updating an id without changing it and then removing it is the same as removing it directly. |
| GigScopeContext.MarketKey | src/context/GigScopeContext.tsx:118 | The lookup key is the selected industry's id when there is one and it is non-empty, and web-dev otherwise. The key is never empty. |
| GigScopeContext.GigScopeStore.constructor | src/context/GigScopeContext.tsx:85-106 | The initial state has nothing selected, an empty scope and empty details, margin 20 in NGN with no tax, and the standard variant active. |
| GigScopeContext.GigScopeStore.SetSelectedIndustry | src/context/GigScopeContext.tsx:108-113 | A newly selected industry replaces the scope with its default items. Clearing the selection, or selecting the same industry again, keeps the scope. Nothing else changes. |
| GigScopeContext.GigScopeStore.SetScopeItems | src/context/GigScopeContext.tsx:86 | The scope is replaced and nothing else changes. |
| GigScopeContext.GigScopeStore.AddScopeItem | src/context/GigScopeContext.tsx:127-129 | The item is appended at the end and nothing else changes. |
| GigScopeContext.GigScopeStore.RemoveScopeItem | src/context/GigScopeContext.tsx:131-133 | The scope becomes `RemoveById` of the old scope and nothing else changes. |
| GigScopeContext.GigScopeStore.UpdateScopeItem | src/context/GigScopeContext.tsx:135-137 | The scope becomes `UpdateById` of the old scope and nothing else changes. |
| GigScopeContext.GigScopeStore.SetScopeDetails | src/context/GigScopeContext.tsx:87-91 | The details are replaced and nothing else changes. |
| GigScopeContext.GigScopeStore.SetSettings | src/context/GigScopeContext.tsx:92-96 | The settings are replaced and nothing else changes. |
| GigScopeContext.GigScopeStore.SetActiveVariantId | src/context/GigScopeContext.tsx:106 | The active variant is replaced and nothing else changes. |
| GigScopeContext.GigScopeStore.Derive | src/context/GigScopeContext.tsx:115-124 | The render figures all come from the same state. The quote is computed at the settings' margin. The market record is looked up by `MarketKey`. The confidence is computed against that record, with a score in [0, 100]. The risks come from the details and the scope. The standard variant holds the scope itself and exactly the dashboard quote. |
| GigScopeContext.InitialRisks | src/context/GigScopeContext.tsx:87-122 | The initial details give exactly [no-timeline, no-assumptions]. |
| GigScopeContext.InitialConfidence | src/context/GigScopeContext.tsx:85-120 | Initially the market record is web-dev's. With nothing to benchmark, the confidence is 100, High. |

## Left out

- Rendering, styling, context plumbing and hooks. React's scheduling is also left out: the industry-load effect is folded into `SetSelectedIndustry`.
- `formatPrice` and `toLocaleString`: locale formatting.
- `clientInfo` and `setClientInfo`: they feed only the client form and its network submits, which are I/O.
- The industry icon: it is a UI component.
- The functional-updater form of `setScopeItems`: the store replaces the list directly.
- IEEE-754 arithmetic: NaN, infinities and the rounding of the factors 0.8, 1.2, 0.15 and `/ 100`. The model computes on exact reals.
- Keys of `Object.prototype` such as "constructor". Looked up in the market table, they return an inherited, truthy value, not a record. The model treats them as unknown ids.
- Lower-casing beyond ASCII: `ToLower` changes only A-Z, while `toLowerCase` follows Unicode.
- `SetSelectedIndustry`: React re-runs the effect when the industry object's identity changes. The model compares industries by value, so re-selecting an equal industry does not reload its defaults.
- `ConfidenceOf` and `CalculateConfidenceScore` require a non-zero market rate. With zero the source divides by zero and yields NaN or Infinity. Every record `GetMarketData` returns has a positive rate.
- `ScoreInRange` requires a positive market rate. A negative rate, which the table never holds, could make the score exceed 100.
- `ConservativeNoDearer` requires whole labor hours. A labor/hourly quantity strictly between 0 and 1 is raised to 1 by the conservative floor, so that item can cost more than in the standard variant.
