# StrataQuant market analytics, modelled in Dafny

This project models the computational core of the StrataQuant market-analytics dashboard:

- **The analytics pipeline of `src/lib/marketData.ts`.** It takes an ordered series of index prices and produces index-aligned derived series:
  - daily returns;
  - trailing-window statistics (rolling volatility, moving averages, rolling mean);
  - running-peak drawdowns;
  - a composite 0–100 stress index;
  - a Stable / Volatile / Crisis regime label.

  It also builds a 12-bucket return histogram, the period aggregates of `MARKET_SUMMARY.sensex`, and the tail slice of rows that the pages chart.
- **The small decision and state logic of four dashboard pages:**
  - the Analytics Assistant's first-match keyword lookup and its chat transcript;
  - the Trend Analysis page's trend classifier;
  - the Market Stress Index page's stress levels and headline figures;
  - the Regime Detection page's regime counts and its regime ↔ chart-height mapping.

Numbers are Dafny `real`, so arithmetic is exact. Prices are assumed positive (`AllPositive`). The original has no error path for non-positive prices: a zero price gives Infinity or NaN, and a negative price gives finite but meaningless numbers.

Modules, one per source file:

| file | module | models |
|---|---|---|
| `seqmath.dfy` | `SeqMath` | sums, means, min/max, positive filter, population variance; shared helpers |
| `market_data.dfy` | `MarketData` | `src/lib/marketData.ts` |
| `analytics_assistant.dfy` | `AnalyticsAssistant` | `src/components/dashboard/AnalyticsAssistant.tsx` |
| `trend_analysis.dfy` | `TrendAnalysis` | `src/components/dashboard/TrendAnalysis.tsx` |
| `market_stress_index.dfy` | `MarketStressIndex` | `src/components/dashboard/MarketStressIndex.tsx` |
| `regime_detection.dfy` | `RegimeDetection` | `src/components/dashboard/RegimeDetection.tsx` |

The model keeps the source's own form:

- **Loops become methods proved against a specification function.** The loops of `marketData.ts` (`calculateReturns`, the three windowed statistics, `calculateDrawdowns` with its mutable peak, and `generateReturnHistogram` with its bucket dictionary) are `method`s with `while` loops. Each is proved equal to a specification function (`Returns`, `Windowed`, `Drawdowns`, `Histogram`), and the lemmas are stated about those functions.
- **`map`/`filter`/`reduce` expressions become functions.** `calculateStressIndex`, `detectRegimes` and `getChartData` are functions.
- **The chat state becomes a class.** The Analytics Assistant's React state is the class `AssistantChat`, with fields `messages` and `input`.

Behaviour worth noting:

- **Drawdowns of an empty series** are an empty series (src/lib/marketData.ts:64-73). The initial `prices[0]` is `undefined` there, but it is never used, because the loop does not run.
- **Every stress value gets a label**, including values outside [0, 100] (src/lib/marketData.ts:134-140).
- **Average volatility keeps only entries `> 0`** (src/lib/marketData.ts:158), so it drops the warm-up placeholders and also a computed volatility of exactly 0 (see `MarketData.FlatWindowLooksLikeWarmUp`).

## Model

| member | source | states |
|---|---|---|
| MarketData.Returns | src/lib/marketData.ts:33-40 | the return series has the prices' length (1 for no prices), is 0 on day 0, and on day i ≥ 1 is the percentage change from day i-1 |
| MarketData.CalculateReturns | src/lib/marketData.ts:33-40 | the push loop computes exactly `Returns(prices)` |
| MarketData.CompoundInvertsReturns | src/lib/marketData.ts:33-40 | compounding the returns after day 0 from the first price gives back the whole price series (returns lose no information) |
| MarketData.GrowthFactor | src/lib/marketData.ts:36 | one day's return r satisfies 1 + r/100 = cur/prev, so it carries the previous price to the current one |
| MarketData.GrowthOfReturns | src/lib/marketData.ts:33-40 | the product of all daily growth factors is last price / first price |
| MarketData.Windowed | src/lib/marketData.ts:96-107 | a trailing-window series keeps the input's length, is 0 on the first window-1 days (so it is all 0 when the window exceeds the data), and holds the statistic of `data[i-window+1..i]` from then on |
| MarketData.WindowedStep | src/lib/marketData.ts:98-104 | one more input day appends exactly one entry and leaves every earlier entry unchanged |
| MarketData.CalculateRollingMean | src/lib/marketData.ts:96-107 | the loop computes the trailing mean series `Windowed(data, window, Mean)` |
| MarketData.CalculateMA | src/lib/marketData.ts:78-89 | the moving average of prices is the same trailing mean series |
| MarketData.CalculateRollingVariance | src/lib/marketData.ts:46-59 | the loop computes the population variance (divided by window) of each trailing window, after the warm-up zeros |
| MarketData.RollingMeanWithinWindow | src/lib/marketData.ts:102 | each rolling mean lies between the minimum and maximum of its window |
| MarketData.RollingMeanOfWindowOne | src/lib/marketData.ts:96-107 | a one-day window reproduces its input |
| MarketData.RollingVarianceNonNegative | src/lib/marketData.ts:54 | every rolling variance is ≥ 0 |
| MarketData.FlatWindowLooksLikeWarmUp | src/lib/marketData.ts:49-55 | a window of identical returns gives volatility exactly 0, the same value as a warm-up placeholder |
| MarketData.Peak | src/lib/marketData.ts:66-68 | the running peak is positive and at least the day's price |
| MarketData.PeakIsRunningMaximum | src/lib/marketData.ts:66-68 | the running peak on day i is the maximum of prices 0..i, and it is attained by one of them |
| MarketData.PeakNonDecreasing | src/lib/marketData.ts:68 | the running peak never decreases |
| MarketData.DrawdownRange | src/lib/marketData.ts:69 | for 0 < price ≤ peak the drawdown lies in (-100, 0] and is 0 iff price equals peak |
| MarketData.Drawdowns | src/lib/marketData.ts:64-73 | the drawdown series keeps the prices' length, and entry i is the percentage distance of price i below the running peak |
| MarketData.CalculateDrawdowns | src/lib/marketData.ts:64-73 | the loop with its mutable peak computes exactly `Drawdowns(prices)`, and an empty input gives an empty output |
| MarketData.DrawdownAtPeak | src/lib/marketData.ts:64-73 | every drawdown lies in (-100, 0], and it is 0 iff the day's price is at least every earlier price |
| MarketData.RisingPricesNoDrawdown | src/lib/marketData.ts:64-73 | prices that never fall have an all-zero drawdown series |
| MarketData.PipelineScenario | src/lib/marketData.ts:33-107 | prices 100, 110, 99, 99 give returns 0, 10, -10, 0, drawdowns 0, 0, -10, -10, and two-day rolling means 0, 5, 0, -5 |
| MarketData.MaxPositive | src/lib/marketData.ts:117 | bounds every positive volatility from above, and is itself a positive entry whenever one exists |
| MarketData.VolatilityScore | src/lib/marketData.ts:121 | the volatility share lies in [0, 40] and is 0 iff vol ≤ 0 (so the guard is never bypassed to divide) |
| MarketData.DrawdownScore | src/lib/marketData.ts:122 | the drawdown share lies in [0, 40] and is 0 iff dd ≥ 0 |
| MarketData.MomentumScore | src/lib/marketData.ts:123 | the momentum share lies in [0, 10] or is exactly 20, and is 20 iff the absolute move exceeds 2 |
| MarketData.StressValue | src/lib/marketData.ts:124 | a day's stress lies in [0, 100] |
| MarketData.ClampNeverBinds | src/lib/marketData.ts:124 | the weights 40/40/20 sum to 100, so the `min(100, …)` cap never changes a score |
| MarketData.MinDrawdown | src/lib/marketData.ts:118 | the normaliser is at most every drawdown |
| MarketData.StressIndex | src/lib/marketData.ts:112-127 | the stress series has volatility's length and every value in [0, 100]; with vol ≤ 0 and dd ≥ 0 only the momentum term remains |
| MarketData.RisingPricesStress | src/lib/marketData.ts:120-126 | for prices that never fall, the drawdown term is always 0 |
| MarketData.StressLooksAhead | src/lib/marketData.ts:117-121 | the whole-series maximum makes a day's score depend on later days: appending a more volatile day halves day 0's volatility share from 40 to 20 |
| MarketData.ClassifyStress | src/lib/marketData.ts:135-139 | below 30 is Stable, [30, 60) is Volatile, 60 and above is Crisis, with no gaps or overlaps |
| MarketData.DetectRegimes | src/lib/marketData.ts:134-140 | the label series keeps the stress series' length and labels each day by its own stress |
| MarketData.RegimeMonotone | src/lib/marketData.ts:134-140 | a higher stress never gets a calmer label |
| MarketData.RangesDistinct | src/lib/marketData.ts:180 | the 12 bucket labels are pairwise distinct (so the dictionary holds 12 counters) |
| MarketData.BucketIndex | src/lib/marketData.ts:184-195 | every return picks one of the 12 buckets |
| MarketData.BucketPartition | src/lib/marketData.ts:184-195 | the 12 intervals partition the real line, using `<=` below zero and `<` from zero up, and a return lies in interval k iff it is counted in bucket k |
| MarketData.BucketBoundaries | src/lib/marketData.ts:184-190 | -1 counts in "-1 to -2", 0 in "0 to 1", -5 in "-5+" and 5 in "5+" |
| MarketData.Histogram | src/lib/marketData.ts:198 | the histogram has 12 entries, labelled in the fixed `ranges` order |
| MarketData.GenerateReturnHistogram | src/lib/marketData.ts:178-199 | the dictionary-incrementing loops compute exactly `Histogram(dailyReturns)` |
| MarketData.HistogramTotal | src/lib/marketData.ts:178-199 | the 12 counts sum to the number of returns |
| MarketData.CountInConcat | src/lib/marketData.ts:183-196 | a bucket's count over two stretches of returns is the sum of their counts |
| MarketData.CountInPermutation | src/lib/marketData.ts:183-196 | a bucket's count depends only on the multiset of returns |
| MarketData.HistogramIgnoresOrder | src/lib/marketData.ts:183-198 | reordering the returns leaves the histogram unchanged |
| MarketData.TotalReturnCompounds | src/lib/marketData.ts:157 | 1 + totalReturn/100 equals the product of all daily growth factors |
| MarketData.AverageVolatility | src/lib/marketData.ts:158 | the average is absent iff no volatility is positive; when present it lies in (0, largest positive volatility] |
| MarketData.NonPositiveEntriesIgnored | src/lib/marketData.ts:158 | adding non-positive entries, such as warm-up zeros, before or after leaves the average volatility unchanged |
| MarketData.AverageReturn | src/lib/marketData.ts:160 | the average return lies between the smallest and largest return |
| MarketData.AverageReturnCountsDayZero | src/lib/marketData.ts:160 | day 0's placeholder counts in the denominator: the average is the sum of the real returns divided by the number of prices |
| MarketData.MaxDrawdownRange | src/lib/marketData.ts:159 | the maximum drawdown (the minimum entry) of a non-empty price series lies in (-100, 0] |
| MarketData.Summarize | src/lib/marketData.ts:155-163 | on the pipeline's own series the summary's max drawdown lies in (-100, 0], its total return compounds the daily returns, and its average volatility is positive |
| MarketData.GetChartData | src/lib/marketData.ts:204-223 | the rows are the last min(limit, n) days (none when limit ≤ 0), oldest first, row k joining all series at day n-rows+k |
| MarketData.LastRowIsLatestDay | src/lib/marketData.ts:204-223 | with a positive limit, the last row is the latest trading day |
| MarketData.DerivedDayInvariants | src/lib/marketData.ts:61-142 | on the series the module computes, every day has stress in [0, 100], the regime of its own stress, drawdown in (-100, 0] and volatility ≥ 0 |
| MarketData.ChartRowsInvariants | src/lib/marketData.ts:204-223 | rows cut from series whose every day has those four properties have them too, row by row |
| AnalyticsAssistant.LowerIdempotent | src/components/dashboard/AnalyticsAssistant.tsx:32 | lower-casing twice equals lower-casing once |
| AnalyticsAssistant.FirstMatchFrom | src/components/dashboard/AnalyticsAssistant.tsx:34-38 | the match found is the first key, in table order, that occurs in the query; none means no key occurs |
| AnalyticsAssistant.NoKeyGivesDefault | src/components/dashboard/AnalyticsAssistant.tsx:40-41 | when no key occurs in the lower-cased query, the reply is the default text |
| AnalyticsAssistant.FirstKeyWins | src/components/dashboard/AnalyticsAssistant.tsx:34-37 | when key k occurs and no earlier key does, entry k answers |
| AnalyticsAssistant.ResponseIgnoresCase | src/components/dashboard/AnalyticsAssistant.tsx:32 | a query and its lower-cased form get the same reply |
| AnalyticsAssistant.VolatilityComesFirst | src/components/dashboard/AnalyticsAssistant.tsx:11-22 | any query containing "volatility" gets the volatility entry, whatever else it names (such as "regime") |
| AnalyticsAssistant.QuickTopicPrompt | src/components/dashboard/AnalyticsAssistant.tsx:140 | the prompt is 9 characters longer than the topic and carries the lower-cased topic after "What is " |
| AnalyticsAssistant.PromptContainsTopic | src/components/dashboard/AnalyticsAssistant.tsx:140 | the lower-cased prompt contains the lower-cased topic |
| AnalyticsAssistant.QuickTopicResolves | src/components/dashboard/AnalyticsAssistant.tsx:136-140 | each of the 8 quick-topic prompts is answered by that topic's own entry, never by an earlier one or the default |
| AnalyticsAssistant.FindResponse | src/components/dashboard/AnalyticsAssistant.tsx:31-42 | the early-return loop returns exactly the first matching entry's text, or the default text |
| AnalyticsAssistant.ExchangesAppend | src/components/dashboard/AnalyticsAssistant.tsx:56-62 | appending a non-blank user message and its reply keeps the transcript a sequence of whole exchanges |
| AnalyticsAssistant.AssistantChat.constructor | src/components/dashboard/AnalyticsAssistant.tsx:45-51 | the transcript starts as the single welcome message, with an empty input |
| AnalyticsAssistant.AssistantChat.SetInput | src/components/dashboard/AnalyticsAssistant.tsx:115 | typing replaces the input and leaves the transcript alone |
| AnalyticsAssistant.AssistantChat.SelectQuickTopic | src/components/dashboard/AnalyticsAssistant.tsx:140 | a quick-topic button sets the input to its prompt and leaves the transcript alone |
| AnalyticsAssistant.AssistantChat.HandleSend | src/components/dashboard/AnalyticsAssistant.tsx:53-64 | blank input changes nothing; otherwise the transcript grows by exactly the raw user message and its reply, earlier messages untouched, and the input is cleared; the welcome-then-exchanges invariant is kept |
| AnalyticsAssistant.AssistantChat.HandleKeyPress | src/components/dashboard/AnalyticsAssistant.tsx:66-71 | Enter without Shift sends; any other key changes nothing |
| TrendAnalysis.GetTrendDirection | src/components/dashboard/TrendAnalysis.tsx:25-29 | bullish iff price > ma20 > ma50, bearish iff price < ma20 < ma50 |
| TrendAnalysis.NeutralUnlessStrictlyOrdered | src/components/dashboard/TrendAnalysis.tsx:28 | neutral iff the three values are strictly ordered in neither direction |
| TrendAnalysis.TiesAreNeutral | src/components/dashboard/TrendAnalysis.tsx:26-28 | any tie (price = ma20 or ma20 = ma50) reads neutral |
| TrendAnalysis.MirrorSwapsTrend | src/components/dashboard/TrendAnalysis.tsx:25-29 | negating all three values swaps bullish and bearish and keeps neutral |
| TrendAnalysis.Ma20Position | src/components/dashboard/TrendAnalysis.tsx:157 | "Above" iff price > ma20, so a price on the average reads "Below" |
| TrendAnalysis.PercentFromMa20 | src/components/dashboard/TrendAnalysis.tsx:158 | the percentage exists iff ma20 ≠ 0, and then percent × ma20 = (price − ma20) × 100 |
| TrendAnalysis.PercentAgreesWithPosition | src/components/dashboard/TrendAnalysis.tsx:157-158 | over a positive average the percentage is positive iff the label reads "Above", and 0 iff price equals the average |
| TrendAnalysis.TrendAgreesWithPosition | src/components/dashboard/TrendAnalysis.tsx:26-27 | a bullish trend reads "Above" and a bearish one "Below" |
| TrendAnalysis.TrendReportOf | src/components/dashboard/TrendAnalysis.tsx:22-31 | the page's trend, label and percentage are those of the last row |
| TrendAnalysis.TrendPage | src/components/dashboard/TrendAnalysis.tsx:21-22 | for a market series, the page reports on the latest trading day's price and averages |
| TrendAnalysis.Ma20Positive | src/lib/marketData.ts:84 | with 20 days of positive prices, the latest 20-day average is positive |
| TrendAnalysis.LatestPercentDefined | src/components/dashboard/TrendAnalysis.tsx:158 | on the computed averages the page's percentage is always defined and agrees with the label |
| MarketStressIndex.GetStressLevel | src/components/dashboard/MarketStressIndex.tsx:28-32 | below 30 is Low, [30, 60) is Moderate, 60 and above is High, total and exclusive |
| MarketStressIndex.StressLevelMatchesRegime | src/components/dashboard/MarketStressIndex.tsx:28-32 | the level agrees with the pipeline's regime: Low ↔ Stable, Moderate ↔ Volatile, High ↔ Crisis |
| MarketStressIndex.StressLevelMonotone | src/components/dashboard/MarketStressIndex.tsx:28-32 | a higher stress never reads as a lower level |
| MarketStressIndex.CurrentStress | src/components/dashboard/MarketStressIndex.tsx:23 | the last row's stress, or 0 without rows |
| MarketStressIndex.AverageStress | src/components/dashboard/MarketStressIndex.tsx:24 | the average exists iff there are rows |
| MarketStressIndex.MaxStress | src/components/dashboard/MarketStressIndex.tsx:25 | the maximum exists iff there are rows, bounds every row's stress and is attained |
| MarketStressIndex.AverageAtMostMax | src/components/dashboard/MarketStressIndex.tsx:24-25 | with rows present, average stress ≤ maximum stress |
| MarketStressIndex.HighStressDays | src/components/dashboard/MarketStressIndex.tsx:26 | the count of days above 60 is at most the number of rows |
| MarketStressIndex.HighStressDaysAreHighLevel | src/components/dashboard/MarketStressIndex.tsx:26 | days counted above 60 never exceed the days that read High |
| MarketStressIndex.HighLevelDaysSplit | src/components/dashboard/MarketStressIndex.tsx:26 | High days are exactly the days above 60 plus the days at exactly 60 |
| MarketStressIndex.SixtyIsHighButNotCounted | src/components/dashboard/MarketStressIndex.tsx:26 | a day at exactly 60 reads High but is not counted as a high-stress day |
| MarketStressIndex.Advice | src/components/dashboard/MarketStressIndex.tsx:175-179 | each of the three advice sentences appears iff the current level is Low, Moderate or High respectively |
| MarketStressIndex.StressPageOf | src/components/dashboard/MarketStressIndex.tsx:21-34 | the displayed level and advice are those of the current stress, and the high-stress day count is at most the number of rows |
| MarketStressIndex.PageFiguresBounded | src/components/dashboard/MarketStressIndex.tsx:23-25 | when every row's stress lies in [0, 100], so do the current, average and maximum figures |
| MarketStressIndex.PageReadsLatestDay | src/components/dashboard/MarketStressIndex.tsx:21-23 | the current reading is the latest trading day's stress |
| MarketStressIndex.DerivedPageBounded | src/components/dashboard/MarketStressIndex.tsx:21-25 | over the pipeline's computed series every figure of the page lies in [0, 100] |
| RegimeDetection.CountRegime | src/components/dashboard/RegimeDetection.tsx:23-25 | a regime's day count is at most the number of rows |
| RegimeDetection.RegimeCountsOf | src/components/dashboard/RegimeDetection.tsx:22-28 | the Stable, Volatile and Crisis counts sum to totalDays |
| RegimeDetection.CountsPartitionRows | src/components/dashboard/RegimeDetection.tsx:22-28 | every row is counted under exactly one regime |
| RegimeDetection.CountRegimeConcat | src/components/dashboard/RegimeDetection.tsx:23-25 | counts over two stretches of rows add up |
| RegimeDetection.CurrentRegime | src/components/dashboard/RegimeDetection.tsx:29 | the last row's regime, or Stable without rows |
| RegimeDetection.RegimeValue | src/components/dashboard/RegimeDetection.tsx:34 | chart heights lie in 1..3 |
| RegimeDetection.RegimeValueInjective | src/components/dashboard/RegimeDetection.tsx:34 | distinct regimes get distinct heights |
| RegimeDetection.TooltipLabel | src/components/dashboard/RegimeDetection.tsx:115-118 | "Stable" exactly for height 1, "Volatile" exactly for 2, and "Crisis" exactly for every other height |
| RegimeDetection.TickLabel | src/components/dashboard/RegimeDetection.tsx:104-106 | heights other than 1, 2 and 3 get an empty tick label |
| RegimeDetection.LabelsInvertRegimeValue | src/components/dashboard/RegimeDetection.tsx:104-118 | the tooltip and the axis both read each regime's height back as that regime's name |
| RegimeDetection.RegimeTimeline | src/components/dashboard/RegimeDetection.tsx:32-35 | the timeline keeps one height per row, and each height's tooltip names that row's regime |
| RegimeDetection.RegimeValueMonotone | src/components/dashboard/RegimeDetection.tsx:32-35 | composed with the stress labelling, the chart height never falls as stress rises |
| RegimeDetection.Outlook | src/components/dashboard/RegimeDetection.tsx:181-183 | the text is "generally favorable market conditions" iff Stable > Volatile + Crisis |
| RegimeDetection.FavorableIffStableMajority | src/components/dashboard/RegimeDetection.tsx:181-183 | favorable iff stable days are a strict majority of totalDays |
| RegimeDetection.StableShare | src/components/dashboard/RegimeDetection.tsx:180 | the stable percentage exists iff there are rows, and lies in [0, 100] |
| RegimeDetection.FavorableMeansShareAboveHalf | src/components/dashboard/RegimeDetection.tsx:180-183 | a favorable outlook goes with a stable share above 50% |
| RegimeDetection.PageReadsLatestDay | src/components/dashboard/RegimeDetection.tsx:19-29 | the current regime is the latest trading day's label |
| RegimeDetection.CurrentRegimeMatchesStressLevel | src/components/dashboard/RegimeDetection.tsx:29 | on pipeline-labelled rows, the current regime and the stress page's current level agree, including Stable/0 for an empty period |

## Left out

- Rounding: `Math.round(x * 10^k) / 10^k` on every series entry and the `toFixed` formatting of the summary and page figures are omitted. The model computes exact reals.
- MarketData.CalculateRollingVariance: stops before `Math.sqrt`, since no square root can be defined without an axiom. The volatility series enters the model through `MarketData.Derived`, as non-negative numbers whose squares are the rolling variances.
- AnalyticsAssistant.Lower: lower-cases ASCII letters only. `toLowerCase` also maps non-ASCII letters. No table key contains a non-ASCII letter.
- Synthetic data generation (`generatePriceData` uses `Math.random`; `generateDates` uses `Date`) and the module-level constants computed at load time. The model works on caller-supplied series (`MarketSeries`), and `Derived` states how the constants are computed from the prices.
- NaN and ±Infinity:
  - empty averages and maxima, the 0/0 percentage, and a zero 20-day average become `None` (`AverageVolatility`, `AverageStress`, `MaxStress`, `StableShare`, `PercentFromMa20`);
  - `MaxPositive` gives 0 where the original gives -Infinity, which is never used because every entry then takes the `vol > 0` guard's zero branch;
  - reals have no NaN, so the `|| 0` of `currentStress` only covers the empty case, and the `|| "Stable"` of `currentRegime` likewise.
- MarketData.AverageReturn: requires at least one return (the original gives NaN on none). The return series is never empty, since it starts as `[0]`.
- MarketData.MaxDrawdown: requires at least one drawdown (the original gives +Infinity on none).
- MarketData.Summarize: its guarantees are stated under the condition that the series passed are those the pipeline computes from the prices. The source computes them once from module constants.
- TrendAnalysis.TrendReportOf: requires at least one row. The page reads a field of `undefined`, and so throws, when the chart data is empty.
- Hard-coded figures with no computation behind them are not modelled: the Sharpe and Calmar ratios, the S&P 500 summary (its `totalReturn` is `TotalReturn` applied to the S&P prices), `INDEX_CORRELATION` and `MARKET_EVENTS`.
- Rendering, layout, colours (the `color` field of the stress level), the date tick formatter, `preventDefault`, React's asynchronous state updates (`HandleSend` is one atomic update) and the chart-only pages.

