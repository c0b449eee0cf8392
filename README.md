# gmx-stats dashboard data reshaping, in Dafny

The gmx-stats dashboards (`src/Bsc.js` and `src/Arbitrum.js`) fetch time series
from REST and indexing endpoints and reshape them for charts. This project
models that reshaping and proves what each step promises. Amounts are exact
`real`s standing in for JavaScript numbers. Timestamps are whole seconds.

- `js.dfy` (`Js`): JavaScript values as the transforms use them. `None`
  stands for an absent field (`undefined` or `null`). A present falsy number such
  as `0` is `Some(0.0)`. `Num` is a division result: `Finite`,
  or `NonFinite` for the NaN/Infinity that dividing by zero gives. An object
  is its entry sequence (`Object.entries`, insertion order). `Sum` is the
  left fold `reduce((memo, v) => memo + v, 0)`.
- `resolution.dfy` (`Resolution`): `period` (hourly for ranges up to three
  days, daily otherwise), `today` (the current UTC day start) and flooring
  a timestamp to its hour.
- `bsc_series.dfy` (`BscSeries`): the users, fees, swap-sources, volume,
  pool-amounts, USDG-supply and volume-by-hour transforms. Each maps records
  to points one to one, in raw mode or percentage mode. `Normalize` is the
  per-record core shared by fees, swap sources, volume and pool amounts.
- `bsc_stats.dfy` (`BscStats`): `feesStats` and `volumeStats`. `today` is
  the last record's total. `last7days` sums the totals of the last
  `min(7, n)` records.
- `arbitrum_liquidity.dfy` (`ArbitrumLiquidity`): the hourly bucket merge of
  the liquidity samples. `AddLiquiditiesChartData` runs the fold in place on
  an array, overwriting the last bucket or appending one. It is proved equal
  to the fold `MergeHourly`. Lemmas then give the properties of
  `MergeHourly`, including its equality with an independent description,
  `LastOfRuns`: a sample survives exactly when the next sample falls in a
  different hour.

Two behaviours of the code are worth knowing:

- The bucket merge compares each sample only with the last bucket so far,
  so it merges consecutive samples of the same hour and nothing else. When
  the samples are ordered by timestamp, as the query requests them, the
  bucket timestamps strictly increase (`OrderedSamplesGiveIncreasingBuckets`).
  Ordering is enough for that but is not needed for it. Unordered samples
  can give two buckets with the same hour (`UnorderedSamplesStaySeparate`).
- `feesStats` reads `.metrics` with no default, and `Object.values(undefined)`
  throws a TypeError. `FeesStats` models that throw. `RenderFees` proves it
  cannot happen during a render: the fees chart memo runs first and writes
  `{}` into every record without `metrics`.

## Model

| member | source | states |
|---|---|---|
| Resolution.Period | src/Bsc.js:85 | the period is 3600 exactly when `toTs - fromTs` is at most three days, and 86400 exactly when it is longer |
| Resolution.HourStart | src/Arbitrum.js:143 | the floored timestamp is a multiple of 3600 at most one hour below the sample's, and not above it |
| Resolution.HourStartUnique | src/Arbitrum.js:143 | no other multiple of 3600 lies within the hour below a timestamp, so flooring is fully determined |
| Resolution.HourStartMonotone | src/Arbitrum.js:143 | flooring to the hour keeps the order of timestamps |
| Resolution.Today | src/Bsc.js:86 | `today` is a multiple of 86400 whose millisecond instant is at or before now, less than a day before it |
| Resolution.TodayIsLatestDayStart | src/Arbitrum.js:118 | `today` is not later than the current second, and every day start that is not later is at most `today` |
| Js.Div | src/Arbitrum.js:142 | a quotient is finite exactly when the divisor is not zero, and then times the divisor gives the dividend |
| Js.Percent | src/Bsc.js:114 | `value / allValue * 100` is finite exactly when the total is not zero, and then times the total is `value * 100` |
| Js.TotalBounds | src/Bsc.js:111 | the total of an empty object is 0, and a total of non-negative amounts is non-negative and at least each amount |
| BscSeries.Categories | src/Bsc.js:113-116 | one category per metric under the same key and in the same order; raw mode keeps the amount, percentage mode gives a share that is finite exactly when `allValue` is not 0 and then times `allValue` is the amount times 100 |
| BscSeries.RawCategoriesSum | src/Bsc.js:111-117 | in raw mode the category values of a record add up to its `allValue` |
| BscSeries.PercentCategoriesSum | src/Bsc.js:113-117 | in percentage mode the shares add up to `Total / allValue * 100` |
| BscSeries.Normalize | src/Bsc.js:139-148 | categories keep the metric keys and order; raw values pass through and `all` is their sum; in percentage mode `all` is 100, each value is its share, and the shares sum to 100 unless the total is 0, where every share is non-finite |
| BscSeries.FeesChartData | src/Bsc.js:108-121 | one point per record in the same order, `date` is `timestamp * 1000`, and the values are the record's metrics (missing ones as `{}`) normalized |
| BscSeries.SwapSourcesChartData | src/Bsc.js:136-152 | the same one-to-one, order-keeping transform as the fees chart |
| BscSeries.DefaultMetrics | src/Bsc.js:110 | the write that replaces missing metrics with `{}` keeps timestamps and present metrics and leaves every record with metrics |
| BscSeries.FeesChartDataDefaulting | src/Bsc.js:110-117 | a record without metrics gives a point with no categories and `all` 0 in raw mode, and the defaulting write does not change the chart |
| BscSeries.VolumeChartData | src/Bsc.js:210-229 | one point per record in order; a record without metrics gives a point with only its timestamp and no `all`, any other its normalized metrics |
| BscSeries.UsersPointOf | src/Bsc.js:94-104 | raw mode passes margin and swap through, missing or not, with `all = margin + swap` (missing as 0); percentage mode gives `all` 100 and each of margin and swap as its share of `allValue` in percent, a missing one counting as 0 both in the share and in `allValue`, so the two shares sum to 100, or are non-finite for a zero total |
| BscSeries.UsersChartData | src/Bsc.js:93-105 | one users point per record, in the same order |
| BscSeries.TokenAmounts | src/Bsc.js:162 | the pool entries have exactly the keys BTC, BNB, USDT, USDC, ETH and BUSD, in that order |
| BscSeries.PoolTotal | src/Bsc.js:163-165 | `allValueUsd` is the sum of the six token values |
| BscSeries.PoolAmountsChartData | src/Bsc.js:156-189 | no pool stats gives no points; otherwise one point per record with exactly the six token keys, whose raw-mode `all` is the pool's value |
| BscSeries.UsdgSupplyChartData | src/Bsc.js:191-207 | absent without pool stats; otherwise one point per record with the supply as value and a price that is finite exactly when the supply is not zero, then price times supply is the pool's value |
| BscSeries.VolumeByHourChartData | src/Bsc.js:244-252 | one row per record in order, rows sharing an hour are not merged, and each value is the record's total with missing metrics as empty |
| BscStats.LastSeven | src/Bsc.js:129 | `slice(-7)` has `min(7, n)` elements and is the tail of the sequence |
| BscStats.Summarize | src/Bsc.js:127-132 | absent exactly for no totals; otherwise `today` is the last total and `last7days` the whole total less that of the records before the last seven |
| BscStats.Last7DaysWindow | src/Bsc.js:129-131 | `last7days` is the whole total less that of the records before the last seven, so it is the whole total for at most seven records |
| BscStats.SummaryBounds | src/Bsc.js:127-132 | with non-negative totals, `0 <= today <= last7days <= ` the whole total |
| BscStats.UniformSummary | src/Bsc.js:127-132 | ten records of total 100 give `today` 100 and `last7days` 700 |
| BscStats.Totals | src/Bsc.js:234 | one total per record, missing metrics counting as empty |
| BscStats.VolumeStats | src/Bsc.js:230-241 | absent exactly for no records; otherwise `today` is the last record's total and `last7days` the sum of the totals of the last `min(7, n)` records |
| BscStats.StrictSum | src/Bsc.js:129-131 | the sum without a default succeeds exactly when every record has metrics, and then equals the sum of the totals |
| BscStats.FeesStats | src/Bsc.js:122-133 | no stats exactly for no records; a TypeError exactly when one of the last `min(7, n)` records lacks metrics; otherwise the same summary as with metrics defaulted |
| BscStats.RenderFees | src/Bsc.js:108-133 | after the fees chart has defaulted the records, `feesStats` never throws, is absent exactly for no records, and otherwise agrees with the defaulting summary |
| ArbitrumLiquidity.ToBucket | src/Arbitrum.js:140-150 | a bucket carries the sample's amounts at the start of its hour, with a price that is finite exactly when `glpSupply` is not zero and then equals `aum / glpSupply` |
| ArbitrumLiquidity.AddLiquiditiesChartData | src/Arbitrum.js:132-159 | missing data gives no buckets; otherwise the in-place array loop yields exactly the fold over the samples |
| ArbitrumLiquidity.Step | src/Arbitrum.js:138-157 | one step grows the list by at most one, keeps every bucket before the last, and leaves the last bucket exactly the new sample's (last wins, no aggregation); it replaces exactly when the last bucket has the sample's hour |
| ArbitrumLiquidity.MergeHourly | src/Arbitrum.js:137-158 | there are at most as many buckets as samples, none exactly for no samples, and the last bucket is the last sample's |
| ArbitrumLiquidity.BucketsComeFromSamples | src/Arbitrum.js:143-150 | every bucket is the bucket of some input sample |
| ArbitrumLiquidity.BucketsAreHourlyPrices | src/Arbitrum.js:140-149 | every bucket starts on an hour, and its price is `aum / glpSupply`, finite exactly when the supply is not zero |
| ArbitrumLiquidity.AdjacentBucketsDiffer | src/Arbitrum.js:138-156 | adjacent buckets never share a timestamp |
| ArbitrumLiquidity.MergeHourlyKeepsEarlierBuckets | src/Arbitrum.js:152-156 | adding a sample keeps every earlier bucket except possibly the last one |
| ArbitrumLiquidity.OrderedSamplesGiveIncreasingBuckets | src/Arbitrum.js:125-156 | samples ordered by timestamp give strictly increasing bucket timestamps, none after the last sample's hour |
| ArbitrumLiquidity.MergeHourlyCons | src/Arbitrum.js:137-158 | seen from the front, a first sample is dropped exactly when the next one is in the same hour, and otherwise heads the output |
| ArbitrumLiquidity.MergeHourlyIsLastOfRuns | src/Arbitrum.js:137-158 | the fold equals the independent description: the buckets of the samples that end a run of same-hour samples |
| ArbitrumLiquidity.LastSampleWinsExample | src/Arbitrum.js:152-153 | samples at 3601 (aum 1) and 3650 (aum 5, supply 2) give one bucket at 3600 with aum 5 and price 2.5 |
| ArbitrumLiquidity.UnorderedSamplesStaySeparate | src/Arbitrum.js:152-156 | samples in hours 0, 2 and then 0 again give three buckets: only consecutive samples merge |

## Left out

- React rendering, JSX, hooks and memoisation: only the memo bodies are modelled, as functions. Recomputation is pure, so running a transform twice gives the same result by construction.
- Data fetching (`useRequest`, `urlWithParams`, `useGambitPoolStats`, the Apollo client behind `useGraph`): network I/O. The fetched data are parameters.
- The conversion `Number(x) / 1e18` of the indexer's fixed-point strings: `aum` and `glpSupply` are given as reals.
- IEEE doubles: amounts are exact reals. Rounding is not modelled, and NaN, +Infinity and -Infinity are collapsed into one `NonFinite` value.
- `Date` objects, `Date.now()` and the module-level `NOW`: `date` is the integer `timestamp * 1000`, and now is a parameter in milliseconds. The parsing of `from` and `to` into seconds is not modelled, and whole seconds are assumed.
- Formatting helpers (`formatUsdValue`, `formatNumberValue`, `tooltipFormatter`, `Intl.NumberFormat`, the strftime label formatters): string formatting of floats.
- The unused placeholder `data` constant.
- A `metrics` field holding a falsy value that is not an object (`0`, `""`, `false`): `metrics` is either absent or an entry sequence. For such a value `Object.values` returns `[]` rather than throwing, so `feesStats` would not throw, and `metrics || {}` would replace it with `{}`.
- The `!feesData` and `!volumeData` checks: the request hook always yields an array, so data are sequences and never null.
- A pool stats record without one of the six token fields: the datatype has all six, so the NaN that `item[symbol]` would bring is not modelled.
- A metric key named `all`, `date` or `timestamp`: the spread in the source lets the later field win, while the model keeps categories apart from those fields. An entry sequence stands for an object only when its keys are distinct, as JavaScript keys are.
- The mutation of the fetched records by `item.metrics = item.metrics || {}` is modelled as the function `DefaultMetrics` applied before `feesStats`, not as an update in place. Swap-source records are mutated the same way, but nothing reads them afterwards.
