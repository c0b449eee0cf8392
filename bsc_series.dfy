/** The chart series of the BSC dashboard (src/Bsc.js): each transform maps the
    records of one REST feed to chart points, one point per record and in the
    same order, in raw mode (amounts as they are) or percentage mode (each
    amount as a share of the record's total). */
module BscSeries {
  import opened Js

  /** A record of `/api/fees`, `/api/swapSources` or `/api/volume`. */
  datatype MetricRecord = MetricRecord(timestamp: int, metrics: Option<Entries>)

  /** The category values of one chart point with its `all` field. */
  datatype Breakdown = Breakdown(categories: seq<(string, Num)>, all: Num)

  /** A point of a chart keyed by `date`, kept as `timestamp * 1000` milliseconds. */
  datatype ChartPoint = ChartPoint(series: Breakdown, date: int)

  /** `value / allValue * 100` in percentage mode, the amount itself in raw mode. */
  function Category(value: real, allValue: real, percentage: bool): Num {
    if percentage then Percent(value, allValue) else Finite(value)
  }

  /** The accumulator `memo[key] = ...` built over `Object.entries(metrics)`:
      one category per metric, under its key and in its order, holding the
      amount in raw mode and its share of `allValue` in percent otherwise. */
  function Categories(metrics: Entries, allValue: real, percentage: bool): (r: seq<(string, Num)>)
    ensures Keys(r) == Keys(metrics)
    ensures !percentage ==> forall i :: 0 <= i < |r| ==> r[i].1 == Finite(metrics[i].1)
    ensures percentage ==> forall i :: 0 <= i < |r| ==> (r[i].1.Finite? <==> allValue != 0.0)
    ensures percentage ==> forall i :: 0 <= i < |r| && r[i].1.Finite? ==> r[i].1.value * allValue == metrics[i].1 * 100.0
  {
    seq(|metrics|, i requires 0 <= i < |metrics| => (metrics[i].0, Category(metrics[i].1, allValue, percentage)))
  }

  lemma CategoriesPrefix(metrics: Entries, allValue: real, percentage: bool, n: nat)
    requires n <= |metrics|
    ensures Categories(metrics[..n], allValue, percentage) == Categories(metrics, allValue, percentage)[..n]
  {
  }

  /** In raw mode the category values add up to the record's total. */
  lemma {:induction false} RawCategoriesSum(metrics: Entries, allValue: real)
    ensures NumSum(Categories(metrics, allValue, false)) == Finite(Total(metrics))
    decreases |metrics|
  {
    if metrics != [] {
      var n := |metrics| - 1;
      CategoriesPrefix(metrics, allValue, false, n);
      ValuesPrefix(metrics, n);
      RawCategoriesSum(metrics[..n], allValue);
    }
  }

  /** In percentage mode the shares add up to the part of the total they cover. */
  lemma {:induction false} PercentCategoriesSum(metrics: Entries, allValue: real)
    requires allValue != 0.0
    ensures NumSum(Categories(metrics, allValue, true)) == Finite(Total(metrics) / allValue * 100.0)
    decreases |metrics|
  {
    if metrics != [] {
      var n := |metrics| - 1;
      CategoriesPrefix(metrics, allValue, true, n);
      ValuesPrefix(metrics, n);
      PercentCategoriesSum(metrics[..n], allValue);
      var s, v := Total(metrics[..n]), metrics[n].1;
      assert Total(metrics) == s + v;
      assert s / allValue * 100.0 + v / allValue * 100.0 == (s + v) / allValue * 100.0;
    }
  }

  /** One record's metrics as chart values: categories under the metric keys
      and `all`, which is the total in raw mode and 100 in percentage mode. */
  function Normalize(metrics: Entries, percentage: bool): (b: Breakdown)
    ensures Keys(b.categories) == Keys(metrics)
    ensures !percentage ==> forall i :: 0 <= i < |metrics| ==> b.categories[i].1 == Finite(metrics[i].1)
    ensures !percentage ==> b.all == Finite(Total(metrics)) == NumSum(b.categories)
    ensures percentage ==> forall i :: 0 <= i < |metrics| ==> b.categories[i].1 == Percent(metrics[i].1, Total(metrics))
    ensures percentage ==> b.all == Finite(100.0)
    ensures percentage && Total(metrics) != 0.0 ==> NumSum(b.categories) == b.all
    ensures percentage && Total(metrics) == 0.0 ==> forall i :: 0 <= i < |metrics| ==> b.categories[i].1 == NonFinite
  {
    var allValue := Total(metrics);
    var categories := Categories(metrics, allValue, percentage);
    assert forall i :: 0 <= i < |metrics| ==> categories[i].1 == Category(metrics[i].1, allValue, percentage);
    if !percentage then
      RawCategoriesSum(metrics, allValue);
      Breakdown(categories, Finite(allValue))
    else
      if allValue != 0.0 then
        PercentCategoriesSum(metrics, allValue);
        assert allValue / allValue * 100.0 == 100.0;
        Breakdown(categories, Finite(100.0))
      else
        Breakdown(categories, Finite(100.0))
  }

  /** The point of a fees or swap-sources record, whose missing `metrics` the
      transform first replaces with `{}`. */
  function DefaultedPoint(item: MetricRecord, percentage: bool): ChartPoint {
    ChartPoint(Normalize(OrEmpty(item.metrics), percentage), item.timestamp * 1000)
  }

  /** `feesChartData` */
  function FeesChartData(data: seq<MetricRecord>, percentage: bool): (r: seq<ChartPoint>)
    ensures |r| == |data|
    ensures forall i :: 0 <= i < |data| ==> r[i].date == data[i].timestamp * 1000
    ensures forall i :: 0 <= i < |data| ==> r[i].series == Normalize(OrEmpty(data[i].metrics), percentage)
  {
    seq(|data|, i requires 0 <= i < |data| => DefaultedPoint(data[i], percentage))
  }

  /** `swapSourcesChartData`: the same per-record transform as the fees chart. */
  function SwapSourcesChartData(data: seq<MetricRecord>, percentage: bool): (r: seq<ChartPoint>)
    ensures |r| == |data|
    ensures forall i :: 0 <= i < |data| ==> r[i].date == data[i].timestamp * 1000
    ensures forall i :: 0 <= i < |data| ==> r[i].series == Normalize(OrEmpty(data[i].metrics), percentage)
  {
    seq(|data|, i requires 0 <= i < |data| => DefaultedPoint(data[i], percentage))
  }

  /** The write `item.metrics = item.metrics || {}` that the fees and
      swap-sources transforms perform on each input record. */
  function DefaultMetrics(data: seq<MetricRecord>): (r: seq<MetricRecord>)
    ensures |r| == |data|
    ensures forall i :: 0 <= i < |data| ==> r[i].timestamp == data[i].timestamp && r[i].metrics.Some?
    ensures forall i :: 0 <= i < |data| ==> OrEmpty(r[i].metrics) == OrEmpty(data[i].metrics)
  {
    seq(|data|, i requires 0 <= i < |data| => MetricRecord(data[i].timestamp, Some(OrEmpty(data[i].metrics))))
  }

  /** A record without `metrics` gives a point with no categories and `all` 0
      in raw mode; the write into the record does not change the chart. */
  lemma FeesChartDataDefaulting(data: seq<MetricRecord>, percentage: bool, i: int)
    requires 0 <= i < |data| && data[i].metrics.None?
    ensures FeesChartData(data, percentage)[i].series.categories == []
    ensures !percentage ==> FeesChartData(data, percentage)[i].series.all == Finite(0.0)
    ensures FeesChartData(DefaultMetrics(data), percentage) == FeesChartData(data, percentage)
  {
    var d := DefaultMetrics(data);
    assert |Keys(FeesChartData(data, percentage)[i].series.categories)| == 0;
    assert Total([]) == 0.0;
    assert forall j :: 0 <= j < |data| ==> FeesChartData(d, percentage)[j] == FeesChartData(data, percentage)[j];
  }

  /** A point of the volume chart: a record without `metrics` keeps only its
      `timestamp` and has no `all`. */
  datatype VolumePoint = TimestampOnly(timestamp: int) | VolumeSeries(series: Breakdown, timestamp: int)

  /** `volumeChartData` */
  function VolumeChartData(data: seq<MetricRecord>, percentage: bool): (r: seq<VolumePoint>)
    ensures |r| == |data|
    ensures forall i :: 0 <= i < |data| ==> r[i].timestamp == data[i].timestamp
    ensures forall i :: 0 <= i < |data| ==> (r[i].TimestampOnly? <==> data[i].metrics.None?)
    ensures forall i :: 0 <= i < |data| && data[i].metrics.Some? ==> r[i].series == Normalize(data[i].metrics.value, percentage)
  {
    seq(|data|, i requires 0 <= i < |data| =>
      match data[i].metrics
      case None => TimestampOnly(data[i].timestamp)
      case Some(metrics) => VolumeSeries(Normalize(metrics, percentage), data[i].timestamp))
  }

  /** A record of `/api/users`; either count may be missing. */
  datatype UsersRecord = UsersRecord(timestamp: int, margin: Option<real>, swap: Option<real>)

  /** A point of the users chart; in raw mode a missing count stays missing. */
  datatype UsersPoint = UsersPoint(margin: Option<Num>, swap: Option<Num>, all: Num, date: int)

  /** The raw-mode value of a count: passed through as it is, missing or not. */
  function PassThrough(x: Option<real>): Option<Num> {
    match x
    case None => None
    case Some(v) => Some(Finite(v))
  }

  /** One users point: `all` is `margin + swap` with a missing count as 0 in raw
      mode and 100 in percentage mode, where the two shares add up to 100
      unless the total is zero. */
  function UsersPointOf(item: UsersRecord, percentage: bool): (p: UsersPoint)
    ensures p.date == item.timestamp * 1000
    ensures !percentage ==> p.margin == PassThrough(item.margin) && p.swap == PassThrough(item.swap)
    ensures !percentage ==> p.all == Finite(OrZero(item.margin) + OrZero(item.swap))
    ensures percentage ==> p.all == Finite(100.0)
    ensures percentage ==> p.margin == Some(Percent(OrZero(item.margin), OrZero(item.margin) + OrZero(item.swap)))
    ensures percentage ==> p.swap == Some(Percent(OrZero(item.swap), OrZero(item.margin) + OrZero(item.swap)))
    ensures percentage && OrZero(item.margin) + OrZero(item.swap) != 0.0 ==>
      p.margin.Some? && p.swap.Some? && Add(p.margin.value, p.swap.value) == p.all
    ensures percentage && OrZero(item.margin) + OrZero(item.swap) == 0.0 ==>
      p.margin == Some(NonFinite) && p.swap == Some(NonFinite)
  {
    var margin, swap := OrZero(item.margin), OrZero(item.swap);
    var allValue := margin + swap;
    if percentage then
      assert allValue != 0.0 ==> margin / allValue * 100.0 + swap / allValue * 100.0 == 100.0;
      UsersPoint(Some(Percent(margin, allValue)), Some(Percent(swap, allValue)), Finite(100.0), item.timestamp * 1000)
    else
      UsersPoint(PassThrough(item.margin), PassThrough(item.swap), Finite(allValue), item.timestamp * 1000)
  }

  /** `usersChartData` */
  function UsersChartData(data: seq<UsersRecord>, percentage: bool): (r: seq<UsersPoint>)
    ensures |r| == |data|
    ensures forall i :: 0 <= i < |data| ==> r[i].date == data[i].timestamp * 1000
    ensures forall i :: 0 <= i < |data| ==> r[i] == UsersPointOf(data[i], percentage)
  {
    seq(|data|, i requires 0 <= i < |data| => UsersPointOf(data[i], percentage))
  }


  /** A record of the pool stats feed: the USD value held of each token, and the USDG supply. */
  datatype PoolStats = PoolStats(timestamp: int, btc: real, bnb: real, usdt: real, usdc: real,
                                 eth: real, busd: real, usdgSupply: real)

  /** `tokens`, in the order the transforms visit them. */
  const Tokens: seq<string> := ["BTC", "BNB", "USDT", "USDC", "ETH", "BUSD"]

  /** The entries `symbol: item[symbol]` for every token. */
  function TokenAmounts(item: PoolStats): (m: Entries)
    ensures Keys(m) == Tokens
  {
    [("BTC", item.btc), ("BNB", item.bnb), ("USDT", item.usdt), ("USDC", item.usdc),
     ("ETH", item.eth), ("BUSD", item.busd)]
  }

  /** The USD value of the whole pool. */
  function PoolValue(item: PoolStats): real {
    item.btc + item.bnb + item.usdt + item.usdc + item.eth + item.busd
  }

  /** `allValueUsd`, the reduce over `tokens`, is the value of the whole pool. */
  lemma PoolTotal(item: PoolStats)
    ensures Total(TokenAmounts(item)) == PoolValue(item)
  {
    var vs := Values(TokenAmounts(item));
    assert vs == [item.btc, item.bnb, item.usdt, item.usdc, item.eth] + [item.busd];
    assert [item.btc, item.bnb, item.usdt, item.usdc, item.eth] == [item.btc, item.bnb, item.usdt, item.usdc] + [item.eth];
    assert [item.btc, item.bnb, item.usdt, item.usdc] == [item.btc, item.bnb, item.usdt] + [item.usdc];
    assert [item.btc, item.bnb, item.usdt] == [item.btc, item.bnb] + [item.usdt];
    assert [item.btc, item.bnb] == [item.btc] + [item.bnb];
    assert [item.btc] == [] + [item.btc];
    SumSnoc([item.btc, item.bnb, item.usdt, item.usdc, item.eth], item.busd);
    SumSnoc([item.btc, item.bnb, item.usdt, item.usdc], item.eth);
    SumSnoc([item.btc, item.bnb, item.usdt], item.usdc);
    SumSnoc([item.btc, item.bnb], item.usdt);
    SumSnoc([item.btc], item.bnb);
    SumSnoc([], item.btc);
  }

  /** `poolAmountsChartData`: no points without pool stats; otherwise one point
      per record whose categories are exactly the six tokens, with `all` the
      pool's value in raw mode. */
  function PoolAmountsChartData(data: Option<seq<PoolStats>>, percentage: bool): (r: seq<ChartPoint>)
    ensures data.None? ==> r == []
    ensures data.Some? ==> |r| == |data.value|
    ensures data.Some? ==> forall i :: 0 <= i < |r| ==>
      && r[i].date == data.value[i].timestamp * 1000
      && Keys(r[i].series.categories) == Tokens
      && r[i].series == Normalize(TokenAmounts(data.value[i]), percentage)
    ensures data.Some? && !percentage ==> forall i :: 0 <= i < |r| ==> r[i].series.all == Finite(PoolValue(data.value[i]))
  {
    match data
    case None => []
    case Some(stats) =>
      assert forall i :: 0 <= i < |stats| ==> Total(TokenAmounts(stats[i])) == PoolValue(stats[i]) by {
        forall i | 0 <= i < |stats| { PoolTotal(stats[i]); }
      }
      seq(|stats|, i requires 0 <= i < |stats| =>
        ChartPoint(Normalize(TokenAmounts(stats[i]), percentage), stats[i].timestamp * 1000))
  }

  /** A point of the USDG supply chart: the supply and the USD value of the pool per USDG. */
  datatype UsdgPoint = UsdgPoint(value: real, price: Num, date: int)

  /** `usdgSupplyChartData`: absent without pool stats; otherwise one point per record. */
  function UsdgSupplyChartData(data: Option<seq<PoolStats>>): (r: Option<seq<UsdgPoint>>)
    ensures r.None? <==> data.None?
    ensures r.Some? ==> |r.value| == |data.value|
    ensures r.Some? ==> forall i :: 0 <= i < |r.value| ==>
      && r.value[i].value == data.value[i].usdgSupply
      && r.value[i].date == data.value[i].timestamp * 1000
      && (r.value[i].price.Finite? <==> data.value[i].usdgSupply != 0.0)
      && (r.value[i].price.Finite? ==> r.value[i].price.value * data.value[i].usdgSupply == PoolValue(data.value[i]))
  {
    match data
    case None => None
    case Some(stats) =>
      assert forall i :: 0 <= i < |stats| ==> Total(TokenAmounts(stats[i])) == PoolValue(stats[i]) by {
        forall i | 0 <= i < |stats| { PoolTotal(stats[i]); }
      }
      Some(seq(|stats|, i requires 0 <= i < |stats| =>
        UsdgPoint(stats[i].usdgSupply, Div(Total(TokenAmounts(stats[i])), stats[i].usdgSupply), stats[i].timestamp * 1000)))
  }

  /** A record of `/api/volumeByHour`. */
  datatype HourRecord = HourRecord(hour: int, metrics: Option<Entries>)

  datatype HourPoint = HourPoint(hour: int, value: real)

  /** `volumeByHourChartData`: one row per record, never merging rows that
      share an hour, whose value is the record's total. */
  function VolumeByHourChartData(data: seq<HourRecord>): (r: seq<HourPoint>)
    ensures |r| == |data|
    ensures forall i :: 0 <= i < |data| ==> r[i].hour == data[i].hour
    ensures forall i :: 0 <= i < |data| ==> r[i].value == Total(OrEmpty(data[i].metrics))
  {
    seq(|data|, i requires 0 <= i < |data| => HourPoint(data[i].hour, Total(OrEmpty(data[i].metrics))))
  }
}
