/** The summary figures of the BSC dashboard (src/Bsc.js): the total of the
    latest record and the sum of the totals of the last seven records. */
module BscStats {
  import opened Js
  import opened BscSeries

  datatype Summary = Summary(today: real, last7days: real)

  /** `xs.slice(-7)`: the last seven elements, or all of them when there are fewer. */
  function LastSeven<T>(xs: seq<T>): (r: seq<T>)
    ensures |r| == if |xs| < 7 then |xs| else 7
    ensures r == xs[|xs| - |r|..]
  {
    if |xs| < 7 then xs else xs[|xs| - 7..]
  }

  /** The summary of a sequence of per-record totals: absent exactly when there
      is no record; `today` is the last total, and `last7days` the whole total
      less that of the records before the last seven. */
  function Summarize(totals: seq<real>): (r: Option<Summary>)
    ensures r.None? <==> totals == []
    ensures r.Some? ==> r.value.today == totals[|totals| - 1]
    ensures r.Some? ==> r.value.last7days == Sum(totals) - Sum(totals[..|totals| - |LastSeven(totals)|])
  {
    if totals == [] then None
    else
      var k := |totals| - |LastSeven(totals)|;
      assert totals == totals[..k] + LastSeven(totals);
      SumAppend(totals[..k], LastSeven(totals));
      Some(Summary(totals[|totals| - 1], Sum(LastSeven(totals))))
  }

  /** `last7days` is the total of the whole sequence less that of the records
      before the last seven, so it is the total itself for seven records or fewer. */
  lemma Last7DaysWindow(totals: seq<real>)
    requires totals != []
    ensures Summarize(totals).value.last7days == Sum(totals) - Sum(totals[..|totals| - |LastSeven(totals)|])
    ensures |totals| <= 7 ==> Summarize(totals).value.last7days == Sum(totals)
  {
    var k := |totals| - |LastSeven(totals)|;
    assert totals == totals[..k] + LastSeven(totals);
    SumAppend(totals[..k], LastSeven(totals));
    assert totals[..0] == [];
  }

  /** With non-negative totals, `today` is part of `last7days`, which is part of the whole total. */
  lemma SummaryBounds(totals: seq<real>)
    requires totals != []
    requires forall i :: 0 <= i < |totals| ==> totals[i] >= 0.0
    ensures 0.0 <= Summarize(totals).value.today <= Summarize(totals).value.last7days <= Sum(totals)
  {
    var tail := LastSeven(totals);
    var k := |totals| - |tail|;
    Last7DaysWindow(totals);
    SumBoundsElement(tail, |tail| - 1);
    if k > 0 {
      SumBoundsElement(totals[..k], 0);
    } else {
      assert totals[..k] == [];
    }
  }

  lemma {:induction false} SumConstant(n: nat, c: real)
    ensures Sum(seq(n, _ => c)) == n as real * c
  {
    if n > 0 {
      assert seq(n, _ => c)[..n - 1] == seq(n - 1, _ => c);
      SumConstant(n - 1, c);
    }
  }

  /** Ten records with a total of 100 each: `today` is 100, `last7days` 700. */
  lemma UniformSummary()
    ensures Summarize(seq(10, _ => 100.0)) == Some(Summary(100.0, 700.0))
  {
    assert LastSeven(seq(10, _ => 100.0)) == seq(7, _ => 100.0);
    SumConstant(7, 100.0);
  }

  /** The total of each record, a missing `metrics` counting as `{}`. */
  function Totals(data: seq<MetricRecord>): (ts: seq<real>)
    ensures |ts| == |data|
    ensures forall i :: 0 <= i < |data| ==> ts[i] == Total(OrEmpty(data[i].metrics))
  {
    seq(|data|, i requires 0 <= i < |data| => Total(OrEmpty(data[i].metrics)))
  }

  /** `volumeStats`: absent for no records; otherwise `today` is the total of
      the last record and `last7days` the sum of the totals of the last
      `min(7, n)` records. */
  function VolumeStats(data: seq<MetricRecord>): (r: Option<Summary>)
    ensures r.None? <==> data == []
    ensures r.Some? ==> r.value.today == Total(OrEmpty(data[|data| - 1].metrics))
    ensures r.Some? ==> r.value.last7days == Sum(Totals(LastSeven(data)))
  {
    assert Totals(LastSeven(data)) == LastSeven(Totals(data));
    Summarize(Totals(data))
  }

  /** What `feesStats` produces: nothing, a summary, or the TypeError that
      `Object.values(undefined)` throws on a record without `metrics`. */
  datatype FeesStatsResult = NoStats | Stats(summary: Summary) | ThrowsTypeError

  /** `getAll(el.metrics)` with no default: absent stands for the exception. */
  function StrictTotal(metrics: Option<Entries>): Option<real> {
    match metrics
    case None => None
    case Some(m) => Some(Total(m))
  }

  /** `records.reduce((memo, el) => memo + getAll(el.metrics), 0)`, which stops
      at the first record without `metrics`: it succeeds exactly when every
      record has `metrics`, and then it is the sum of the records' totals. */
  function StrictSum(records: seq<MetricRecord>): (r: Option<real>)
    ensures r.Some? <==> forall i :: 0 <= i < |records| ==> records[i].metrics.Some?
    ensures r.Some? ==> r.value == Sum(Totals(records))
    decreases |records|
  {
    if records == [] then Some(0.0)
    else
      var n := |records| - 1;
      assert Totals(records)[..n] == Totals(records[..n]);
      assert records[n].metrics.None? ==> !(forall i :: 0 <= i < |records| ==> records[i].metrics.Some?);
      match StrictSum(records[..n])
      case None => None
      case Some(acc) =>
        match StrictTotal(records[n].metrics)
        case None => None
        case Some(t) => Some(acc + t)
  }

  /** `feesStats`, as written: it reads `.metrics` with no default. */
  function FeesStats(data: seq<MetricRecord>): (r: FeesStatsResult)
    ensures r.NoStats? <==> data == []
    ensures r.ThrowsTypeError? <==>
      data != [] && exists i :: |data| - |LastSeven(data)| <= i < |data| && data[i].metrics.None?
    ensures r.Stats? ==> Some(r.summary) == VolumeStats(data)
  {
    if data == [] then NoStats
    else
      assert Totals(LastSeven(data)) == LastSeven(Totals(data));
      assert data[|data| - 1] == LastSeven(data)[|LastSeven(data)| - 1];
      match StrictTotal(data[|data| - 1].metrics)
      case None => ThrowsTypeError
      case Some(today) =>
        match StrictSum(LastSeven(data))
        case None => ThrowsTypeError
        case Some(last7days) => Stats(Summary(today, last7days))
  }

  /** The two fees memos in render order: `feesChartData` first writes `{}`
      into every record without `metrics`, so `feesStats`, which reads the
      same records afterwards, never throws and agrees with the defaulting
      summary. */
  function RenderFees(data: seq<MetricRecord>, percentage: bool): (r: (seq<ChartPoint>, FeesStatsResult))
    ensures r.0 == FeesChartData(data, percentage)
    ensures !r.1.ThrowsTypeError?
    ensures r.1.NoStats? <==> data == []
    ensures r.1.Stats? ==> Some(r.1.summary) == VolumeStats(data)
  {
    var defaulted := DefaultMetrics(data);
    assert Totals(defaulted) == Totals(data);
    (FeesChartData(data, percentage), FeesStats(defaulted))
  }
}
