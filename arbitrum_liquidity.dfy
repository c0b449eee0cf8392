/** The liquidity chart of the Arbitrum dashboard (src/Arbitrum.js): the
    `addLiquidities` samples of the indexing query, merged into hourly
    buckets where the last sample of an hour wins. */
module ArbitrumLiquidity {
  import opened Js
  import opened Resolution

  /** One `addLiquidities` sample, its amounts already divided by 1e18. */
  datatype Sample = Sample(timestamp: int, aum: real, glpSupply: real)

  /** One point of the liquidity chart. */
  datatype Bucket = Bucket(timestamp: int, aum: real, glpSupply: real, glpPrice: Num)

  /** `newItem`: the sample at the start of its hour, with `glpPrice = aum / glpSupply`. */
  function ToBucket(item: Sample): (b: Bucket)
    ensures b.timestamp % SecondsInHour == 0 && b.timestamp <= item.timestamp < b.timestamp + SecondsInHour
    ensures b.aum == item.aum && b.glpSupply == item.glpSupply
    ensures b.glpPrice.Finite? <==> item.glpSupply != 0.0
    ensures b.glpPrice.Finite? ==> b.glpPrice.value * item.glpSupply == item.aum
  {
    Bucket(HourStart(item.timestamp), item.aum, item.glpSupply, Div(item.aum, item.glpSupply))
  }

  function Hour(item: Sample): int {
    HourStart(item.timestamp)
  }

  /** The reducer: a step grows the list by at most one bucket, keeps every
      bucket before the last, and leaves as last bucket exactly the new
      sample's (last wins, no aggregation); it replaces rather than appends
      exactly when the last bucket is in the sample's hour. */
  function Step(memo: seq<Bucket>, item: Sample): (r: seq<Bucket>)
    ensures |memo| <= |r| <= |memo| + 1 && r != []
    ensures r[|r| - 1] == ToBucket(item)
    ensures forall k :: 0 <= k < |r| - 1 ==> r[k] == memo[k]
    ensures |r| == |memo| <==> |memo| > 0 && memo[|memo| - 1].timestamp == Hour(item)
  {
    var newItem := ToBucket(item);
    if |memo| > 0 && memo[|memo| - 1].timestamp == newItem.timestamp then memo[|memo| - 1 := newItem]
    else memo + [newItem]
  }

  /** `samples.reduce(Step, [])`: at most as many buckets as samples, none
      exactly for no samples, and the last bucket is the last sample's. */
  function MergeHourly(samples: seq<Sample>): (r: seq<Bucket>)
    ensures |r| <= |samples|
    ensures r == [] <==> samples == []
    ensures samples != [] ==> r[|r| - 1] == ToBucket(samples[|samples| - 1])
    decreases |samples|
  {
    if samples == [] then [] else Step(MergeHourly(samples[..|samples| - 1]), samples[|samples| - 1])
  }

  /** The loop's replace branch: overwriting the last bucket is one fold step. */
  lemma ReplaceIsStep(items: seq<Sample>, i: nat, prev: seq<Bucket>, next: seq<Bucket>)
    requires i < |items| && prev == MergeHourly(items[..i])
    requires |prev| > 0 && prev[|prev| - 1].timestamp == Hour(items[i])
    requires next == prev[|prev| - 1 := ToBucket(items[i])]
    ensures next == MergeHourly(items[..i + 1])
  {
    assert items[..i + 1][..i] == items[..i];
  }

  /** The loop's append branch: adding a bucket is one fold step. */
  lemma AppendIsStep(items: seq<Sample>, i: nat, prev: seq<Bucket>, next: seq<Bucket>)
    requires i < |items| && prev == MergeHourly(items[..i])
    requires !(|prev| > 0 && prev[|prev| - 1].timestamp == Hour(items[i]))
    requires next == prev + [ToBucket(items[i])]
    ensures next == MergeHourly(items[..i + 1])
  {
    assert items[..i + 1][..i] == items[..i];
  }

  /** `addLiquiditiesChartData`: no buckets without query data; otherwise the
      fold, run over an array that it overwrites at the end or extends. */
  method AddLiquiditiesChartData(data: Option<seq<Sample>>) returns (chart: seq<Bucket>)
    ensures data.None? ==> chart == []
    ensures data.Some? ==> chart == MergeHourly(data.value)
  {
    if data.None? {
      return [];
    }
    var items := data.value;
    var memo := new Bucket[|items|];
    var len := 0;
    for i := 0 to |items|
      invariant len <= i
      invariant memo[..len] == MergeHourly(items[..i])
    {
      ghost var prev := memo[..len];
      var newItem := ToBucket(items[i]);
      if len > 0 && memo[len - 1].timestamp == newItem.timestamp {
        memo[len - 1] := newItem;
        assert memo[..len] == prev[len - 1 := newItem];
        ReplaceIsStep(items, i, prev, memo[..len]);
      } else {
        memo[len] := newItem;
        len := len + 1;
        assert memo[..len] == prev + [newItem];
        AppendIsStep(items, i, prev, memo[..len]);
      }
    }
    assert items[..|items|] == items;
    chart := memo[..len];
  }

  /** `b` is the bucket of one of the samples. */
  predicate FromSomeSample(b: Bucket, samples: seq<Sample>) {
    exists i :: 0 <= i < |samples| && b == ToBucket(samples[i])
  }

  /** Each bucket is the bucket of some sample: its timestamp is that sample's
      floored to the hour, and its price is that sample's `aum / glpSupply`. */
  lemma {:induction false} BucketsComeFromSamples(samples: seq<Sample>)
    ensures forall j :: 0 <= j < |MergeHourly(samples)| ==> FromSomeSample(MergeHourly(samples)[j], samples)
    decreases |samples|
  {
    if samples != [] {
      var n := |samples| - 1;
      var prev, b := MergeHourly(samples[..n]), ToBucket(samples[n]);
      var after := MergeHourly(samples);
      BucketsComeFromSamples(samples[..n]);
      assert FromSomeSample(b, samples) by { assert b == ToBucket(samples[n]); }
      forall j | 0 <= j < |prev| ensures FromSomeSample(prev[j], samples) {
        assert FromSomeSample(prev[j], samples[..n]);
        var i :| 0 <= i < n && prev[j] == ToBucket(samples[..n][i]);
        assert samples[i] == samples[..n][i];
      }
      if |prev| > 0 && prev[|prev| - 1].timestamp == b.timestamp {
        assert after == prev[|prev| - 1 := b];
      } else {
        assert after == prev + [b];
      }
    }
  }

  /** A bucket that starts on an hour and whose price is `aum / glpSupply`,
      finite exactly when the supply is not zero. */
  predicate HourlyPriced(b: Bucket) {
    && b.timestamp % SecondsInHour == 0
    && (b.glpPrice.Finite? <==> b.glpSupply != 0.0)
    && (b.glpPrice.Finite? ==> b.glpPrice.value * b.glpSupply == b.aum)
  }

  /** Every bucket starts on an hour and carries the price of its sample. */
  lemma BucketsAreHourlyPrices(samples: seq<Sample>)
    ensures forall j :: 0 <= j < |MergeHourly(samples)| ==> HourlyPriced(MergeHourly(samples)[j])
  {
    var buckets := MergeHourly(samples);
    BucketsComeFromSamples(samples);
    forall j | 0 <= j < |buckets| ensures HourlyPriced(buckets[j]) {
      SampleBucketIsHourlyPriced(buckets[j], samples);
    }
  }

  lemma SampleBucketIsHourlyPriced(b: Bucket, samples: seq<Sample>)
    requires FromSomeSample(b, samples)
    ensures HourlyPriced(b)
  {
    var i :| 0 <= i < |samples| && b == ToBucket(samples[i]);
  }

  /** Adjacent buckets never share a timestamp. */
  lemma {:induction false} AdjacentBucketsDiffer(samples: seq<Sample>)
    ensures forall j :: 0 <= j < |MergeHourly(samples)| - 1 ==>
      MergeHourly(samples)[j].timestamp != MergeHourly(samples)[j + 1].timestamp
    decreases |samples|
  {
    if samples != [] {
      var n := |samples| - 1;
      var prev, b := MergeHourly(samples[..n]), ToBucket(samples[n]);
      AdjacentBucketsDiffer(samples[..n]);
      if |prev| > 0 && prev[|prev| - 1].timestamp == b.timestamp {
        assert MergeHourly(samples) == prev[|prev| - 1 := b];
      } else {
        assert MergeHourly(samples) == prev + [b];
      }
    }
  }

  /** Adding a sample keeps every bucket but the last one. */
  lemma MergeHourlyKeepsEarlierBuckets(samples: seq<Sample>, item: Sample)
    ensures var before, after := MergeHourly(samples), MergeHourly(samples + [item]);
      |before| > 0 ==> |after| >= |before| && after[..|before| - 1] == before[..|before| - 1]
  {
    assert (samples + [item])[..|samples|] == samples;
  }

  predicate TimestampsNondecreasing(samples: seq<Sample>) {
    forall i, j :: 0 <= i < j < |samples| ==> samples[i].timestamp <= samples[j].timestamp
  }

  predicate StrictlyIncreasing(buckets: seq<Bucket>) {
    forall i, j :: 0 <= i < j < |buckets| ==> buckets[i].timestamp < buckets[j].timestamp
  }

  /** A step whose sample is not before any bucket keeps the buckets strictly
      increasing, and none of them past the sample's hour. */
  lemma StepKeepsIncreasing(prev: seq<Bucket>, item: Sample)
    requires StrictlyIncreasing(prev)
    requires forall k :: 0 <= k < |prev| ==> prev[k].timestamp <= Hour(item)
    ensures StrictlyIncreasing(Step(prev, item))
    ensures forall k :: 0 <= k < |Step(prev, item)| ==> Step(prev, item)[k].timestamp <= Hour(item)
  {
    var after := Step(prev, item);
    assert forall k :: 0 <= k < |after| - 1 ==> after[k] == prev[k] && after[k].timestamp < Hour(item);
  }

  /** Over samples ordered by timestamp, as the query requests them, bucket
      timestamps strictly increase and none is past the last sample's hour. */
  lemma {:induction false} OrderedSamplesGiveIncreasingBuckets(samples: seq<Sample>)
    requires TimestampsNondecreasing(samples)
    ensures StrictlyIncreasing(MergeHourly(samples))
    ensures samples != [] ==> forall j :: 0 <= j < |MergeHourly(samples)| ==>
      MergeHourly(samples)[j].timestamp <= Hour(samples[|samples| - 1])
    decreases |samples|
  {
    if samples != [] {
      var n := |samples| - 1;
      var prev := MergeHourly(samples[..n]);
      if n > 0 {
        assert TimestampsNondecreasing(samples[..n]);
        OrderedSamplesGiveIncreasingBuckets(samples[..n]);
        assert samples[..n][n - 1] == samples[n - 1];
        HourStartMonotone(samples[n - 1].timestamp, samples[n].timestamp);
      }
      StepKeepsIncreasing(prev, samples[n]);
    }
  }

  /** An independent description of the output: a sample survives exactly
      when it is the last of a run of consecutive samples in the same hour. */
  function LastOfRuns(samples: seq<Sample>): seq<Bucket>
    decreases |samples|
  {
    if samples == [] then []
    else if |samples| >= 2 && Hour(samples[0]) == Hour(samples[1]) then LastOfRuns(samples[1..])
    else [ToBucket(samples[0])] + LastOfRuns(samples[1..])
  }

  lemma StepAfterPrefix(c: seq<Bucket>, memo: seq<Bucket>, item: Sample)
    requires memo != []
    ensures Step(c + memo, item) == c + Step(memo, item)
  {
  }

  /** The fold seen from the front: a first sample is dropped exactly when the
      next one falls in the same hour. */
  lemma {:induction false} MergeHourlyCons(x: Sample, rest: seq<Sample>)
    ensures MergeHourly([x] + rest) ==
      if rest != [] && Hour(x) == Hour(rest[0]) then MergeHourly(rest) else [ToBucket(x)] + MergeHourly(rest)
    decreases |rest|
  {
    if rest == [] {
      assert ([x] + rest)[..0] == [];
    } else {
      var n := |rest| - 1;
      var front, y := rest[..n], rest[n];
      assert ([x] + rest)[..|[x] + rest| - 1] == [x] + front;
      MergeHourlyCons(x, front);
      if front == [] {
        assert MergeHourly(rest) == [ToBucket(y)] by { assert rest[..0] == []; }
      } else {
        assert front[0] == rest[0];
        var c := if Hour(x) == Hour(rest[0]) then [] else [ToBucket(x)];
        assert MergeHourly([x] + front) == c + MergeHourly(front);
        StepAfterPrefix(c, MergeHourly(front), y);
      }
    }
  }

  /** The fold and the run description agree on every input. */
  lemma {:induction false} MergeHourlyIsLastOfRuns(samples: seq<Sample>)
    ensures MergeHourly(samples) == LastOfRuns(samples)
    decreases |samples|
  {
    if samples != [] {
      assert samples == [samples[0]] + samples[1..];
      MergeHourlyCons(samples[0], samples[1..]);
      MergeHourlyIsLastOfRuns(samples[1..]);
    }
  }

  /** Two samples in the same hour give one bucket holding the second: 3601
      and 3650 both fall in the hour at 3600, and 5 / 2 is 2.5. */
  lemma LastSampleWinsExample()
    ensures MergeHourly([Sample(3601, 1.0, 2.0), Sample(3650, 5.0, 2.0)]) == [Bucket(3600, 5.0, 2.0, Finite(2.5))]
  {
    var s := [Sample(3601, 1.0, 2.0), Sample(3650, 5.0, 2.0)];
    assert s[..1] == [s[0]] && s[..1][..0] == [];
  }

  /** Only consecutive samples are merged: a sample back in an earlier hour,
      after one in a later hour, starts a bucket of its own. */
  lemma UnorderedSamplesStaySeparate()
    ensures |MergeHourly([Sample(0, 1.0, 1.0), Sample(7200, 1.0, 1.0), Sample(100, 1.0, 1.0)])| == 3
  {
    var s := [Sample(0, 1.0, 1.0), Sample(7200, 1.0, 1.0), Sample(100, 1.0, 1.0)];
    assert s[..2] == [s[0], s[1]] && s[..2][..1] == [s[0]] && s[..2][..1][..0] == [];
    assert MergeHourly(s[..1]) == [ToBucket(s[0])];
    assert HourStart(0) == 0 && HourStart(7200) == 7200 && HourStart(100) == 0;
    assert MergeHourly(s[..2]) == [ToBucket(s[0]), ToBucket(s[1])];
  }
}
