/** Bucketing telemetry: fixed-width buckets that tile the requested range, filled in one pass
    over the samples. Watts are exact reals and instants exact nanoseconds. */
module Buckets {
  import opened Base

  datatype Sample = Sample(device: int, at: int, watts: real)
  datatype Bucket = Bucket(start: int, end: int, samples: nat, wattHours: real, averageWatts: real,
                           minWatts: real, maxWatts: real)

  // ----- the grid -----

  function CountOf(start: int, end: int, step: int): nat
    requires step > 0 && start < end
  {
    (end - start + step - 1) / step
  }

  function StartOf(start: int, step: int, i: int): int {
    start + i * step
  }

  function EndOf(start: int, end: int, step: int, i: int): int {
    if StartOf(start, step, i) + step > end then end else StartOf(start, step, i) + step
  }

  lemma QuotientBounds(a: int, step: int)
    requires step > 0
    ensures (a / step) * step <= a < (a / step) * step + step
  {
  }

  lemma CountBounds(start: int, end: int, step: int)
    requires step > 0 && start < end
    ensures var n := CountOf(start, end, step); n >= 1 && StartOf(start, step, n - 1) < end <= StartOf(start, step, n)
  {
    var n := CountOf(start, end, step);
    QuotientBounds(end - start + step - 1, step);
    assert (n - 1) * step == n * step - step;
    assert n * step >= end - start > 0;
  }

  lemma Distribute(step: int, i: int, j: int)
    ensures j * step - i * step == (j - i) * step
  {
  }

  lemma {:induction false} AtLeastOneStep(step: int, n: int)
    requires step > 0 && n >= 1
    ensures n * step >= step
  {
    if n > 1 {
      AtLeastOneStep(step, n - 1);
      Distribute(step, n - 1, n);
    }
  }

  lemma StartsIncrease(start: int, step: int, i: int, j: int)
    requires step > 0 && i < j
    ensures StartOf(start, step, i) + step <= StartOf(start, step, j)
  {
    Distribute(step, i, j);
    AtLeastOneStep(step, j - i);
  }

  lemma QuotientBucket(start: int, step: int, at: int)
    requires step > 0
    ensures StartOf(start, step, (at - start) / step) <= at < StartOf(start, step, (at - start) / step) + step
  {
    QuotientBounds(at - start, step);
  }

  /** At most one cell of the grid contains an instant. */
  lemma OneCell(start: int, step: int, at: int, i: int, k: int)
    requires step > 0
    requires StartOf(start, step, i) <= at < StartOf(start, step, i) + step
    requires StartOf(start, step, k) <= at < StartOf(start, step, k) + step
    ensures i == k
  {
    if k < i { StartsIncrease(start, step, k, i); }
    if i < k { StartsIncrease(start, step, i, k); }
  }

  lemma QuotientInRange(start: int, end: int, step: int, at: int)
    requires step > 0 && start <= at < end
    ensures 0 <= (at - start) / step < CountOf(start, end, step)
  {
    var k, n := (at - start) / step, CountOf(start, end, step);
    QuotientBucket(start, step, at);
    CountBounds(start, end, step);
    if k > n { StartsIncrease(start, step, n, k); }
  }

  /** An instant in range belongs to the bucket its offset divides into, and to no other. */
  lemma InstantHasItsBucket(start: int, end: int, step: int, at: int, i: int)
    requires step > 0 && start <= at < end && 0 <= i < CountOf(start, end, step)
    ensures 0 <= (at - start) / step < CountOf(start, end, step)
    ensures StartOf(start, step, i) <= at < EndOf(start, end, step, i) <==> i == (at - start) / step
  {
    QuotientInRange(start, end, step, at);
    QuotientBucket(start, step, at);
    if StartOf(start, step, i) <= at < EndOf(start, end, step, i) {
      OneCell(start, step, at, i, (at - start) / step);
    }
  }

  // ----- filling -----

  predicate Within(s: Sample, lo: int, hi: int) {
    lo <= s.at < hi
  }

  function EmptyBucket(lo: int, hi: int): Bucket {
    Bucket(lo, hi, 0, 0.0, 0.0, 0.0, 0.0)
  }

  function Add(b: Bucket, watts: real): Bucket {
    b.(samples := b.samples + 1,
       averageWatts := b.averageWatts + watts,
       minWatts := if b.samples == 0 || watts < b.minWatts then watts else b.minWatts,
       maxWatts := if watts > b.maxWatts then watts else b.maxWatts)
  }

  function Filled(samples: seq<Sample>, lo: int, hi: int): Bucket {
    if samples == [] then EmptyBucket(lo, hi)
    else
      var b := Filled(samples[..|samples| - 1], lo, hi);
      if Within(samples[|samples| - 1], lo, hi) then Add(b, samples[|samples| - 1].watts) else b
  }

  function Hours(duration: int): real {
    (duration as real) / (HOUR as real)
  }

  function Finish(b: Bucket): Bucket {
    if b.samples == 0 then b
    else
      var average := b.averageWatts / (b.samples as real);
      b.(averageWatts := average, wattHours := average * Hours(b.end - b.start))
  }

  /** The body of the sample loop: update the one bucket the sample falls in. */
  method FillOne(out: array<Bucket>, samples: seq<Sample>, n: nat, start: int, end: int, step: int)
    requires step > 0 && start < end && n < |samples| && out.Length == CountOf(start, end, step)
    requires forall k | 0 <= k < out.Length :: out[k] == Filled(samples[..n], StartOf(start, step, k), EndOf(start, end, step, k))
    modifies out
    ensures forall k | 0 <= k < out.Length :: out[k] == Filled(samples[..n + 1], StartOf(start, step, k), EndOf(start, end, step, k))
  {
    var sample := samples[n];
    assert samples[..n + 1][..n] == samples[..n];
    if sample.at < start || sample.at >= end {
      forall k | 0 <= k < out.Length ensures !Within(sample, StartOf(start, step, k), EndOf(start, end, step, k)) {
        if k > 0 { StartsIncrease(start, step, 0, k); }
      }
      return;
    }
    var index := (sample.at - start) / step;
    forall k | 0 <= k < out.Length
      ensures 0 <= index < out.Length
      ensures Within(sample, StartOf(start, step, k), EndOf(start, end, step, k)) <==> k == index
    {
      InstantHasItsBucket(start, end, step, sample.at, k);
    }
    CountBounds(start, end, step);
    InstantHasItsBucket(start, end, step, sample.at, 0);
    var bucket := out[index];
    bucket := bucket.(samples := bucket.samples + 1, averageWatts := bucket.averageWatts + sample.watts);
    if bucket.samples == 1 || sample.watts < bucket.minWatts {
      bucket := bucket.(minWatts := sample.watts);
    }
    if sample.watts > bucket.maxWatts {
      bucket := bucket.(maxWatts := sample.watts);
    }
    out[index] := bucket;
  }

  /** The averaging loop. */
  method FinishAll(out: array<Bucket>)
    modifies out
    ensures forall k | 0 <= k < out.Length :: out[k] == Finish(old(out[k]))
  {
    for i := 0 to out.Length
      invariant forall k | 0 <= k < i :: out[k] == Finish(old(out[k]))
      invariant forall k | i <= k < out.Length :: out[k] == old(out[k])
    {
      if out[i].samples > 0 {
        var average := out[i].averageWatts / (out[i].samples as real);
        out[i] := out[i].(averageWatts := average, wattHours := average * Hours(out[i].end - out[i].start));
      }
    }
  }

  // ----- what the buckets mean -----

  /** The samples of a range, in input order. */
  function Inside(samples: seq<Sample>, lo: int, hi: int): seq<Sample> {
    if samples == [] then []
    else
      Inside(samples[..|samples| - 1], lo, hi) +
        if lo <= samples[|samples| - 1].at < hi then [samples[|samples| - 1]] else []
  }

  function Total(samples: seq<Sample>): real {
    if samples == [] then 0.0 else Total(samples[..|samples| - 1]) + samples[|samples| - 1].watts
  }

  ghost predicate LeastWatts(samples: seq<Sample>, m: real) {
    (exists i :: 0 <= i < |samples| && samples[i].watts == m) && forall i | 0 <= i < |samples| :: m <= samples[i].watts
  }

  ghost predicate GreatestWatts(samples: seq<Sample>, m: real) {
    (exists i :: 0 <= i < |samples| && samples[i].watts == m) && forall i | 0 <= i < |samples| :: samples[i].watts <= m
  }

  /** The running bucket counts, adds up and bounds exactly the samples of its range; its
      maximum starts from zero. */
  ghost predicate Summarises(b: Bucket, inside: seq<Sample>) {
    && b.samples == |inside| && b.averageWatts == Total(inside)
    && (inside == [] ==> b.minWatts == 0.0 && b.maxWatts == 0.0)
    && (inside != [] ==> LeastWatts(inside, b.minWatts))
    && (forall i | 0 <= i < |inside| :: inside[i].watts <= b.maxWatts) && b.maxWatts >= 0.0
    && (b.maxWatts != 0.0 ==> exists i :: 0 <= i < |inside| && inside[i].watts == b.maxWatts)
  }

  lemma AddSummarises(b: Bucket, inside: seq<Sample>, s: Sample)
    requires Summarises(b, inside)
    ensures Summarises(Add(b, s.watts), inside + [s])
  {
    var more := inside + [s];
    assert more[..|inside|] == inside && more[|inside|] == s;
    if inside != [] {
      var i :| 0 <= i < |inside| && inside[i].watts == b.minWatts;
      assert more[i].watts == b.minWatts;
    }
    if b.maxWatts != 0.0 {
      var i :| 0 <= i < |inside| && inside[i].watts == b.maxWatts;
      assert more[i].watts == b.maxWatts;
    }
  }

  lemma {:induction false} FilledSummarises(samples: seq<Sample>, lo: int, hi: int)
    ensures Filled(samples, lo, hi).start == lo && Filled(samples, lo, hi).end == hi
    ensures Filled(samples, lo, hi).wattHours == 0.0
    ensures Summarises(Filled(samples, lo, hi), Inside(samples, lo, hi))
  {
    if samples != [] {
      var front, last := samples[..|samples| - 1], samples[|samples| - 1];
      FilledSummarises(front, lo, hi);
      if Within(last, lo, hi) {
        AddSummarises(Filled(front, lo, hi), Inside(front, lo, hi), last);
      } else {
        assert Inside(samples, lo, hi) == Inside(front, lo, hi);
      }
    }
  }

  lemma AverageTimesCount(total: real, n: nat)
    requires n > 0
    ensures (total / (n as real)) * (n as real) == total
  {
  }

  /** Average times count. */
  function Watts(b: Bucket): real {
    b.averageWatts * (b.samples as real)
  }

  ghost predicate SomeNotNegative(inside: seq<Sample>) {
    exists i :: 0 <= i < |inside| && inside[i].watts >= 0.0
  }

  // The nanoseconds of an hour.
  const NANOS_PER_HOUR: real := 3_600_000_000_000.0

  /** Energy is average power times the bucket's length, per hour. */
  ghost predicate EnergyOf(b: Bucket) {
    b.wattHours * NANOS_PER_HOUR == b.averageWatts * ((b.end - b.start) as real)
  }

  ghost predicate Describes(b: Bucket, inside: seq<Sample>) {
    && b.samples == |inside|
    && Watts(b) == Total(inside)
    && EnergyOf(b)
    && (inside == [] ==> b.averageWatts == 0.0 && b.minWatts == 0.0)
    && (inside != [] ==> LeastWatts(inside, b.minWatts))
    && (inside != [] ==> (GreatestWatts(inside, b.maxWatts) <==> SomeNotNegative(inside)))
    && (!SomeNotNegative(inside) ==> b.maxWatts == 0.0)
  }

  lemma MaximumWhenNotNegative(b: Bucket, inside: seq<Sample>)
    requires Summarises(b, inside)
    ensures inside != [] ==> (GreatestWatts(inside, b.maxWatts) <==> SomeNotNegative(inside))
    ensures !SomeNotNegative(inside) ==> b.maxWatts == 0.0
  {
  }

  lemma FinishTotals(b: Bucket)
    requires b.samples == 0 ==> b.averageWatts == 0.0
    ensures Finish(b).samples == b.samples
    ensures Watts(Finish(b)) == b.averageWatts
  {
    if b.samples > 0 { AverageTimesCount(b.averageWatts, b.samples); }
  }

  lemma EnergyIdentity(average: real, duration: int)
    ensures (average * Hours(duration)) * NANOS_PER_HOUR == average * (duration as real)
  {
    var d := duration as real;
    assert Hours(duration) == d / NANOS_PER_HOUR;
    assert (d / NANOS_PER_HOUR) * NANOS_PER_HOUR == d;
    assert (average * (d / NANOS_PER_HOUR)) * NANOS_PER_HOUR == average * ((d / NANOS_PER_HOUR) * NANOS_PER_HOUR);
  }

  lemma FinishEnergy(b: Bucket)
    requires b.wattHours == 0.0 && (b.samples == 0 ==> b.averageWatts == 0.0)
    ensures EnergyOf(Finish(b))
  {
    if b.samples > 0 { EnergyIdentity(Finish(b).averageWatts, b.end - b.start); }
  }

  lemma FinishKeeps(b: Bucket)
    ensures Finish(b).start == b.start && Finish(b).end == b.end
    ensures Finish(b).minWatts == b.minWatts && Finish(b).maxWatts == b.maxWatts
  {
  }

  lemma FinishDescribes(b: Bucket, inside: seq<Sample>)
    requires Summarises(b, inside) && b.wattHours == 0.0
    ensures Describes(Finish(b), inside)
  {
    FinishTotals(b);
    FinishEnergy(b);
    FinishKeeps(b);
    MaximumWhenNotNegative(b, inside);
  }

  /** Each finished bucket: its count, average and minimum are those of the samples in its range,
      and so is its maximum exactly when some sample in it is not negative. */
  lemma BucketMeaning(samples: seq<Sample>, lo: int, hi: int)
    ensures var b := Finish(Filled(samples, lo, hi));
      b.start == lo && b.end == hi && Describes(b, Inside(samples, lo, hi))
  {
    FilledSummarises(samples, lo, hi);
    FinishDescribes(Filled(samples, lo, hi), Inside(samples, lo, hi));
  }

  /** A bucket whose samples are all negative reports a maximum of zero. */
  lemma NegativeMaximumReadsZero()
    ensures var b := Finish(Filled([Sample(1, 0, -5.0)], 0, 1));
      b.samples == 1 && b.minWatts == -5.0 && b.maxWatts == 0.0
  {
    assert [Sample(1, 0, -5.0)][..0] == [];
  }

  /** Consecutive buckets share their boundary, the first starts the range and the last ends it. */
  lemma BucketsTile(start: int, end: int, step: int, i: int)
    requires step > 0 && start < end && 0 <= i < CountOf(start, end, step)
    ensures StartOf(start, step, 0) == start && EndOf(start, end, step, CountOf(start, end, step) - 1) == end
    ensures StartOf(start, step, i) < EndOf(start, end, step, i)
    ensures i + 1 < CountOf(start, end, step) ==> EndOf(start, end, step, i) == StartOf(start, step, i + 1)
  {
    var n := CountOf(start, end, step);
    CountBounds(start, end, step);
    assert (n - 1) * step + step == n * step;
    assert (i + 1) * step == i * step + step;
    if i < n - 1 { StartsIncrease(start, step, i, n - 1); }
  }

  /** Bucket i starts i steps into the range, ends one step later or with the range, and describes
      the samples in between. */
  ghost predicate IsBucket(b: Bucket, samples: seq<Sample>, start: int, end: int, step: int, i: int) {
    && b.start == start + i * step && b.end == (if b.start + step < end then b.start + step else end)
    && Describes(b, Inside(samples, b.start, b.end))
  }

  method Bucketize(samples: seq<Sample>, start: int, end: int, step: int) returns (buckets: seq<Bucket>)
    ensures step <= 0 || start >= end ==> buckets == []
    ensures step > 0 && start < end ==>
      && |buckets| == CountOf(start, end, step)
      && forall i | 0 <= i < |buckets| ::
           buckets[i] == Finish(Filled(samples, StartOf(start, step, i), EndOf(start, end, step, i)))
    ensures step > 0 && start < end ==>
      && |buckets| >= 1 && (|buckets| - 1) * step < end - start <= |buckets| * step
      && forall i | 0 <= i < |buckets| :: IsBucket(buckets[i], samples, start, end, step, i)
  {
    if step <= 0 || start >= end {
      return [];
    }
    var count := (end - start + step - 1) / step;
    var out := new Bucket[count](_ => EmptyBucket(0, 0));
    for i := 0 to count
      invariant forall k | 0 <= k < i :: out[k] == EmptyBucket(StartOf(start, step, k), EndOf(start, end, step, k))
    {
      var first := start + i * step;
      out[i] := EmptyBucket(first, if first + step > end then end else first + step);
    }
    for n := 0 to |samples|
      invariant forall k | 0 <= k < count :: out[k] == Filled(samples[..n], StartOf(start, step, k), EndOf(start, end, step, k))
    {
      FillOne(out, samples, n, start, end, step);
    }
    assert samples[..|samples|] == samples;
    FinishAll(out);
    buckets := out[..];
    CountBounds(start, end, step);
    forall i | 0 <= i < |buckets| ensures IsBucket(buckets[i], samples, start, end, step, i) {
      BucketMeaning(samples, StartOf(start, step, i), EndOf(start, end, step, i));
    }
  }

  // ----- conservation -----

  lemma TotalAppend(samples: seq<Sample>, s: Sample)
    ensures Total(samples + [s]) == Total(samples) + s.watts
  {
    assert (samples + [s])[..|samples|] == samples;
  }

  lemma InsideStep(samples: seq<Sample>, lo: int, hi: int)
    requires samples != []
    ensures var front := Inside(samples[..|samples| - 1], lo, hi); var last := samples[|samples| - 1];
      && |Inside(samples, lo, hi)| == |front| + (if Within(last, lo, hi) then 1 else 0)
      && Total(Inside(samples, lo, hi)) == Total(front) + if Within(last, lo, hi) then last.watts else 0.0
  {
    var front := Inside(samples[..|samples| - 1], lo, hi);
    TotalAppend(front, samples[|samples| - 1]);
    assert front + [] == front;
  }

  lemma {:induction false} InsideSplit(samples: seq<Sample>, lo: int, mid: int, hi: int)
    requires lo <= mid <= hi
    ensures |Inside(samples, lo, hi)| == |Inside(samples, lo, mid)| + |Inside(samples, mid, hi)|
    ensures Total(Inside(samples, lo, hi)) == Total(Inside(samples, lo, mid)) + Total(Inside(samples, mid, hi))
  {
    if samples != [] {
      var front, last := samples[..|samples| - 1], samples[|samples| - 1];
      InsideSplit(front, lo, mid, hi);
      InsideStep(samples, lo, hi);
      InsideStep(samples, lo, mid);
      InsideStep(samples, mid, hi);
    }
  }

  lemma {:induction false} NothingInside(samples: seq<Sample>, at: int)
    ensures Inside(samples, at, at) == []
  {
    if samples != [] { NothingInside(samples[..|samples| - 1], at); }
  }

  function BucketAt(samples: seq<Sample>, start: int, end: int, step: int, i: int): Bucket {
    Finish(Filled(samples, StartOf(start, step, i), EndOf(start, end, step, i)))
  }

  /** Sums over the first n buckets. */
  function SampleSum(samples: seq<Sample>, start: int, end: int, step: int, n: nat): nat {
    if n == 0 then 0
    else SampleSum(samples, start, end, step, n - 1) + BucketAt(samples, start, end, step, n - 1).samples
  }

  function WattSum(samples: seq<Sample>, start: int, end: int, step: int, n: nat): real {
    if n == 0 then 0.0
    else
      WattSum(samples, start, end, step, n - 1) + Watts(BucketAt(samples, start, end, step, n - 1))
  }

  lemma BucketTotals(samples: seq<Sample>, lo: int, hi: int)
    ensures var b := Finish(Filled(samples, lo, hi)); var inside := Inside(samples, lo, hi);
      b.samples == |inside| && Watts(b) == Total(inside)
  {
    FilledSummarises(samples, lo, hi);
    FinishTotals(Filled(samples, lo, hi));
  }

  /** What bucket n - 1 adds to the sums. */
  lemma LastBucketAdds(samples: seq<Sample>, start: int, end: int, step: int, n: nat)
    requires n > 0
    ensures var inside := Inside(samples, StartOf(start, step, n - 1), EndOf(start, end, step, n - 1));
      && SampleSum(samples, start, end, step, n) == SampleSum(samples, start, end, step, n - 1) + |inside|
      && WattSum(samples, start, end, step, n) == WattSum(samples, start, end, step, n - 1) + Total(inside)
  {
    BucketTotals(samples, StartOf(start, step, n - 1), EndOf(start, end, step, n - 1));
  }

  /** One more bucket covers as much more of the range. */
  lemma PrefixStep(samples: seq<Sample>, start: int, end: int, step: int, n: nat)
    requires step > 0 && start < end && 0 < n < CountOf(start, end, step)
    ensures var before := Inside(samples, start, StartOf(start, step, n - 1)); var covered := Inside(samples, start, StartOf(start, step, n));
      var inside := Inside(samples, StartOf(start, step, n - 1), EndOf(start, end, step, n - 1));
      |covered| == |before| + |inside| && Total(covered) == Total(before) + Total(inside)
  {
    BucketsTile(start, end, step, n - 1);
    if n > 1 { StartsIncrease(start, step, 0, n - 1); }
    InsideSplit(samples, start, StartOf(start, step, n - 1), StartOf(start, step, n));
  }

  lemma {:induction false} PrefixConserved(samples: seq<Sample>, start: int, end: int, step: int, n: nat)
    requires step > 0 && start < end && n < CountOf(start, end, step)
    ensures SampleSum(samples, start, end, step, n) == |Inside(samples, start, StartOf(start, step, n))|
    ensures WattSum(samples, start, end, step, n) == Total(Inside(samples, start, StartOf(start, step, n)))
  {
    if n == 0 {
      NothingInside(samples, start);
    } else {
      PrefixConserved(samples, start, end, step, n - 1);
      LastBucketAdds(samples, start, end, step, n);
      PrefixStep(samples, start, end, step, n);
    }
  }

  /** Together the buckets hold exactly the samples of [start, end), and average times count adds
      up to all their watts. */
  lemma BucketsConserve(samples: seq<Sample>, start: int, end: int, step: int)
    requires step > 0 && start < end
    ensures SampleSum(samples, start, end, step, CountOf(start, end, step)) == |Inside(samples, start, end)|
    ensures WattSum(samples, start, end, step, CountOf(start, end, step)) == Total(Inside(samples, start, end))
  {
    var last := CountOf(start, end, step) - 1;
    CountBounds(start, end, step);
    PrefixConserved(samples, start, end, step, last);
    LastBucketAdds(samples, start, end, step, last + 1);
    BucketsTile(start, end, step, last);
    if last > 0 { StartsIncrease(start, step, 0, last); }
    InsideSplit(samples, start, StartOf(start, step, last), end);
  }
}
