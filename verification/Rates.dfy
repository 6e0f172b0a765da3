/** The trailing mean of measured rates, and the layout of their chart. */
module Rates {
  import opened Effects

  datatype Kind = Prefill | Decode

  /** A report as it arrives; a number that is not finite is None. */
  datatype Report = Report(kind: Kind, time: Option<real>, tps: Option<real>, scope: string)

  datatype Sample = Sample(time: real, tps: real, scope: string)

  const SMOOTHING: real := 20000.0
  const WINDOW: real := 900000.0
  const GAP: real := 90000.0

  function Max(a: real, b: real): real {
    if a < b then b else a
  }

  ghost predicate Timely(samples: seq<Sample>) {
    forall i, j :: 0 <= i < j < |samples| ==> samples[i].time <= samples[j].time
  }

  // ---------------------------------------------------------------------------------------------
  // smoothRates

  /** Sample `j` counts for sample `i`: same unbroken scope, and at most twenty seconds older. */
  ghost predicate Counts(samples: seq<Sample>, i: nat, j: nat)
    requires i < |samples|
  {
    && j <= i && samples[j].time > samples[i].time - 20000.0
    && forall k :: j <= k <= i ==> samples[k].scope == samples[i].scope
  }

  ghost function Sum(samples: seq<Sample>, i: nat, n: nat): real
    requires i < |samples|
  {
    if n == 0 then 0.0 else Sum(samples, i, n - 1) + (if Counts(samples, i, n - 1) then samples[n - 1].tps else 0.0)
  }

  ghost function Count(samples: seq<Sample>, i: nat, n: nat): nat
    requires i < |samples|
  {
    if n == 0 then 0 else Count(samples, i, n - 1) + (if Counts(samples, i, n - 1) then 1 else 0)
  }

  /** The mean of all samples that count: the direct definition. */
  ghost function Mean(samples: seq<Sample>, i: nat): real
    requires i < |samples|
  {
    if Count(samples, i, i + 1) == 0 then 0.0 else Sum(samples, i, i + 1) / (Count(samples, i, i + 1) as real)
  }

  ghost function Range(samples: seq<Sample>, from: nat, upto: nat): real
    requires from <= upto <= |samples|
  {
    if from == upto then 0.0 else Range(samples, from, upto - 1) + samples[upto - 1].tps
  }

  lemma {:induction false} RangeFrom(samples: seq<Sample>, from: nat, upto: nat)
    requires from < upto <= |samples|
    ensures Range(samples, from, upto) == samples[from].tps + Range(samples, from + 1, upto)
    decreases upto
  {
    if from + 1 < upto {
      RangeFrom(samples, from, upto - 1);
    }
  }

  /** When the samples that count are those from `start` on, the running sum is theirs. */
  lemma {:induction false} RunningSum(samples: seq<Sample>, i: nat, start: nat, n: nat)
    requires i < |samples| && n <= i + 1
    requires Begins(samples, i, start)
    ensures Sum(samples, i, n) == if n <= start then 0.0 else Range(samples, start, n)
    ensures Count(samples, i, n) == if n <= start then 0 else n - start
  {
    if n > 0 {
      RunningSum(samples, i, start, n - 1);
    }
  }

  ghost predicate Within(samples: seq<Sample>, top: real) {
    forall s <- samples :: 0.0 <= s.tps <= top
  }

  lemma {:induction false} SumBounds(samples: seq<Sample>, i: nat, n: nat, top: real)
    requires i < |samples| && n <= i + 1 && Within(samples, top)
    ensures 0.0 <= Sum(samples, i, n) <= top * (Count(samples, i, n) as real)
    ensures n == i + 1 ==> Count(samples, i, n) > 0
  {
    if n > 0 {
      assert samples[n - 1] in samples;
      SumBounds(samples, i, n - 1, top);
    }
  }

  lemma Average(sum: real, n: nat, top: real)
    requires n > 0 && 0.0 <= sum <= top * (n as real)
    ensures 0.0 <= sum / (n as real) <= top
  {
  }

  /** The mean of rates that are not negative is not negative, so the clamp at zero never applies to it,
      and it never exceeds the highest rate. */
  lemma MeanBounded(samples: seq<Sample>, i: nat, top: real)
    requires i < |samples| && Within(samples, top)
    ensures 0.0 <= Mean(samples, i) <= top && Max(0.0, Mean(samples, i)) == Mean(samples, i)
  {
    SumBounds(samples, i, i + 1, top);
    Average(Sum(samples, i, i + 1), Count(samples, i, i + 1), top);
  }

  /** The samples that count are those from `start` on. */
  ghost predicate Begins(samples: seq<Sample>, i: nat, start: nat)
    requires i < |samples|
  {
    start <= i && forall j: nat :: j <= i ==> (Counts(samples, i, j) <==> start <= j)
  }

  lemma MeanIs(samples: seq<Sample>, i: nat, start: nat)
    requires i < |samples| && Begins(samples, i, start)
    ensures Mean(samples, i) == Range(samples, start, i + 1) / ((i - start + 1) as real)
  {
    RunningSum(samples, i, start, i + 1);
  }

  ghost function Smoothed(samples: seq<Sample>, n: nat): seq<Sample>
    requires n <= |samples|
  {
    if n == 0 then [] else Smoothed(samples, n - 1) + [samples[n - 1].(tps := Max(0.0, Mean(samples, n - 1)))]
  }

  lemma {:induction false} SmoothedAt(samples: seq<Sample>, n: nat)
    requires n <= |samples|
    ensures |Smoothed(samples, n)| == n
    ensures forall i :: 0 <= i < n ==> Smoothed(samples, n)[i] == samples[i].(tps := Max(0.0, Mean(samples, i)))
  {
    if n > 0 {
      SmoothedAt(samples, n - 1);
    }
  }

  /** The running sum and the moving start compute the direct mean, for every sample. */
  method SmoothRates(samples: seq<Sample>) returns (r: seq<Sample>)
    requires Timely(samples)
    ensures r == Smoothed(samples, |samples|)
  {
    r := [];
    var start, sum := 0, 0.0;
    for i := 0 to |samples|
      invariant r == Smoothed(samples, i) && start <= i && sum == Range(samples, start, i)
      invariant if i == 0 then start == 0 else Begins(samples, i - 1, start)
    {
      ghost var before := start;
      if i > 0 && samples[i].scope != samples[i - 1].scope {
        start, sum := i, 0.0;
      }
      ghost var first := start;
      sum := sum + samples[i].tps;
      while start < i && samples[start].time <= samples[i].time - SMOOTHING
        invariant first <= start <= i && sum == Range(samples, start, i + 1)
        invariant forall j :: first <= j < start ==> samples[j].time <= samples[i].time - SMOOTHING
      {
        RangeFrom(samples, start, i + 1);
        sum := sum - samples[start].tps;
        start := start + 1;
      }
      WindowBegins(samples, i, before, first, start);
      MeanIs(samples, i, start);
      r := r + [samples[i].(tps := Max(0.0, sum / ((i - start + 1) as real)))];
    }
  }

  /** The samples that count begin where the moving start stops. */
  lemma WindowBegins(samples: seq<Sample>, i: nat, before: nat, first: nat, start: nat)
    requires Timely(samples) && i < |samples| && before <= first <= start <= i
    requires if i == 0 then before == 0 else Begins(samples, i - 1, before)
    requires first == if i > 0 && samples[i].scope != samples[i - 1].scope then i else before
    requires forall j :: first <= j < start ==> samples[j].time <= samples[i].time - SMOOTHING
    requires start == i || samples[start].time > samples[i].time - SMOOTHING
    ensures Begins(samples, i, start)
  {
    forall j: nat | j <= i ensures Counts(samples, i, j) <==> start <= j {
      if j < i {
        if Counts(samples, i, j) {
          assert samples[i - 1].scope == samples[i].scope;
          assert Counts(samples, i - 1, j);
        }
        if start <= j {
          assert Counts(samples, i - 1, j);
          assert samples[start].time <= samples[j].time;
        }
      }
    }
  }

  // ---------------------------------------------------------------------------------------------
  // rateScales

  predicate Eligible(r: Report, kind: Kind, now: real) {
    r.kind == kind && r.tps.Some? && r.tps.value > 0.0 && r.time.Some? && r.time.value <= now
  }

  function Flatten<T>(xss: seq<seq<T>>): seq<T> {
    if xss == [] then [] else Flatten(xss[..|xss| - 1]) + xss[|xss| - 1]
  }

  function EligibleRates(rs: seq<Report>, kind: Kind, now: real): seq<real> {
    if rs == [] then []
    else
      var last := rs[|rs| - 1];
      EligibleRates(rs[..|rs| - 1], kind, now) + (if Eligible(last, kind, now) then [last.tps.value] else [])
  }

  lemma {:induction false} EligibleRatesAre(rs: seq<Report>, kind: Kind, now: real)
    ensures forall v :: v in EligibleRates(rs, kind, now) <==> exists r <- rs :: Eligible(r, kind, now) && v == r.tps.value
    decreases |rs|
  {
    if rs != [] {
      var most, last := rs[..|rs| - 1], rs[|rs| - 1];
      EligibleRatesAre(most, kind, now);
      assert rs == most + [last];
      assert forall r :: r in rs <==> r in most || r == last;
    }
  }

  function Seed(peak: Option<Report>, kind: Kind, now: real): seq<real> {
    if peak.Some? && Eligible(peak.value, kind, now) then [peak.value.tps.value] else []
  }

  /** The highest rate of one kind recorded or reported so far; without any, 1. */
  predicate IsScale(scale: real, peak: Option<Report>, rs: seq<Report>, kind: Kind, now: real) {
    && scale > 0.0
    && (peak.Some? && Eligible(peak.value, kind, now) ==> peak.value.tps.value <= scale)
    && (forall r <- rs :: Eligible(r, kind, now) ==> r.tps.value <= scale)
    && (|| (peak.Some? && Eligible(peak.value, kind, now) && scale == peak.value.tps.value)
        || (exists r <- rs :: Eligible(r, kind, now) && scale == r.tps.value)
        || (scale == 1.0 && !(peak.Some? && Eligible(peak.value, kind, now)) && forall r <- rs :: !Eligible(r, kind, now)))
  }

  /** No rate of the kind that was measured by now exceeds the scale. */
  lemma NoneExceeds(scale: real, peak: Option<Report>, rs: seq<Report>, kind: Kind, now: real, r: Report)
    requires IsScale(scale, peak, rs, kind, now) && (r in rs || peak == Some(r))
    requires r.kind == kind && r.tps.Some? && r.time.Some? && r.time.value <= now
    ensures r.tps.value <= scale
  {
    assert r.tps.value > 0.0 ==> Eligible(r, kind, now);
  }

  /** One reaches it, if there is any that is positive; otherwise the scale is 1. */
  lemma ScaleIsReached(scale: real, peak: Option<Report>, rs: seq<Report>, kind: Kind, now: real)
    requires IsScale(scale, peak, rs, kind, now)
    ensures
      || (scale == 1.0 && forall r: Report :: r in rs || peak == Some(r) ==>
            !(r.kind == kind && r.tps.Some? && r.tps.value > 0.0 && r.time.Some? && r.time.value <= now))
      || exists r: Report :: (r in rs || peak == Some(r)) && r.kind == kind && r.tps == Some(scale) && r.time.Some? && r.time.value <= now
  {
    if r :| r in rs && Eligible(r, kind, now) && scale == r.tps.value {
      assert r.tps == Some(scale);
    } else if peak.Some? && Eligible(peak.value, kind, now) && scale == peak.value.tps.value {
      assert peak == Some(peak.value) && peak.value.tps == Some(scale);
    }
  }

  method RateScale(devices: seq<seq<Report>>, peak: Option<Report>, kind: Kind, now: real) returns (scale: real)
    ensures IsScale(scale, peak, Flatten(devices), kind, now)
  {
    var values := Seed(peak, kind, now);
    for i := 0 to |devices|
      invariant values == Seed(peak, kind, now) + EligibleRates(Flatten(devices[..i]), kind, now)
    {
      values := PushRates(values, devices[i], kind, now);
      PushedRates(Seed(peak, kind, now), devices, i, kind, now);
    }
    assert devices[..|devices|] == devices;
    scale := if values == [] then 1.0 else Highest(values);
    HighestIsScale(values, peak, Flatten(devices), kind, now);
  }

  lemma PushedRates(seed: seq<real>, devices: seq<seq<Report>>, i: nat, kind: Kind, now: real)
    requires i < |devices|
    ensures seed + EligibleRates(Flatten(devices[..i]), kind, now) + EligibleRates(devices[i], kind, now)
              == seed + EligibleRates(Flatten(devices[..i + 1]), kind, now)
  {
    var a, b := EligibleRates(Flatten(devices[..i]), kind, now), EligibleRates(devices[i], kind, now);
    FlattenStep(devices, i);
    EligibleRatesConcat(Flatten(devices[..i]), devices[i], kind, now);
    assert seed + a + b == seed + (a + b);
  }

  lemma FlattenStep<T>(xss: seq<seq<T>>, i: nat)
    requires i < |xss|
    ensures Flatten(xss[..i + 1]) == Flatten(xss[..i]) + xss[i]
  {
    assert xss[..i + 1][..i] == xss[..i];
  }

  method PushRates(values: seq<real>, rs: seq<Report>, kind: Kind, now: real) returns (more: seq<real>)
    ensures more == values + EligibleRates(rs, kind, now)
  {
    more := values;
    for j := 0 to |rs|
      invariant more == values + EligibleRates(rs[..j], kind, now)
    {
      if Eligible(rs[j], kind, now) {
        more := more + [rs[j].tps.value];
      }
      assert rs[..j + 1][..j] == rs[..j];
    }
    assert rs[..|rs|] == rs;
  }

  lemma {:induction false} EligibleRatesConcat(a: seq<Report>, b: seq<Report>, kind: Kind, now: real)
    ensures EligibleRates(a + b, kind, now) == EligibleRates(a, kind, now) + EligibleRates(b, kind, now)
    decreases |b|
  {
    if b == [] {
      assert a + b == a;
    } else {
      assert (a + b)[..|a + b| - 1] == a + b[..|b| - 1];
      EligibleRatesConcat(a, b[..|b| - 1], kind, now);
    }
  }

  lemma HighestIsScale(values: seq<real>, peak: Option<Report>, rs: seq<Report>, kind: Kind, now: real)
    requires values == Seed(peak, kind, now) + EligibleRates(rs, kind, now)
    ensures IsScale(if values == [] then 1.0 else Highest(values), peak, rs, kind, now)
  {
    EligibleRatesAre(rs, kind, now);
    assert forall v :: v in values <==> v in Seed(peak, kind, now) || v in EligibleRates(rs, kind, now);
    if peak.Some? && Eligible(peak.value, kind, now) {
      assert peak.value.tps.value in Seed(peak, kind, now);
    }
    forall r <- rs | Eligible(r, kind, now) ensures r.tps.value in values {
      assert r.tps.value in EligibleRates(rs, kind, now);
    }
    if values != [] {
      assert Highest(values) in values;
    }
  }

  function Highest(values: seq<real>): (h: real)
    requires values != []
    ensures h in values && forall v <- values :: v <= h
  {
    if |values| == 1 then values[0]
    else
      var most, last := values[..|values| - 1], values[|values| - 1];
      assert values == most + [last];
      Max(Highest(most), last)
  }
}
