/** The layout of a rate chart: measured runs share the width, every missing interval gets one narrow
    separator. */
module Chart {
  import opened Effects
  import opened Rates

  const LEFT: real := 3.0
  const RIGHT: real := 297.0
  const TOP: real := 8.0
  const BASE: real := 52.0
  const SEPARATOR: real := 8.0

  datatype Point = Point(x: real, y: real)

  datatype Part = Marker(x: real) | Dot(at: Point) | Line(points: seq<Point>) | LastDot(at: Point)

  // ---------------------------------------------------------------------------------------------
  // The samples in the window, in order of time

  predicate Shown(r: Report, kind: Kind, now: real) {
    && r.kind == kind && r.time.Some? && r.tps.Some? && r.tps.value >= 0.0
    && r.time.value <= now && now - r.time.value < WINDOW
  }

  function Pick(series: seq<Report>, kind: Kind, now: real): (picked: seq<Sample>)
    ensures forall s <- picked :: now - WINDOW < s.time <= now && s.tps >= 0.0
  {
    if series == [] then []
    else
      var r := series[0];
      (if Shown(r, kind, now) then [Sample(r.time.value, r.tps.value, r.scope)] else []) + Pick(series[1..], kind, now)
  }

  function Insert(samples: seq<Sample>, s: Sample): (r: seq<Sample>)
    ensures forall x :: x in r <==> x == s || x in samples
    ensures |r| == |samples| + 1
    decreases |samples|
  {
    if samples != [] && s.time < samples[|samples| - 1].time then
      var most, last := samples[..|samples| - 1], samples[|samples| - 1];
      assert samples == most + [last];
      Insert(most, s) + [last]
    else samples + [s]
  }

  /** `sort((a, b) => a.time - b.time)`, which is stable. */
  function Sort(samples: seq<Sample>): (r: seq<Sample>)
    ensures forall x :: x in r <==> x in samples
    ensures |r| == |samples|
  {
    if samples == [] then []
    else
      assert samples == samples[..|samples| - 1] + [samples[|samples| - 1]];
      Insert(Sort(samples[..|samples| - 1]), samples[|samples| - 1])
  }

  lemma {:induction false} InsertTimely(samples: seq<Sample>, s: Sample)
    requires Timely(samples)
    ensures Timely(Insert(samples, s))
    decreases |samples|
  {
    if samples != [] && s.time < samples[|samples| - 1].time {
      var most, last := samples[..|samples| - 1], samples[|samples| - 1];
      InsertTimely(most, s);
      var r := Insert(most, s);
      forall i | 0 <= i < |r| ensures r[i].time <= last.time {
        assert r[i] in r;
      }
    }
  }

  lemma {:induction false} SortTimely(samples: seq<Sample>)
    ensures Timely(Sort(samples))
    decreases |samples|
  {
    if samples != [] {
      SortTimely(samples[..|samples| - 1]);
      InsertTimely(Sort(samples[..|samples| - 1]), samples[|samples| - 1]);
    }
  }

  /** The samples of one moment, in their order. */
  function At(samples: seq<Sample>, t: real): seq<Sample> {
    if samples == [] then []
    else
      var last := samples[|samples| - 1];
      At(samples[..|samples| - 1], t) + (if last.time == t then [last] else [])
  }

  lemma {:induction false} AtOneMore(samples: seq<Sample>, s: Sample, t: real)
    ensures At(samples + [s], t) == At(samples, t) + (if s.time == t then [s] else [])
  {
    assert (samples + [s])[..|samples|] == samples;
  }

  lemma {:induction false} InsertKeepsMoments(samples: seq<Sample>, s: Sample, t: real)
    ensures At(Insert(samples, s), t) == At(samples, t) + (if s.time == t then [s] else [])
    decreases |samples|
  {
    if samples != [] && s.time < samples[|samples| - 1].time {
      var most, last := samples[..|samples| - 1], samples[|samples| - 1];
      InsertKeepsMoments(most, s, t);
      AtOneMore(Insert(most, s), last, t);
    } else {
      AtOneMore(samples, s, t);
    }
  }

  /** Sorting keeps the samples of every moment, and their order: nothing is lost, and it is stable. */
  lemma {:induction false} SortKeepsMoments(samples: seq<Sample>, t: real)
    ensures At(Sort(samples), t) == At(samples, t)
    decreases |samples|
  {
    if samples != [] {
      SortKeepsMoments(samples[..|samples| - 1], t);
      InsertKeepsMoments(Sort(samples[..|samples| - 1]), samples[|samples| - 1], t);
    }
  }

  /** A sample is drawn exactly if a report of its kind has it, with a rate that is not negative, from the
      last fifteen minutes. */
  lemma {:induction false} PickedIff(series: seq<Report>, kind: Kind, now: real, s: Sample)
    ensures s in Pick(series, kind, now) <==>
              && 0.0 <= s.tps && now - 900000.0 < s.time <= now
              && Report(kind, Some(s.time), Some(s.tps), s.scope) in series
  {
    if series != [] {
      PickedIff(series[1..], kind, now, s);
      assert series == [series[0]] + series[1..];
    }
  }

  // ---------------------------------------------------------------------------------------------
  // Measured runs

  function EndTime(g: seq<Sample>): real
    requires g != []
  {
    g[|g| - 1].time
  }

  ghost predicate Run(g: seq<Sample>) {
    g != [] && Timely(g) && forall i :: 0 <= i < |g| - 1 ==> g[i + 1].time - g[i].time <= 90000.0
  }

  /** The runs are the samples, split exactly where more than ninety seconds are missing. */
  ghost predicate Grouped(values: seq<Sample>, groups: seq<seq<Sample>>) {
    Flatten(groups) == values && Apart(groups)
  }

  ghost predicate Apart(groups: seq<seq<Sample>>) {
    && (forall k :: 0 <= k < |groups| ==> Run(groups[k]))
    && (forall k :: 0 <= k < |groups| - 1 ==> groups[k + 1][0].time - EndTime(groups[k]) > 90000.0)
  }

  method GroupRuns(values: seq<Sample>) returns (groups: seq<seq<Sample>>)
    requires Timely(values)
    ensures Grouped(values, groups)
  {
    groups := [];
    for i := 0 to |values|
      invariant Grouped(values[..i], groups)
    {
      var sample := values[i];
      var n := |groups| - 1;
      if n < 0 || sample.time - EndTime(groups[n]) > GAP {
        NewRun(values[..i], groups, sample);
        groups := groups + [[sample]];
      } else {
        LongerRun(values[..i], groups, sample);
        groups := groups[..n] + [groups[n] + [sample]];
      }
      assert values[..i + 1] == values[..i] + [sample];
    }
    assert values[..|values|] == values;
  }

  lemma NewRun(values: seq<Sample>, groups: seq<seq<Sample>>, s: Sample)
    requires Grouped(values, groups) && (groups != [] ==> s.time - EndTime(groups[|groups| - 1]) > GAP)
    ensures Grouped(values + [s], groups + [[s]])
  {
    assert (groups + [[s]])[..|groups|] == groups;
  }

  lemma LongerRun(values: seq<Sample>, groups: seq<seq<Sample>>, s: Sample)
    requires Grouped(values, groups) && groups != [] && Timely(values + [s])
    requires s.time - EndTime(groups[|groups| - 1]) <= GAP
    ensures Grouped(values + [s], groups[..|groups| - 1] + [groups[|groups| - 1] + [s]])
  {
    var n := |groups| - 1;
    var most, last := groups[..n], groups[n];
    var longer := most + [last + [s]];
    assert longer[..n] == most;
    assert Flatten(most) + (last + [s]) == Flatten(most) + last + [s];
    assert values[|values| - 1] == last[|last| - 1];
    assert (values + [s])[|values| - 1].time <= (values + [s])[|values|].time;
    assert Run(last + [s]);
  }

  lemma {:induction false} RunsSpan(groups: seq<seq<Sample>>, k: nat)
    requires k < |groups| && Apart(groups)
    ensures Run(groups[k]) && Run(groups[0]) && EndTime(groups[k]) - groups[0][0].time >= GAP * (k as real)
  {
    assert Run(groups[k]) && groups[k][0].time <= EndTime(groups[k]);
    if k > 0 {
      RunsSpan(groups, k - 1);
    }
  }

  lemma {:induction false} FlattenEnds(groups: seq<seq<Sample>>)
    requires groups != [] && forall k :: 0 <= k < |groups| ==> groups[k] != []
    ensures Flatten(groups) != [] && Flatten(groups)[0] == groups[0][0]
    ensures Flatten(groups)[|Flatten(groups)| - 1] == groups[|groups| - 1][|groups[|groups| - 1]| - 1]
    decreases |groups|
  {
    var most := groups[..|groups| - 1];
    if most == [] {
      assert Flatten(most) == [];
    } else {
      FlattenEnds(most);
    }
  }

  /** The separators: before, between and after the runs. */
  function Gaps(groups: seq<seq<Sample>>, leading: bool, trailing: bool): nat {
    (if |groups| > 0 then |groups| - 1 else 0) + (if leading then 1 else 0) + (if trailing then 1 else 0)
  }

  /** Each missing interval is longer than ninety seconds, and the window has only fifteen minutes. */
  lemma AtMostNineGaps(values: seq<Sample>, groups: seq<seq<Sample>>, now: real)
    requires Grouped(values, groups) && values != []
    requires forall s <- values :: now - WINDOW < s.time <= now
    ensures Gaps(groups, Leading(values, now), Trailing(values, now)) <= 9
  {
    assert groups == [] ==> Flatten(groups) == [];
    var first, last := values[0], values[|values| - 1];
    assert first in values && last in values;
    assert last.time - first.time >= GAP * ((|groups| - 1) as real) by {
      FlattenEnds(groups);
      RunsSpan(groups, |groups| - 1);
    }
    CountGaps(|groups| - 1, first.time - (now - WINDOW), last.time - first.time, now - last.time);
  }

  lemma CountGaps(between: nat, before: real, span: real, after: real)
    requires before > 0.0 && after >= 0.0 && span >= GAP * (between as real) && before + span + after == WINDOW
    ensures between + (if before > GAP then 1 else 0) + (if after > GAP then 1 else 0) <= 9
  {
  }

  // ---------------------------------------------------------------------------------------------
  // Heights

  function Height(tps: real, max: real): real
    requires max > 0.0
  {
    BASE - tps / max * 44.0
  }

  /** No rate is on the base line, the scale on the top line, and equal steps are equal heights. */
  lemma HeightIsLinear(a: real, b: real, c: real, d: real, max: real)
    requires max > 0.0
    ensures Height(0.0, max) == 52.0 && Height(max, max) == 8.0
    ensures a - b == c - d ==> Height(a, max) - Height(b, max) == Height(c, max) - Height(d, max)
  {
    assert max / max == 1.0;
    assert Height(a, max) - Height(b, max) == -((a - b) / max * 44.0);
    assert Height(c, max) - Height(d, max) == -((c - d) / max * 44.0);
  }

  /** A rate up to the scale is drawn between the lines for zero and for the scale. */
  lemma HeightFits(tps: real, max: real)
    requires max > 0.0 && 0.0 <= tps
    ensures Height(tps, max) <= BASE && (tps <= max ==> TOP <= Height(tps, max))
  {
    assert 0.0 <= tps / max;
    assert tps <= max ==> tps / max <= 1.0;
  }

  ghost function RunHeights(g: seq<Sample>, max: real): seq<real>
    requires max > 0.0
  {
    SmoothedAt(g, |g|);
    seq(|g|, i requires 0 <= i < |g| => Height(Smoothed(g, |g|)[i].tps, max))
  }

  ghost function Heights(groups: seq<seq<Sample>>, n: nat, max: real): seq<real>
    requires n <= |groups| && max > 0.0
  {
    if n == 0 then [] else Heights(groups, n - 1, max) + RunHeights(groups[n - 1], max)
  }

  /** The heights of the drawn samples, from left to right. */
  function Drawn(parts: seq<Part>): seq<real> {
    if parts == [] then []
    else Drawn(parts[..|parts| - 1]) + DrawnBy(parts[|parts| - 1])
  }

  function DrawnBy(part: Part): seq<real> {
    match part
    case Dot(at) => [at.y]
    case Line(points) => seq(|points|, i requires 0 <= i < |points| => points[i].y)
    case _ => []
  }

  // ---------------------------------------------------------------------------------------------
  // Places

  ghost predicate InBox(p: Point, lo: real, hi: real, fits: bool) {
    lo <= p.x <= hi && p.y <= BASE && (fits ==> TOP <= p.y)
  }

  /** A part lies between two places, and its points go from left to right. */
  ghost predicate Placed(part: Part, lo: real, hi: real, fits: bool) {
    && lo <= hi
    && match part
      case Marker(x) => lo <= x <= hi
      case Dot(at) => InBox(at, lo, hi, fits)
      case LastDot(at) => InBox(at, lo, hi, fits)
      case Line(points) =>
        && (forall i :: 0 <= i < |points| ==> InBox(points[i], lo, hi, fits))
        && (forall i, j :: 0 <= i < j < |points| ==> points[i].x <= points[j].x)
  }

  /** Each part begins where the one before it ended, or further right. */
  ghost predicate Laid(parts: seq<Part>, cuts: seq<real>, fits: bool) {
    && |cuts| == |parts| + 1 && cuts[0] == LEFT
    && forall k :: 0 <= k < |parts| ==> Placed(parts[k], cuts[k], cuts[k + 1], fits)
  }

  lemma LayOne(parts: seq<Part>, cuts: seq<real>, fits: bool, part: Part, hi: real)
    requires Laid(parts, cuts, fits) && Placed(part, cuts[|parts|], hi, fits)
    ensures Laid(parts + [part], cuts + [hi], fits) && Drawn(parts + [part]) == Drawn(parts) + DrawnBy(part)
  {
    assert (parts + [part])[..|parts|] == parts;
  }

  function Total(ds: seq<real>): real {
    if ds == [] then 0.0 else Total(ds[..|ds| - 1]) + ds[|ds| - 1]
  }

  function Duration(g: seq<Sample>): real
    requires g != []
  {
    Max(1.0, EndTime(g) - g[0].time)
  }

  function Scaled(part: real, whole: real, width: real): real
    requires whole > 0.0
  {
    part / whole * width
  }

  lemma Fraction(part: real, whole: real, width: real)
    requires 0.0 <= part <= whole && whole > 0.0 && width >= 0.0
    ensures 0.0 <= Scaled(part, whole, width) <= width
  {
    assert 0.0 <= part / whole <= 1.0;
  }

  lemma FractionGrows(a: real, b: real, whole: real, width: real)
    requires a <= b && whole > 0.0 && width >= 0.0
    ensures Scaled(a, whole, width) <= Scaled(b, whole, width)
  {
    assert a / whole <= b / whole;
  }

  function PlaceOf(s: Sample, start: real, cursor: real, width: real, duration: real): real
    requires duration > 0.0
  {
    cursor + Scaled(s.time - start, duration, width)
  }

  ghost function Places(g: seq<Sample>, n: nat, cursor: real, width: real, duration: real): seq<real>
    requires n <= |g| && duration > 0.0
  {
    if n == 0 then [] else Places(g, n - 1, cursor, width, duration) + [PlaceOf(g[n - 1], g[0].time, cursor, width, duration)]
  }

  lemma PlaceGrows(a: Sample, b: Sample, start: real, cursor: real, width: real, duration: real)
    requires start <= a.time <= b.time && b.time - start <= duration && duration > 0.0 && width >= 0.0
    ensures cursor <= PlaceOf(a, start, cursor, width, duration) <= PlaceOf(b, start, cursor, width, duration) <= cursor + width
  {
    Fraction(a.time - start, duration, width);
    Fraction(b.time - start, duration, width);
    FractionGrows(a.time - start, b.time - start, duration, width);
  }

  /** Places grow with time, from the cursor to the end of the run's share at most. */
  lemma {:induction false} PlacesInOrder(g: seq<Sample>, n: nat, cursor: real, width: real, duration: real)
    requires 0 < n <= |g| && Timely(g) && width >= 0.0 && duration >= 1.0 && duration >= EndTime(g) - g[0].time
    ensures var xs := Places(g, n, cursor, width, duration);
      && |xs| == n && xs[n - 1] == PlaceOf(g[n - 1], g[0].time, cursor, width, duration)
      && (forall i :: 0 <= i < n ==> cursor <= xs[i] <= xs[n - 1]) && xs[n - 1] <= cursor + width
      && (forall i, j :: 0 <= i < j < n ==> xs[i] <= xs[j])
  {
    assert g[n - 1].time <= EndTime(g) && g[0].time <= g[n - 1].time;
    PlaceGrows(g[n - 1], g[n - 1], g[0].time, cursor, width, duration);
    if n > 1 {
      PlacesInOrder(g, n - 1, cursor, width, duration);
      assert g[0].time <= g[n - 2].time <= g[n - 1].time;
      PlaceGrows(g[n - 2], g[n - 1], g[0].time, cursor, width, duration);
    }
  }

  ghost predicate Plots(points: seq<Point>, xs: seq<real>, ys: seq<real>) {
    |points| == |xs| == |ys| && forall k :: 0 <= k < |points| ==> points[k] == Point(xs[k], ys[k])
  }

  function Plot(xs: seq<real>, ys: seq<real>): seq<Point>
    requires |xs| == |ys|
  {
    seq(|xs|, i requires 0 <= i < |xs| => Point(xs[i], ys[i]))
  }

  lemma {:induction false} PlacesSize(g: seq<Sample>, n: nat, cursor: real, width: real, duration: real)
    requires n <= |g| && duration > 0.0
    ensures |Places(g, n, cursor, width, duration)| == n
  {
    if n > 0 {
      PlacesSize(g, n - 1, cursor, width, duration);
    }
  }

  /** How one measured run looks: a dot in the middle of its share, or a line through all its samples. */
  ghost function RunPart(g: seq<Sample>, cursor: real, width: real, max: real): Part
    requires g != [] && max > 0.0
  {
    PlacesSize(g, |g|, cursor, width, Duration(g));
    var ys := RunHeights(g, max);
    if |g| == 1 then Dot(Point(cursor + width / 2.0, ys[0]))
    else Line(Plot(Places(g, |g|, cursor, width, Duration(g)), ys))
  }

  lemma {:induction false} PlacesAt(g: seq<Sample>, n: nat, cursor: real, width: real, duration: real, k: nat)
    requires k < n <= |g| && duration > 0.0
    ensures k < |Places(g, n, cursor, width, duration)|
    ensures Places(g, n, cursor, width, duration)[k] == PlaceOf(g[k], g[0].time, cursor, width, duration)
  {
    PlacesSize(g, n - 1, cursor, width, duration);
    if k < n - 1 {
      PlacesAt(g, n - 1, cursor, width, duration, k);
    }
  }

  lemma ScaledIs(part: real, whole: real, width: real)
    requires whole > 0.0
    ensures Scaled(part, whole, width) * whole == part * width
  {
    assert part / whole * whole == part;
  }

  /** A run is drawn to scale: distances from the left end of its share are as the times from its first
      sample, the whole share being the run's duration, which is never taken to be less than one; a
      single sample is in the middle. Each is at the height of the mean of what counts for it. */
  lemma RunToScale(g: seq<Sample>, cursor: real, width: real, max: real, k: nat)
    requires g != [] && max > 0.0 && k < |g|
    ensures
      var part := RunPart(g, cursor, width, max);
      var y := Height(Max(0.0, Mean(g, k)), max);
      if |g| == 1 then part == Dot(Point(cursor + width / 2.0, y))
      else
        var duration := if g[|g| - 1].time - g[0].time < 1.0 then 1.0 else g[|g| - 1].time - g[0].time;
        && part.Line? && |part.points| == |g| && part.points[k].y == y
        && (part.points[k].x - cursor) * duration == (g[k].time - g[0].time) * width
  {
    SmoothedAt(g, |g|);
    PlacesSize(g, |g|, cursor, width, Duration(g));
    PlacesAt(g, |g|, cursor, width, Duration(g), k);
    ScaledIs(g[k].time - g[0].time, Duration(g), width);
    ScaledIs(1.0, 1.0, width);
  }

  function EndPoint(part: Part): Point {
    match part
    case Marker(x) => Point(x, BASE)
    case Dot(at) => at
    case LastDot(at) => at
    case Line(points) => if points == [] then Point(LEFT, BASE) else points[|points| - 1]
  }

  /** One measured run: smoothed, placed by time, and never wider than its share. */
  method DrawRun(g: seq<Sample>, cursor: real, width: real, max: real, ghost fits: bool) returns (part: Part, last: Point)
    requires g != [] && Timely(g) && max > 0.0 && width >= 0.0
    requires forall s <- g :: 0.0 <= s.tps && (fits ==> s.tps <= max)
    ensures part == RunPart(g, cursor, width, max) && last == EndPoint(part)
    ensures Placed(part, cursor, last.x, fits) && last.x <= cursor + width && InBox(last, cursor, last.x, fits)
    ensures DrawnBy(part) == RunHeights(g, max) && (part.Dot? || part.Line?)
  {
    var group := SmoothRates(g);
    var duration := Duration(g);
    SmoothedAt(g, |g|);
    SmoothedFits(g, max, fits);
    PlacesSize(g, |g|, cursor, width, duration);
    if |g| == 1 {
      last := Point(cursor + width / 2.0, Height(group[0].tps, max));
      part := Dot(last);
      assert RunHeights(g, max) == [last.y];
    } else {
      var points := PlotRun(g, group, cursor, width, duration, max);
      PlacesInOrder(g, |g|, cursor, width, duration);
      PlotHeights(points, Places(g, |g|, cursor, width, duration), RunHeights(g, max));
      last := points[|points| - 1];
      part := Line(points);
    }
  }

  lemma PlotHeights(points: seq<Point>, xs: seq<real>, ys: seq<real>)
    requires Plots(points, xs, ys)
    ensures DrawnBy(Line(points)) == ys && points == Plot(xs, ys)
  {
  }

  method PlotRun(g: seq<Sample>, group: seq<Sample>, cursor: real, width: real, duration: real, max: real)
      returns (points: seq<Point>)
    requires |group| == |g| && max > 0.0 && duration > 0.0
    requires forall i :: 0 <= i < |g| ==> group[i].time == g[i].time
    ensures Plots(points, Places(g, |g|, cursor, width, duration), seq(|g|, i requires 0 <= i < |g| => Height(group[i].tps, max)))
  {
    points := [];
    ghost var ys: seq<real> := [];
    for i := 0 to |group|
      invariant Plots(points, Places(g, i, cursor, width, duration), ys) && |ys| == i
      invariant forall k :: 0 <= k < i ==> ys[k] == Height(group[k].tps, max)
    {
      points := points + [Point(PlaceOf(group[i], group[0].time, cursor, width, duration), Height(group[i].tps, max))];
      ys := ys + [Height(group[i].tps, max)];
    }
    assert ys == seq(|g|, i requires 0 <= i < |g| => Height(group[i].tps, max));
  }

  lemma {:induction false} SmoothedFits(g: seq<Sample>, max: real, fits: bool)
    requires max > 0.0 && forall s <- g :: 0.0 <= s.tps && (fits ==> s.tps <= max)
    ensures |Smoothed(g, |g|)| == |g|
    ensures forall i :: 0 <= i < |g| ==>
              && Smoothed(g, |g|)[i].time == g[i].time
              && Height(Smoothed(g, |g|)[i].tps, max) <= BASE && (fits ==> TOP <= Height(Smoothed(g, |g|)[i].tps, max))
  {
    SmoothedAt(g, |g|);
    forall i: nat | i < |g|
      ensures var h := Height(Smoothed(g, |g|)[i].tps, max); h <= BASE && (fits ==> TOP <= h)
    {
      HeightFits(Max(0.0, Mean(g, i)), max);
      if fits {
        MeanBounded(g, i, max);
      }
    }
  }

  // ---------------------------------------------------------------------------------------------
  // The chart

  ghost predicate NoneEmpty(groups: seq<seq<Sample>>) {
    forall k :: 0 <= k < |groups| ==> groups[k] != []
  }

  function Durations(groups: seq<seq<Sample>>, n: nat): (ds: seq<real>)
    requires n <= |groups| && NoneEmpty(groups)
    ensures |ds| == n && forall k :: 0 <= k < n ==> ds[k] == Duration(groups[k])
  {
    if n == 0 then [] else Durations(groups, n - 1) + [Duration(groups[n - 1])]
  }

  function Share(available: real, d: real, total: real): real
    requires total > 0.0
  {
    available * d / total
  }

  /** Every run gets the part of the space that its duration is of all durations. */
  function Shares(durations: seq<real>, available: real, total: real): seq<real>
    requires total > 0.0
  {
    if durations == [] then []
    else Shares(durations[..|durations| - 1], available, total) + [Share(available, durations[|durations| - 1], total)]
  }

  lemma TotalAppend(ds: seq<real>, d: real)
    ensures Total(ds + [d]) == Total(ds) + d
  {
    assert (ds + [d])[..|ds|] == ds;
  }

  lemma {:induction false} DurationsTotal(groups: seq<seq<Sample>>, n: nat)
    requires n <= |groups| && NoneEmpty(groups)
    ensures Total(Durations(groups, n)) >= n as real
  {
    if n > 0 {
      DurationsTotal(groups, n - 1);
      TotalAppend(Durations(groups, n - 1), Duration(groups[n - 1]));
    }
  }

  lemma SharesAdd(available: real, sum: real, d: real, total: real)
    requires total > 0.0
    ensures Share(available, sum, total) + Share(available, d, total) == Share(available, sum + d, total)
  {
    assert available * (sum + d) == available * sum + available * d;
  }

  lemma {:induction false} SharesTotal(durations: seq<real>, available: real, total: real)
    requires total > 0.0
    ensures |Shares(durations, available, total)| == |durations|
    ensures Total(Shares(durations, available, total)) == Share(available, Total(durations), total)
    decreases |durations|
  {
    if durations != [] {
      var most, last := durations[..|durations| - 1], durations[|durations| - 1];
      SharesTotal(most, available, total);
      SharesAdd(available, Total(most), last, total);
      TotalAppend(Shares(most, available, total), Share(available, last, total));
    }
  }

  lemma Whole(available: real, total: real)
    requires total > 0.0
    ensures Share(available, total, total) == available
  {
  }

  lemma Positive(available: real, d: real, total: real)
    requires available > 0.0 && d > 0.0 && total > 0.0
    ensures Share(available, d, total) > 0.0
  {
    assert available * d > 0.0;
  }

  lemma {:induction false} SharesArePositive(durations: seq<real>, available: real, total: real)
    requires available > 0.0 && total > 0.0 && forall k :: 0 <= k < |durations| ==> durations[k] > 0.0
    ensures |Shares(durations, available, total)| == |durations|
    ensures forall k :: 0 <= k < |durations| ==> Shares(durations, available, total)[k] > 0.0
    decreases |durations|
  {
    if durations != [] {
      SharesArePositive(durations[..|durations| - 1], available, total);
      Positive(available, durations[|durations| - 1], total);
    }
  }

  /** The runs and the separators fill the space between the margins exactly. */
  lemma SharesFill(groups: seq<seq<Sample>>, available: real)
    requires groups != [] && NoneEmpty(groups)
    ensures var ds := Durations(groups, |groups|); Total(ds) > 0.0 && Total(Shares(ds, available, Total(ds))) == available
  {
    var ds := Durations(groups, |groups|);
    DurationsTotal(groups, |groups|);
    SharesTotal(ds, available, Total(ds));
    Whole(available, Total(ds));
  }

  function Markers(parts: seq<Part>): nat {
    if parts == [] then 0 else Markers(parts[..|parts| - 1]) + (if parts[|parts| - 1].Marker? then 1 else 0)
  }

  lemma MarkOne(parts: seq<Part>, part: Part)
    ensures Markers(parts + [part]) == Markers(parts) + (if part.Marker? then 1 else 0)
  {
    assert (parts + [part])[..|parts|] == parts;
  }

  /** The highest rate shown, at least 1. */
  function Ceiling(ceiling: Option<real>, values: seq<Sample>): (max: real)
    ensures max > 0.0
    ensures !(ceiling.Some? && ceiling.value > 0.0) ==> forall s <- values :: s.tps <= max
    ensures !(ceiling.Some? && ceiling.value > 0.0) ==> max == 1.0 || exists s <- values :: s.tps == max
    ensures ceiling.Some? && ceiling.value > 0.0 ==> max == ceiling.value
  {
    if ceiling.Some? && ceiling.value > 0.0 then ceiling.value else Top(values)
  }

  function Top(values: seq<Sample>): (max: real)
    ensures max >= 1.0 && forall s <- values :: s.tps <= max
    ensures max == 1.0 || exists s <- values :: s.tps == max
  {
    if values == [] then 1.0
    else
      assert values == values[..|values| - 1] + [values[|values| - 1]];
      Max(Top(values[..|values| - 1]), values[|values| - 1].tps)
  }

  ghost predicate Bounded(values: seq<Sample>, max: real) {
    forall s <- values :: s.tps <= max
  }

  /** The shared scale bounds every sample of every device's chart. */
  lemma ScaleBounds(scale: real, peak: Option<Report>, devices: seq<seq<Report>>, d: nat, kind: Kind, now: real)
    requires IsScale(scale, peak, Flatten(devices), kind, now) && d < |devices|
    ensures Bounded(Sort(Pick(devices[d], kind, now)), Ceiling(Some(scale), Sort(Pick(devices[d], kind, now))))
  {
    FlattenMembers(devices, d);
    PickMembers(devices[d], kind, now);
  }

  lemma {:induction false} FlattenMembers<T>(xss: seq<seq<T>>, d: nat)
    requires d < |xss|
    ensures forall x <- xss[d] :: x in Flatten(xss)
    decreases |xss|
  {
    if d < |xss| - 1 {
      FlattenMembers(xss[..|xss| - 1], d);
    }
  }

  lemma {:induction false} PickMembers(series: seq<Report>, kind: Kind, now: real)
    ensures forall s <- Pick(series, kind, now) :: exists r <- series :: Shown(r, kind, now) && r.tps == Some(s.tps)
  {
    if series != [] {
      PickMembers(series[1..], kind, now);
      assert series == [series[0]] + series[1..];
    }
  }

  lemma {:induction false} GroupMembers(groups: seq<seq<Sample>>, values: seq<Sample>)
    requires Flatten(groups) == values
    ensures forall g <- groups, s <- g :: s in values
    decreases |groups|
  {
    forall g <- groups, s <- g ensures s in values {
      var d :| 0 <= d < |groups| && groups[d] == g;
      FlattenMembers(groups, d);
    }
  }

  /** The cursor has passed every separator and every run drawn so far. */
  ghost predicate Drawing(parts: seq<Part>, cuts: seq<real>, cursor: real, widths: seq<real>, fits: bool) {
    && Laid(parts, cuts, fits) && cuts[|parts|] <= cursor
    && cursor == LEFT + SEPARATOR * (Markers(parts) as real) + Total(widths)
  }

  /** A separator has the width of eight, with its line in the middle. */
  lemma DrawMarker(parts: seq<Part>, cuts: seq<real>, cursor: real, widths: seq<real>, fits: bool)
    requires Drawing(parts, cuts, cursor, widths, fits)
    ensures
      var part := Marker(cursor + SEPARATOR / 2.0);
      && Drawing(parts + [part], cuts + [cursor + SEPARATOR], cursor + SEPARATOR, widths, fits)
      && Drawn(parts + [part]) == Drawn(parts)
  {
    var part := Marker(cursor + SEPARATOR / 2.0);
    LayOne(parts, cuts, fits, part, cursor + SEPARATOR);
    MarkOne(parts, part);
    assert Drawn(parts) + [] == Drawn(parts);
  }

  lemma DrawPart(parts: seq<Part>, cuts: seq<real>, cursor: real, widths: seq<real>, fits: bool, part: Part, hi: real, width: real)
    requires Drawing(parts, cuts, cursor, widths, fits) && !part.Marker?
    requires Placed(part, cursor, hi, fits) && hi <= cursor + width
    ensures Drawing(parts + [part], cuts + [hi], cursor + width, widths + [width], fits)
    ensures Drawn(parts + [part]) == Drawn(parts) + DrawnBy(part)
  {
    PlacedLower(part, cuts[|parts|], cursor, hi, fits);
    LayOne(parts, cuts, fits, part, hi);
    MarkOne(parts, part);
    assert (widths + [width])[..|widths|] == widths;
  }

  lemma PlacedLower(part: Part, lower: real, lo: real, hi: real, fits: bool)
    requires Placed(part, lo, hi, fits) && lower <= lo
    ensures Placed(part, lower, hi, fits)
  {
  }

  /** One run, placed and counted. */
  method AddRun(parts: seq<Part>, cursor: real, widths: seq<real>, ghost cuts: seq<real>,
                g: seq<Sample>, width: real, max: real, ghost fits: bool)
      returns (drawn: seq<Part>, next: real, last: Point, ghost ends: seq<real>)
    requires Drawing(parts, cuts, cursor, widths, fits)
    requires g != [] && Timely(g) && max > 0.0 && width > 0.0
    requires forall s <- g :: 0.0 <= s.tps && (fits ==> s.tps <= max)
    ensures Drawing(drawn, ends, next, widths + [width], fits)
    ensures Markers(drawn) == Markers(parts) && Drawn(drawn) == Drawn(parts) + RunHeights(g, max)
    ensures drawn == parts + [RunPart(g, cursor, width, max)] && last == EndPoint(drawn[|drawn| - 1])
    ensures InBox(last, ends[|drawn|], ends[|drawn|], fits)
  {
    var part;
    part, last := DrawRun(g, cursor, width, max, fits);
    DrawPart(parts, cuts, cursor, widths, fits, part, last.x, width);
    MarkOne(parts, part);
    drawn, ends, next := parts + [part], cuts + [last.x], cursor + width;
  }

  /** One separator, placed and counted. */
  method AddMarker(parts: seq<Part>, cursor: real, ghost widths: seq<real>, ghost cuts: seq<real>, ghost fits: bool)
      returns (drawn: seq<Part>, next: real, ghost ends: seq<real>)
    requires Drawing(parts, cuts, cursor, widths, fits)
    ensures Drawing(drawn, ends, next, widths, fits) && ends[|drawn|] == next
    ensures drawn == parts + [Marker(cursor + SEPARATOR / 2.0)]
    ensures Markers(drawn) == Markers(parts) + 1 && Drawn(drawn) == Drawn(parts)
  {
    DrawMarker(parts, cuts, cursor, widths, fits);
    MarkOne(parts, Marker(cursor + SEPARATOR / 2.0));
    drawn, ends := parts + [Marker(cursor + SEPARATOR / 2.0)], cuts + [cursor + SEPARATOR];
    next := cursor + SEPARATOR;
  }

  /** Some runs of a chart, and what it takes to draw them. */
  ghost predicate Drawable(groups: seq<seq<Sample>>, shares: seq<real>, max: real, fits: bool) {
    && max > 0.0 && |shares| == |groups|
    && forall k :: 0 <= k < |groups| ==>
         && groups[k] != [] && Timely(groups[k]) && shares[k] > 0.0
         && forall s <- groups[k] :: 0.0 <= s.tps && (fits ==> s.tps <= max)
  }

  /** Where run `i` begins: after every separator and every run before it. */
  function CursorAt(shares: seq<real>, leading: bool, i: nat): real
    requires i <= |shares|
  {
    LEFT + SEPARATOR * ((i + if leading then 1 else 0) as real) + Total(shares[..i])
  }

  function IndexOf(leading: bool, i: nat): nat {
    2 * i + if leading then 1 else 0
  }

  /** Run after run, each in its place, with a separator before each but the first. */
  ghost predicate Exact(n: nat, groups: seq<seq<Sample>>, shares: seq<real>, leading: bool, max: real, parts: seq<Part>)
    requires max > 0.0 && n <= |groups| == |shares|
  {
    && |parts| >= (if n == 0 then IndexOf(leading, 0) else IndexOf(leading, n - 1) + 1)
    && (leading ==> parts[0] == Marker(LEFT + SEPARATOR / 2.0))
    && forall i: nat :: i < n ==> ExactAt(i, groups, shares, leading, max, parts)
  }

  ghost predicate ExactAt(i: nat, groups: seq<seq<Sample>>, shares: seq<real>, leading: bool, max: real, parts: seq<Part>)
    requires max > 0.0 && i < |groups| == |shares|
  {
    && groups[i] != [] && IndexOf(leading, i) < |parts|
    && parts[IndexOf(leading, i)] == RunPart(groups[i], CursorAt(shares, leading, i), shares[i], max)
    && (i > 0 ==> parts[IndexOf(leading, i) - 1] == Marker(CursorAt(shares, leading, i) - SEPARATOR / 2.0))
  }

  /** What a finished chart is like: every part in its place and between the margins, at most nine
      separators, every sample drawn at its smoothed height, and the space used up exactly. */
  ghost predicate Finished(parts: seq<Part>, cuts: seq<real>, groups: seq<seq<Sample>>, widths: seq<real>,
                           leading: bool, trailing: bool, max: real, fits: bool)
    requires max > 0.0
  {
    var gaps := Gaps(groups, leading, trailing);
    && Laid(parts, cuts, fits) && cuts[|parts|] <= RIGHT
    && Markers(parts) == gaps <= 9 && Drawn(parts) == Heights(groups, |groups|, max)
    && |widths| == |groups| && Total(widths) + 8.0 * (gaps as real) == 294.0
    && Proportional(groups, widths)
    && Exact(|groups|, groups, widths, leading, max, parts)
    && groups != [] && |parts| == IndexOf(leading, |groups| - 1) + 2
    && parts[|parts| - 1] == if trailing then Marker(293.0) else LastDot(EndPoint(parts[|parts| - 2]))
  }

  /** The runs share the space in proportion to their durations. */
  ghost predicate Proportional(groups: seq<seq<Sample>>, widths: seq<real>) {
    && |widths| == |groups| && NoneEmpty(groups)
    && (forall i :: 0 <= i < |widths| ==> widths[i] > 0.0)
    && forall i, j :: 0 <= i < |widths| && 0 <= j < |widths| ==> SameRatio(widths[i], groups[i], widths[j], groups[j])
  }

  predicate SameRatio(width: real, g: seq<Sample>, other: real, h: seq<Sample>)
    requires g != [] && h != []
  {
    width * Duration(h) == other * Duration(g)
  }

  /** The first `n` runs are drawn. */
  ghost predicate DrawnTo(n: nat, groups: seq<seq<Sample>>, shares: seq<real>, leading: bool, max: real, fits: bool,
                          parts: seq<Part>, cuts: seq<real>, cursor: real, widths: seq<real>, last: Point)
    requires max > 0.0 && n <= |groups| == |shares|
  {
    && Drawing(parts, cuts, cursor, widths, fits)
    && Markers(parts) == (if leading then 1 else 0) + (if n > 0 then n - 1 else 0)
    && Drawn(parts) == Heights(groups, n, max) && widths == shares[..n]
    && Exact(n, groups, shares, leading, max, parts)
    && |parts| == (if n == 0 then IndexOf(leading, 0) else IndexOf(leading, n - 1) + 1)
    && (n > 0 ==> InBox(last, cuts[|parts|], cuts[|parts|], fits) && last == EndPoint(parts[|parts| - 1]))
  }

  lemma ExactGrows(n: nat, groups: seq<seq<Sample>>, shares: seq<real>, leading: bool, max: real, parts: seq<Part>,
                   between: seq<Part>, part: Part)
    requires max > 0.0 && n < |groups| == |shares| && Exact(n, groups, shares, leading, max, parts)
    requires |parts| == (if n == 0 then IndexOf(leading, 0) else IndexOf(leading, n - 1) + 1)
    requires between == Between(shares, leading, n)
    requires groups[n] != [] && part == RunPart(groups[n], CursorAt(shares, leading, n), shares[n], max)
    ensures Exact(n + 1, groups, shares, leading, max, parts + between + [part])
  {
    var more := parts + between + [part];
    MorePartsKeep(n, groups, shares, leading, max, parts, between + [part]);
    assert parts + (between + [part]) == more;
    assert ExactAt(n, groups, shares, leading, max, more);
  }

  lemma MorePartsKeep(n: nat, groups: seq<seq<Sample>>, shares: seq<real>, leading: bool, max: real, parts: seq<Part>, more: seq<Part>)
    requires max > 0.0 && n <= |groups| == |shares| && Exact(n, groups, shares, leading, max, parts)
    ensures Exact(n, groups, shares, leading, max, parts + more)
  {
    forall i: nat | i < n ensures ExactAt(i, groups, shares, leading, max, parts + more) {
      assert ExactAt(i, groups, shares, leading, max, parts);
    }
  }

  /** What is drawn between run `n` and what is before it. */
  function Between(shares: seq<real>, leading: bool, n: nat): seq<Part>
    requires n <= |shares|
  {
    if n == 0 then [] else [Marker(CursorAt(shares, leading, n) - SEPARATOR / 2.0)]
  }

  lemma CursorIsAt(shares: seq<real>, leading: bool, n: nat, parts: seq<Part>, cuts: seq<real>, cursor: real, widths: seq<real>, fits: bool)
    requires n <= |shares| && widths == shares[..n] && Drawing(parts, cuts, cursor, widths, fits)
    requires Markers(parts) == n + if leading then 1 else 0
    ensures cursor == CursorAt(shares, leading, n)
  {
  }

  /** A separator, unless run `n` is the first. */
  method Separate(n: nat, ghost shares: seq<real>, ghost leading: bool, ghost fits: bool,
                  parts: seq<Part>, cursor: real, ghost widths: seq<real>, ghost cuts: seq<real>)
      returns (drawn: seq<Part>, next: real, ghost ends: seq<real>)
    requires n <= |shares| && widths == shares[..n] && Drawing(parts, cuts, cursor, widths, fits)
    requires Markers(parts) == (if leading then 1 else 0) + (if n > 0 then n - 1 else 0)
    ensures Drawing(drawn, ends, next, widths, fits) && next == CursorAt(shares, leading, n)
    ensures drawn == parts + Between(shares, leading, n) && Drawn(drawn) == Drawn(parts)
    ensures Markers(drawn) == n + if leading then 1 else 0
  {
    drawn, next, ends := parts, cursor, cuts;
    if n > 0 {
      drawn, next, ends := AddMarker(parts, cursor, widths, cuts, fits);
      assert next == cursor + SEPARATOR;
    }
    CursorIsAt(shares, leading, n, drawn, ends, next, widths, fits);
  }

  /** One more run, with a separator before it unless it is the first. */
  method DrawNext(n: nat, groups: seq<seq<Sample>>, shares: seq<real>, ghost leading: bool, max: real, ghost fits: bool,
                  parts: seq<Part>, cursor: real, widths: seq<real>, ghost last: Point, ghost cuts: seq<real>)
      returns (drawn: seq<Part>, next: real, more: seq<real>, point: Point, ghost ends: seq<real>)
    requires Drawable(groups, shares, max, fits) && n < |groups|
    requires DrawnTo(n, groups, shares, leading, max, fits, parts, cuts, cursor, widths, last)
    ensures DrawnTo(n + 1, groups, shares, leading, max, fits, drawn, ends, next, more, point)
  {
    drawn, next, ends := Separate(n, shares, leading, fits, parts, cursor, widths, cuts);
    ExactGrows(n, groups, shares, leading, max, parts, Between(shares, leading, n), RunPart(groups[n], next, shares[n], max));
    drawn, next, point, ends := AddRun(drawn, next, widths, ends, groups[n], shares[n], max, fits);
    more := widths + [shares[n]];
    Prefix(shares, n);
    RunIsDrawn(n, groups, shares, leading, max, fits, drawn, ends, next, more, point);
  }

  lemma RunIsDrawn(n: nat, groups: seq<seq<Sample>>, shares: seq<real>, leading: bool, max: real, fits: bool,
                   drawn: seq<Part>, ends: seq<real>, next: real, more: seq<real>, point: Point)
    requires max > 0.0 && n < |groups| == |shares| && Drawing(drawn, ends, next, more, fits) && more == shares[..n + 1]
    requires Markers(drawn) == n + (if leading then 1 else 0) && |drawn| == IndexOf(leading, n) + 1
    requires Drawn(drawn) == Heights(groups, n, max) + RunHeights(groups[n], max)
    requires Exact(n + 1, groups, shares, leading, max, drawn)
    requires InBox(point, ends[|drawn|], ends[|drawn|], fits) && point == EndPoint(drawn[|drawn| - 1])
    ensures DrawnTo(n + 1, groups, shares, leading, max, fits, drawn, ends, next, more, point)
  {
  }

  lemma Prefix(shares: seq<real>, n: nat)
    requires n < |shares|
    ensures shares[..n + 1] == shares[..n] + [shares[n]] && shares[..|shares|] == shares
  {
  }

  /** The margin, and a separator if the window begins without samples. */
  method Begin(groups: seq<seq<Sample>>, shares: seq<real>, leading: bool, max: real, ghost fits: bool)
      returns (parts: seq<Part>, cursor: real, ghost cuts: seq<real>)
    requires max > 0.0 && |shares| == |groups|
    ensures DrawnTo(0, groups, shares, leading, max, fits, parts, cuts, cursor, [], Point(0.0, 0.0))
  {
    parts, cursor, cuts := [], LEFT, [LEFT];
    assert Laid(parts, cuts, fits) && Markers(parts) == 0 && Total([]) == 0.0;
    if leading {
      parts, cursor, cuts := AddMarker(parts, cursor, [], cuts, fits);
    }
    NoRunDrawn(groups, shares, leading, max, fits, parts, cuts, cursor);
  }

  lemma NoRunDrawn(groups: seq<seq<Sample>>, shares: seq<real>, leading: bool, max: real, fits: bool,
                   parts: seq<Part>, cuts: seq<real>, cursor: real)
    requires max > 0.0 && |shares| == |groups| && Drawing(parts, cuts, cursor, [], fits) && Drawn(parts) == []
    requires parts == if leading then [Marker(LEFT + SEPARATOR / 2.0)] else []
    requires Markers(parts) == |parts|
    ensures DrawnTo(0, groups, shares, leading, max, fits, parts, cuts, cursor, [], Point(0.0, 0.0))
  {
    assert shares[..0] == [];
  }

  /** All measured runs of the window, from left to right. */
  method DrawRuns(groups: seq<seq<Sample>>, shares: seq<real>, leading: bool, max: real, ghost fits: bool)
      returns (parts: seq<Part>, cursor: real, widths: seq<real>, last: Point, ghost cuts: seq<real>)
    requires groups != [] && Drawable(groups, shares, max, fits)
    ensures DrawnTo(|groups|, groups, shares, leading, max, fits, parts, cuts, cursor, widths, last)
  {
    widths, last := [], Point(0.0, 0.0);
    parts, cursor, cuts := Begin(groups, shares, leading, max, fits);
    for i := 0 to |groups|
      invariant DrawnTo(i, groups, shares, leading, max, fits, parts, cuts, cursor, widths, last)
    {
      parts, cursor, widths, last, cuts := DrawNext(i, groups, shares, leading, max, fits, parts, cursor, widths, last, cuts);
    }
  }

  /** How wide each run is drawn: together as wide as there is space. */
  method ShareOut(groups: seq<seq<Sample>>, available: real) returns (shares: seq<real>)
    requires groups != [] && NoneEmpty(groups) && available > 0.0
    ensures Total(shares) == available && Proportional(groups, shares)
  {
    var durations := Durations(groups, |groups|);
    SharesFill(groups, available);
    shares := Shares(durations, available, Total(durations));
    SharesFit(groups, durations, shares, available, Total(durations));
  }

  lemma SharesFit(groups: seq<seq<Sample>>, durations: seq<real>, shares: seq<real>, available: real, total: real)
    requires NoneEmpty(groups) && available > 0.0 && total > 0.0 && shares == Shares(durations, available, total)
    requires |durations| == |groups| && forall k :: 0 <= k < |groups| ==> durations[k] == Duration(groups[k])
    ensures Proportional(groups, shares)
  {
    SharesArePositive(durations, available, total);
    forall i, j | 0 <= i < |groups| && 0 <= j < |groups|
      ensures SameRatio(shares[i], groups[i], shares[j], groups[j])
    {
      SharesAreProportional(durations, available, total, i, j);
    }
  }

  lemma {:induction false} SharesAt(durations: seq<real>, available: real, total: real, k: nat)
    requires total > 0.0 && k < |durations|
    ensures |Shares(durations, available, total)| == |durations|
    ensures Shares(durations, available, total)[k] == Share(available, durations[k], total)
    decreases |durations|
  {
    var most := durations[..|durations| - 1];
    if k < |most| {
      SharesAt(most, available, total, k);
    } else if most != [] {
      SharesAt(most, available, total, 0);
    }
  }

  lemma Cross(a: real, x: real, y: real, t: real)
    requires t > 0.0
    ensures Share(a, x, t) * y == Share(a, y, t) * x
  {
    assert (a * x / t) * y == a * x * y / t;
    assert (a * y / t) * x == a * y * x / t;
    assert a * x * y == a * y * x;
  }

  lemma SharesAreProportional(durations: seq<real>, available: real, total: real, i: nat, j: nat)
    requires total > 0.0 && i < |durations| && j < |durations| == |Shares(durations, available, total)|
    ensures Shares(durations, available, total)[i] * durations[j] == Shares(durations, available, total)[j] * durations[i]
  {
    SharesAt(durations, available, total, i);
    SharesAt(durations, available, total, j);
    Cross(available, durations[i], durations[j], total);
  }

  /** No sample at all: one marker in the middle. */
  const EMPTY: seq<Part> := [Marker(150.0)]

  /** `chart`. The last argument of `Finished`: no rate exceeds the scale, which is always so without a
      given ceiling, and with the shared one. */
  method Draw(series: seq<Report>, kind: Kind, now: real, ceiling: Option<real>)
      returns (parts: seq<Part>, groups: seq<seq<Sample>>, widths: seq<real>)
    ensures
      var values := Sort(Pick(series, kind, now));
      && Timely(values) && Grouped(values, groups)
      && (values == [] ==> parts == [Marker(150.0)])
      && (values != [] ==>
            var max := Ceiling(ceiling, values);
            exists cuts :: Finished(parts, cuts, groups, widths, Leading(values, now), Trailing(values, now), max, Bounded(values, max)))
      && (values != [] ==>
            && (Leading(values, now) <==> values[0].time - (now - 900000.0) > 90000.0)
            && (Trailing(values, now) <==> now - values[|values| - 1].time > 90000.0))
  {
    var values := Sort(Pick(series, kind, now));
    SortTimely(Pick(series, kind, now));
    groups := GroupRuns(values);
    parts, widths := EMPTY, [];
    if values != [] {
      AtMostNineGaps(values, groups, now);
      ghost var cuts;
      parts, widths, cuts := DrawValues(values, groups, now, Ceiling(ceiling, values));
    }
  }

  /** More than ninety seconds are missing before the first sample, or after the last. */
  predicate Leading(values: seq<Sample>, now: real) {
    values != [] && values[0].time - (now - WINDOW) > GAP
  }

  predicate Trailing(values: seq<Sample>, now: real) {
    values != [] && now - values[|values| - 1].time > GAP
  }

  method DrawValues(values: seq<Sample>, groups: seq<seq<Sample>>, now: real, max: real)
      returns (parts: seq<Part>, widths: seq<real>, ghost cuts: seq<real>)
    requires values != [] && Grouped(values, groups) && max > 0.0
    requires forall s <- values :: 0.0 <= s.tps && now - WINDOW < s.time <= now
    requires Gaps(groups, Leading(values, now), Trailing(values, now)) <= 9
    ensures Finished(parts, cuts, groups, widths, Leading(values, now), Trailing(values, now), max, Bounded(values, max))
  {
    var leading, trailing := Leading(values, now), Trailing(values, now);
    GroupsDrawable(values, groups);
    var shares := ShareOut(groups, RIGHT - LEFT - SEPARATOR * (Gaps(groups, leading, trailing) as real));
    parts, widths, cuts := Complete(groups, shares, leading, trailing, max, Bounded(values, max));
  }

  lemma GroupsDrawable(values: seq<Sample>, groups: seq<seq<Sample>>)
    requires Grouped(values, groups) && values != []
    ensures groups != [] && NoneEmpty(groups)
    ensures forall k :: 0 <= k < |groups| ==> Timely(groups[k]) && forall s <- groups[k] :: s in values
  {
    assert groups == [] ==> Flatten(groups) == [];
    GroupMembers(groups, values);
    forall k | 0 <= k < |groups| ensures groups[k] != [] && Timely(groups[k]) && groups[k] in groups {
      assert Run(groups[k]);
    }
  }

  /** The runs, and after them a separator or the last point once more. */
  method Complete(groups: seq<seq<Sample>>, shares: seq<real>, leading: bool, trailing: bool, max: real, ghost fits: bool)
      returns (parts: seq<Part>, widths: seq<real>, ghost cuts: seq<real>)
    requires groups != [] && Drawable(groups, shares, max, fits) && Gaps(groups, leading, trailing) <= 9
    requires Proportional(groups, shares)
    requires Total(shares) == RIGHT - LEFT - SEPARATOR * (Gaps(groups, leading, trailing) as real)
    ensures Finished(parts, cuts, groups, widths, leading, trailing, max, fits)
  {
    var cursor, last;
    parts, cursor, widths, last, cuts := DrawRuns(groups, shares, leading, max, fits);
    parts, cuts := End(groups, shares, leading, trailing, max, fits, parts, cursor, widths, last, cuts);
  }

  method End(groups: seq<seq<Sample>>, shares: seq<real>, leading: bool, trailing: bool, max: real, ghost fits: bool,
             parts: seq<Part>, cursor: real, widths: seq<real>, last: Point, ghost cuts: seq<real>)
      returns (all: seq<Part>, ghost ends: seq<real>)
    requires groups != [] && Drawable(groups, shares, max, fits) && Gaps(groups, leading, trailing) <= 9
    requires Proportional(groups, shares)
    requires Total(shares) == RIGHT - LEFT - SEPARATOR * (Gaps(groups, leading, trailing) as real)
    requires DrawnTo(|groups|, groups, shares, leading, max, fits, parts, cuts, cursor, widths, last)
    ensures Finished(all, ends, groups, widths, leading, trailing, max, fits)
  {
    if trailing {
      all, ends := EndWithMarker(groups, shares, leading, max, fits, parts, cursor, widths, last, cuts);
    } else {
      all, ends := EndWithDot(groups, shares, leading, max, fits, parts, cursor, widths, last, cuts);
    }
  }

  /** All runs are drawn: only the end is missing. */
  lemma AllRunsDrawn(groups: seq<seq<Sample>>, shares: seq<real>, leading: bool, max: real, fits: bool,
                     parts: seq<Part>, cuts: seq<real>, cursor: real, widths: seq<real>, last: Point, end: Part)
    requires groups != [] && max > 0.0 && |shares| == |groups|
    requires DrawnTo(|groups|, groups, shares, leading, max, fits, parts, cuts, cursor, widths, last)
    ensures widths == shares && Exact(|groups|, groups, widths, leading, max, parts + [end])
    ensures Markers(parts) == Gaps(groups, leading, false) && Drawn(parts) == Heights(groups, |groups|, max)
  {
    FullWidth(shares, |groups|, widths);
    MorePartsKeep(|groups|, groups, shares, leading, max, parts, [end]);
  }

  lemma FullWidth(shares: seq<real>, n: nat, widths: seq<real>)
    requires |shares| == n && widths == shares[..n]
    ensures widths == shares
  {
  }

  /** What an end is after, and where. */
  ghost predicate EndsChart(parts: seq<Part>, all: seq<Part>, ends: seq<real>, trailing: bool, fits: bool) {
    && parts != [] && Laid(all, ends, fits) && Drawn(all) == Drawn(parts) && ends[|all|] <= RIGHT
    && Markers(all) == Markers(parts) + (if trailing then 1 else 0)
    && all == parts + [if trailing then Marker(RIGHT - SEPARATOR / 2.0) else LastDot(EndPoint(parts[|parts| - 1]))]
  }

  lemma EndFinishes(groups: seq<seq<Sample>>, widths: seq<real>, leading: bool, trailing: bool, max: real, fits: bool,
                    parts: seq<Part>, all: seq<Part>, ends: seq<real>)
    requires groups != [] && max > 0.0 && |widths| == |groups| && Gaps(groups, leading, trailing) <= 9
    requires Proportional(groups, widths)
    requires Total(widths) == RIGHT - LEFT - SEPARATOR * (Gaps(groups, leading, trailing) as real)
    requires EndsChart(parts, all, ends, trailing, fits) && |parts| == IndexOf(leading, |groups| - 1) + 1
    requires Markers(parts) == Gaps(groups, leading, false) && Drawn(parts) == Heights(groups, |groups|, max)
    requires Exact(|groups|, groups, widths, leading, max, all)
    ensures Finished(all, ends, groups, widths, leading, trailing, max, fits)
  {
  }

  method EndWithMarker(groups: seq<seq<Sample>>, shares: seq<real>, leading: bool, max: real, ghost fits: bool,
             parts: seq<Part>, cursor: real, widths: seq<real>, last: Point, ghost cuts: seq<real>)
      returns (all: seq<Part>, ghost ends: seq<real>)
    requires groups != [] && max > 0.0 && |shares| == |groups| && Gaps(groups, leading, true) <= 9
    requires Proportional(groups, shares)
    requires Total(shares) == RIGHT - LEFT - SEPARATOR * (Gaps(groups, leading, true) as real)
    requires DrawnTo(|groups|, groups, shares, leading, max, fits, parts, cuts, cursor, widths, last)
    ensures Finished(all, ends, groups, widths, leading, true, max, fits)
  {
    AllRunsDrawn(groups, shares, leading, max, fits, parts, cuts, cursor, widths, last, Marker(cursor + SEPARATOR / 2.0));
    var next;
    all, next, ends := AddMarker(parts, cursor, widths, cuts, fits);
    EndFinishes(groups, widths, leading, true, max, fits, parts, all, ends);
  }

  method EndWithDot(groups: seq<seq<Sample>>, shares: seq<real>, leading: bool, max: real, ghost fits: bool,
             parts: seq<Part>, cursor: real, widths: seq<real>, last: Point, ghost cuts: seq<real>)
      returns (all: seq<Part>, ghost ends: seq<real>)
    requires groups != [] && max > 0.0 && |shares| == |groups| && Gaps(groups, leading, false) <= 9
    requires Proportional(groups, shares)
    requires Total(shares) == RIGHT - LEFT - SEPARATOR * (Gaps(groups, leading, false) as real)
    requires DrawnTo(|groups|, groups, shares, leading, max, fits, parts, cuts, cursor, widths, last)
    ensures Finished(all, ends, groups, widths, leading, false, max, fits)
  {
    AllRunsDrawn(groups, shares, leading, max, fits, parts, cuts, cursor, widths, last, LastDot(last));
    all, ends := AddDot(parts, last, cuts, fits);
    EndFinishes(groups, widths, leading, false, max, fits, parts, all, ends);
  }

  /** The last point once more, marked. */
  method AddDot(parts: seq<Part>, last: Point, ghost cuts: seq<real>, ghost fits: bool) returns (drawn: seq<Part>, ghost ends: seq<real>)
    requires Laid(parts, cuts, fits) && InBox(last, cuts[|parts|], cuts[|parts|], fits)
    ensures drawn == parts + [LastDot(last)] && Laid(drawn, ends, fits) && ends[|drawn|] == cuts[|parts|]
    ensures Markers(drawn) == Markers(parts) && Drawn(drawn) == Drawn(parts)
  {
    LayOne(parts, cuts, fits, LastDot(last), cuts[|parts|]);
    MarkOne(parts, LastDot(last));
    drawn, ends := parts + [LastDot(last)], cuts + [cuts[|parts|]];
    assert Drawn(parts) + [] == Drawn(parts);
  }

  lemma {:induction false} CutsGrow(parts: seq<Part>, cuts: seq<real>, fits: bool, i: nat, j: nat)
    requires Laid(parts, cuts, fits) && i <= j <= |parts|
    ensures cuts[i] <= cuts[j]
    decreases j
  {
    if i < j {
      CutsGrow(parts, cuts, fits, i, j - 1);
      assert Placed(parts[j - 1], cuts[j - 1], cuts[j], fits);
    }
  }

  /** In a finished chart nothing leaves the box, and nothing goes back: every part lies between the
      margins and the lines, and no part begins before every earlier one has ended. */
  lemma InsideTheBox(parts: seq<Part>, cuts: seq<real>, groups: seq<seq<Sample>>, widths: seq<real>,
                     leading: bool, trailing: bool, max: real, fits: bool)
    requires max > 0.0 && Finished(parts, cuts, groups, widths, leading, trailing, max, fits)
    ensures forall k :: 0 <= k < |parts| ==> Placed(parts[k], LEFT, RIGHT, fits)
    ensures forall i, j :: 0 <= i < j < |parts| ==>
              Placed(parts[i], LEFT, cuts[j], fits) && Placed(parts[j], cuts[j], RIGHT, fits)
  {
    forall k | 0 <= k < |parts| ensures Placed(parts[k], LEFT, RIGHT, fits) {
      CutsGrow(parts, cuts, fits, 0, k);
      CutsGrow(parts, cuts, fits, k + 1, |parts|);
    }
    forall i, j | 0 <= i < j < |parts|
      ensures Placed(parts[i], LEFT, cuts[j], fits) && Placed(parts[j], cuts[j], RIGHT, fits)
    {
      CutsGrow(parts, cuts, fits, 0, i);
      CutsGrow(parts, cuts, fits, i + 1, j);
      CutsGrow(parts, cuts, fits, j + 1, |parts|);
    }
  }
}
