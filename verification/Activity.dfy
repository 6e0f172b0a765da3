/** The activity history of the dashboard: one row of intervals per worker, relabelled when the engine
    reports afterwards when its prefill really ran. */
module Activity {
  import opened Effects

  type WorkerId = string

  datatype Phase = Unknown | Unavailable | Paused | Idle | Working | Prefill | Thinking | Decode | Mixed

  datatype Row = Row(start: real, end: real, phase: Phase)

  datatype Marker = Marker(time: real, tokens: real)

  /** One report of the engine behind a worker. */
  datatype Engine = Engine(connected: bool, at: Option<real>, vllm: bool, prefill: Option<(real, real)>, tokens: Option<real>)

  const WINDOW: real := 900000.0
  const HOLD: real := 6000.0
  const FRESH: real := 15000.0
  const ROWS: nat := 1024
  const MARKERS: nat := 512

  // ---------------------------------------------------------------------------------------------
  // What a history says

  /** Some row shows this phase at this moment. */
  ghost predicate Shows(rows: seq<Row>, t: real, p: Phase) {
    exists r <- rows :: r.start <= t < r.end && r.phase == p
  }

  ghost predicate Ordered(rows: seq<Row>) {
    && (forall r <- rows :: r.start <= r.end)
    && (forall i, j :: 0 <= i < j < |rows| ==> rows[i].end <= rows[j].start)
  }

  ghost predicate EndsAt(rows: seq<Row>, now: real) {
    rows != [] && rows[|rows| - 1].end == now
  }

  /** At every moment an ordered history shows at most one phase. */
  lemma OnePhase(rows: seq<Row>, t: real, p: Phase, q: Phase)
    requires Ordered(rows) && Shows(rows, t, p) && Shows(rows, t, q)
    ensures p == q
  {
    var r :| r in rows && r.start <= t < r.end && r.phase == p;
    var s :| s in rows && s.start <= t < s.end && s.phase == q;
    var i :| 0 <= i < |rows| && rows[i] == r;
    var j :| 0 <= j < |rows| && rows[j] == s;
  }

  // ---------------------------------------------------------------------------------------------
  // The steps of `observe`

  function Recent(rows: seq<Row>, from: real): seq<Row> {
    if rows == [] then []
    else (if rows[0].end > from then [rows[0]] else []) + Recent(rows[1..], from)
  }

  /** `filter(row => row.end > now - 900000).slice(-1024)`. */
  function Keep(rows: seq<Row>, now: real): seq<Row> {
    var recent := Recent(rows, now - WINDOW);
    if |recent| > ROWS then recent[|recent| - ROWS..] else recent
  }

  /** The last phase holds for six seconds at most; after that nothing is known. */
  function Extended(rows: seq<Row>, now: real): seq<Row> {
    if rows == [] then []
    else
      var n := |rows| - 1;
      var end := Min(now, rows[n].end + HOLD);
      var held := rows[..n] + [rows[n].(end := end)];
      if end < now then held + [Row(end, now, Unknown)] else held
  }

  function Observed(rows: seq<Row>, now: real, state: Phase): seq<Row> {
    var extended := Extended(rows, now);
    var n := |extended| - 1;
    if n >= 0 && extended[n].phase == state then extended[n := extended[n].(end := now)]
    else extended + [Row(now, now, state)]
  }

  /** What is left of a row outside the interval. */
  function Pieces(row: Row, start: real, end: real): seq<Row> {
    if row.end <= start || row.start >= end then [row]
    else
      (if row.start < start then [row.(end := start)] else [])
      + (if row.end > end then [row.(start := end)] else [])
  }

  function Cut(rows: seq<Row>, start: real, end: real): seq<Row> {
    if rows == [] then [] else Cut(rows[..|rows| - 1], start, end) + Pieces(rows[|rows| - 1], start, end)
  }

  /** A stable sort by start, as insertion after everything that starts no later. */
  function Insert(rows: seq<Row>, r: Row): seq<Row> {
    if rows != [] && r.start < rows[|rows| - 1].start then Insert(rows[..|rows| - 1], r) + [rows[|rows| - 1]]
    else rows + [r]
  }

  function Sort(rows: seq<Row>): seq<Row> {
    if rows == [] then [] else Insert(Sort(rows[..|rows| - 1]), rows[|rows| - 1])
  }

  function Corrected(rows: seq<Row>, start: real, end: real): seq<Row> {
    Sort(Cut(rows, start, end) + [Row(start, end, Prefill)])
  }

  function Max(a: real, b: real): real {
    if a < b then b else a
  }

  function Min(a: real, b: real): real {
    if a < b then a else b
  }

  /** The measured interval, clamped to the window. */
  function Relabelled(rows: seq<Row>, now: real, measured: (real, real)): seq<Row> {
    Keep(Corrected(rows, Max(now - WINDOW, measured.0), Min(now, measured.1)), now)
  }

  // ---------------------------------------------------------------------------------------------
  // Cutting and sorting, moment by moment

  lemma {:induction false} CutShows(rows: seq<Row>, start: real, end: real, t: real, p: Phase)
    requires start <= end && forall r <- rows :: r.start <= r.end
    ensures Shows(Cut(rows, start, end), t, p) <==> !(start <= t < end) && Shows(rows, t, p)
    decreases |rows|
  {
    if rows != [] {
      var most, last := rows[..|rows| - 1], rows[|rows| - 1];
      assert rows == most + [last];
      assert last in rows && forall r <- most :: r in rows;
      CutShows(most, start, end, t, p);
      PiecesShow(last, start, end, t, p);
      ShowsConcat(most, [last], t, p);
      ShowsConcat(Cut(most, start, end), Pieces(last, start, end), t, p);
    }
  }

  lemma ShowsConcat(a: seq<Row>, b: seq<Row>, t: real, p: Phase)
    ensures Shows(a + b, t, p) <==> Shows(a, t, p) || Shows(b, t, p)
  {
    assert forall r :: r in a + b <==> r in a || r in b;
  }

  lemma ShowsOne(r: Row, t: real, p: Phase)
    ensures Shows([r], t, p) <==> r.start <= t < r.end && r.phase == p
  {
    assert r in [r];
  }

  lemma PiecesShow(row: Row, start: real, end: real, t: real, p: Phase)
    requires start <= end && row.start <= row.end
    ensures Shows(Pieces(row, start, end), t, p) <==> !(start <= t < end) && Shows([row], t, p)
  {
    ShowsOne(row, t, p);
    if !(row.end <= start || row.start >= end) {
      var a := if row.start < start then [row.(end := start)] else [];
      var b := if row.end > end then [row.(start := end)] else [];
      ShowsConcat(a, b, t, p);
      ShowsOne(row.(end := start), t, p);
      ShowsOne(row.(start := end), t, p);
    }
  }

  lemma {:induction false} InsertMembers(rows: seq<Row>, r: Row)
    ensures forall x :: x in Insert(rows, r) <==> x == r || x in rows
    decreases |rows|
  {
    if rows != [] && r.start < rows[|rows| - 1].start {
      var most, last := rows[..|rows| - 1], rows[|rows| - 1];
      InsertMembers(most, r);
      assert rows == most + [last];
    }
  }

  lemma {:induction false} SortMembers(rows: seq<Row>)
    ensures forall x :: x in Sort(rows) <==> x in rows
    decreases |rows|
  {
    if rows != [] {
      var most, last := rows[..|rows| - 1], rows[|rows| - 1];
      SortMembers(most);
      InsertMembers(Sort(most), last);
      assert rows == most + [last];
    }
  }

  // ---------------------------------------------------------------------------------------------
  // Order

  lemma OrderedConcat(a: seq<Row>, b: seq<Row>)
    requires Ordered(a) && Ordered(b) && forall x <- a, y <- b :: x.end <= y.start
    ensures Ordered(a + b)
  {
    var t := a + b;
    forall i, j | 0 <= i < j < |t| ensures t[i].end <= t[j].start {
      if i < |a| && |a| <= j {
        assert t[i] in a && t[j] in b;
      }
    }
    assert forall r :: r in t <==> r in a || r in b;
  }

  lemma OrderedPart(a: seq<Row>, b: seq<Row>)
    requires Ordered(a + b)
    ensures Ordered(a) && Ordered(b) && forall x <- a, y <- b :: x.end <= y.start
  {
    var t := a + b;
    assert forall i :: 0 <= i < |a| ==> t[i] == a[i] && a[i] in t;
    assert forall i :: 0 <= i < |b| ==> t[|a| + i] == b[i] && b[i] in t;
  }

  /** A row that begins after some rows have ended, and ends before the others begin, is put between. */
  lemma {:induction false} InsertOrdered(rows: seq<Row>, r: Row)
    requires Ordered(rows) && r.start <= r.end
    requires forall x <- rows :: if x.start <= r.start then x.end <= r.start else r.end <= x.start
    ensures Ordered(Insert(rows, r))
    decreases |rows|
  {
    if rows != [] {
      var most, last := rows[..|rows| - 1], rows[|rows| - 1];
      LastApart(rows);
      if r.start < last.start {
        InsertOrdered(most, r);
        InsertMembers(most, r);
        OrderedConcat(Insert(most, r), [last]);
      } else {
        OrderedConcat(rows, [r]);
      }
    }
  }

  /** The last row of an ordered history, and those before it. */
  lemma LastApart(rows: seq<Row>)
    requires Ordered(rows) && rows != []
    ensures
      var most, last := rows[..|rows| - 1], rows[|rows| - 1];
      && Ordered(most) && Ordered([last]) && last in rows && (forall x <- most :: x in rows && x.end <= last.start)
      && (forall x <- rows :: x == last || x.end <= last.start)
  {
    var most, last := rows[..|rows| - 1], rows[|rows| - 1];
    assert rows == most + [last];
    OrderedPart(most, [last]);
    assert last in [last];
    InConcat(most, [last]);
  }

  ghost predicate Starting(rows: seq<Row>) {
    forall i, j :: 0 <= i < j < |rows| ==> rows[i].start <= rows[j].start
  }

  lemma {:induction false} SortedStays(rows: seq<Row>)
    requires Starting(rows)
    ensures Sort(rows) == rows
    decreases |rows|
  {
    if rows != [] {
      SortedStays(rows[..|rows| - 1]);
      InsertAtEnd(rows);
    }
  }

  lemma InsertAtEnd(rows: seq<Row>)
    requires Starting(rows) && rows != []
    ensures Insert(rows[..|rows| - 1], rows[|rows| - 1]) == rows
  {
    assert rows == rows[..|rows| - 1] + [rows[|rows| - 1]];
  }

  /** The corrected rows, before they are thinned out, in order of their starts. */
  lemma CorrectedInserts(rows: seq<Row>, start: real, end: real)
    requires Starting(Cut(rows, start, end))
    ensures Corrected(rows, start, end) == Insert(Cut(rows, start, end), Row(start, end, Prefill))
  {
    var cut, p := Cut(rows, start, end), Row(start, end, Prefill);
    SortedStays(cut);
    assert (cut + [p])[..|cut + [p]| - 1] == cut;
  }

  /** Pieces begin inside their row, and end inside it unless the interval is backwards. */
  lemma PiecesInside(row: Row, start: real, end: real, bound: real)
    requires row.start <= row.end <= bound
    ensures forall x <- Pieces(row, start, end) :: x.start <= bound
    ensures start <= end ==> forall x <- Pieces(row, start, end) :: x.start <= x.end <= bound && (x.end <= start || x.start >= end)
  {
  }

  ghost predicate StartBy(rows: seq<Row>, bound: real) {
    forall x <- rows :: x.start <= bound
  }

  /** In order, by the bound, and outside the interval. */
  ghost predicate Outside(rows: seq<Row>, start: real, end: real, bound: real) {
    forall x <- rows :: x.start <= x.end <= bound && (x.end <= start || x.start >= end)
  }

  lemma InConcat(a: seq<Row>, b: seq<Row>)
    ensures forall x :: x in a + b <==> x in a || x in b
  {
  }

  lemma {:induction false} CutInside(rows: seq<Row>, start: real, end: real, bound: real)
    requires forall r <- rows :: r.start <= r.end <= bound
    ensures StartBy(Cut(rows, start, end), bound)
    ensures start <= end ==> Outside(Cut(rows, start, end), start, end, bound)
    decreases |rows|
  {
    if rows != [] {
      var most, last := rows[..|rows| - 1], rows[|rows| - 1];
      assert last in rows && forall x <- most :: x in rows;
      CutInside(most, start, end, bound);
      PiecesInside(last, start, end, bound);
      InConcat(Cut(most, start, end), Pieces(last, start, end));
    }
  }

  lemma {:induction false} CutOrdered(rows: seq<Row>, start: real, end: real)
    requires start <= end && Ordered(rows)
    ensures Ordered(Cut(rows, start, end))
    decreases |rows|
  {
    if rows != [] {
      var most, last := rows[..|rows| - 1], rows[|rows| - 1];
      LastApart(rows);
      CutOrdered(most, start, end);
      CutInside(most, start, end, last.start);
      PiecesOrdered(last, start, end);
      OrderedConcat(Cut(most, start, end), Pieces(last, start, end));
    }
  }

  lemma PiecesOrdered(row: Row, start: real, end: real)
    requires start <= end && row.start <= row.end
    ensures Ordered(Pieces(row, start, end)) && forall x <- Pieces(row, start, end) :: row.start <= x.start
  {
  }

  lemma OrderedStarts(rows: seq<Row>)
    requires Ordered(rows)
    ensures Starting(rows)
  {
    forall i, j | 0 <= i < j < |rows| ensures rows[i].start <= rows[j].start {
      assert rows[i] in rows;
    }
  }

  /** Relabelling an interval keeps the rows in order and shows prefill exactly inside it. An empty
      interval must not fall inside a row. */
  lemma CorrectedExact(rows: seq<Row>, start: real, end: real)
    requires Ordered(rows) && start <= end && (start == end ==> forall r <- rows :: r.end <= start)
    ensures Ordered(Corrected(rows, start, end))
    ensures forall t, p :: Shows(Corrected(rows, start, end), t, p) <==> if start <= t < end then p == Prefill else Shows(rows, t, p)
    ensures forall x :: x in Corrected(rows, start, end) <==> x == Row(start, end, Prefill) || x in Cut(rows, start, end)
  {
    var cut, r := Cut(rows, start, end), Row(start, end, Prefill);
    var corrected := Corrected(rows, start, end);
    CutOrdered(rows, start, end);
    OrderedStarts(cut);
    CorrectedInserts(rows, start, end);
    InsertMembers(cut, r);
    CutInside(rows, start, end, if start == end then start else Highest(rows));
    InsertOrdered(cut, r);
    forall t, p ensures Shows(corrected, t, p) <==> if start <= t < end then p == Prefill else Shows(rows, t, p) {
      CutShows(rows, start, end, t, p);
      ShowsOne(r, t, p);
      ShowsConcat(cut, [r], t, p);
      assert forall x :: x in corrected <==> x in cut + [r];
    }
  }

  function Highest(rows: seq<Row>): (h: real)
    ensures forall r <- rows :: r.end <= h
  {
    if rows == [] then 0.0 else
      var h := Highest(rows[..|rows| - 1]);
      assert rows == rows[..|rows| - 1] + [rows[|rows| - 1]];
      Max(h, rows[|rows| - 1].end)
  }

  // ---------------------------------------------------------------------------------------------
  // Forgetting the oldest rows

  lemma {:induction false} RecentMembers(rows: seq<Row>, from: real)
    ensures forall x :: x in Recent(rows, from) <==> x in rows && x.end > from
  {
    if rows != [] {
      RecentMembers(rows[1..], from);
      assert rows == [rows[0]] + rows[1..];
    }
  }

  lemma {:induction false} RecentOrdered(rows: seq<Row>, from: real)
    requires Ordered(rows)
    ensures Ordered(Recent(rows, from))
  {
    if rows != [] {
      assert rows == [rows[0]] + rows[1..];
      OrderedPart([rows[0]], rows[1..]);
      RecentOrdered(rows[1..], from);
      RecentMembers(rows[1..], from);
      if rows[0].end > from {
        OrderedConcat([rows[0]], Recent(rows[1..], from));
      }
    }
  }

  lemma {:induction false} RecentConcat(a: seq<Row>, b: seq<Row>, from: real)
    ensures Recent(a + b, from) == Recent(a, from) + Recent(b, from)
    decreases |a|
  {
    if a == [] {
      assert a + b == b;
    } else {
      assert (a + b)[1..] == a[1..] + b;
      RecentConcat(a[1..], b, from);
    }
  }

  /** The moments a thinned-out history still speaks about. */
  predicate Retained(rows: seq<Row>, now: real, t: real) {
    t >= now - WINDOW && (|Recent(rows, now - WINDOW)| > ROWS ==> t >= Keep(rows, now)[0].start)
  }

  lemma KeepShows(rows: seq<Row>, now: real, t: real, p: Phase)
    requires Ordered(Recent(rows, now - WINDOW)) && Retained(rows, now, t)
    ensures Shows(Keep(rows, now), t, p) <==> Shows(rows, t, p)
  {
    var recent, kept := Recent(rows, now - WINDOW), Keep(rows, now);
    RecentMembers(rows, now - WINDOW);
    assert Shows(recent, t, p) <==> Shows(rows, t, p);
    if |recent| > ROWS {
      var dropped := recent[..|recent| - ROWS];
      assert recent == dropped + kept;
      OrderedPart(dropped, kept);
      ShowsConcat(dropped, kept, t, p);
      assert kept[0] in kept;
    }
  }

  lemma KeepOrdered(rows: seq<Row>, now: real)
    requires Ordered(Recent(rows, now - WINDOW))
    ensures Ordered(Keep(rows, now))
  {
    var recent, kept := Recent(rows, now - WINDOW), Keep(rows, now);
    if |recent| > ROWS {
      assert recent == recent[..|recent| - ROWS] + kept;
      OrderedPart(recent[..|recent| - ROWS], kept);
    }
  }

  /** The last row of an ordered history is the one that ends last. */
  lemma LastEndsLast(rows: seq<Row>, now: real, r: Row)
    requires Ordered(rows) && r in rows && r.end == now && forall x <- rows :: x.end <= now
    ensures EndsAt(rows, now)
  {
    var i :| 0 <= i < |rows| && rows[i] == r;
    var last := rows[|rows| - 1];
    assert last in rows;
  }

  lemma KeepEnds(rows: seq<Row>, now: real, r: Row)
    requires Ordered(Recent(rows, now - WINDOW)) && r in rows && r.end == now && forall x <- rows :: x.end <= now
    ensures EndsAt(Keep(rows, now), now)
  {
    RecentMembers(rows, now - WINDOW);
    LastEndsLast(Recent(rows, now - WINDOW), now, r);
    KeepHasLast(rows, now);
  }

  lemma KeepHasLast(rows: seq<Row>, now: real)
    requires Recent(rows, now - WINDOW) != []
    ensures
      var recent, kept := Recent(rows, now - WINDOW), Keep(rows, now);
      kept != [] && kept[|kept| - 1] == recent[|recent| - 1]
  {
  }

  // ---------------------------------------------------------------------------------------------
  // The measured interval

  /** An interval that ended before the window: at most the row that spans the window's beginning loses
      its oldest part. */
  function Trimmed(rows: seq<Row>, from: real, end: real): seq<Row> {
    if rows == [] then []
    else
      var last := rows[|rows| - 1];
      Trimmed(rows[..|rows| - 1], from, end) + (if last.end <= from then [] else [last.(start := Max(last.start, end))])
  }

  lemma PiecesTrimmed(row: Row, from: real, end: real)
    requires row.start <= row.end && end <= from
    ensures Recent(Pieces(row, from, end), from) == if row.end <= from then [] else [row.(start := Max(row.start, end))]
  {
    var pieces := Pieces(row, from, end);
    if |pieces| == 2 {
      assert pieces == [pieces[0]] + [pieces[1]];
      RecentConcat([pieces[0]], [pieces[1]], from);
    }
    assert forall r: Row :: Recent([r], from) == if r.end > from then [r] else [] by {
      assert forall r: Row :: [r][1..] == [];
    }
  }

  lemma {:induction false} RecentCutIsTrimmed(rows: seq<Row>, from: real, end: real)
    requires end <= from && forall r <- rows :: r.start <= r.end
    ensures Recent(Cut(rows, from, end), from) == Trimmed(rows, from, end)
    decreases |rows|
  {
    if rows != [] {
      var most, last := rows[..|rows| - 1], rows[|rows| - 1];
      assert last in rows && forall r <- most :: r in rows;
      RecentCutIsTrimmed(most, from, end);
      RecentConcat(Cut(most, from, end), Pieces(last, from, end), from);
      PiecesTrimmed(last, from, end);
    }
  }

  lemma {:induction false} TrimmedOrdered(rows: seq<Row>, from: real, end: real, bound: real)
    requires end <= from && Ordered(rows) && forall r <- rows :: r.end <= bound
    ensures Ordered(Trimmed(rows, from, end)) && forall x <- Trimmed(rows, from, end) :: x.end <= bound
    decreases |rows|
  {
    if rows != [] {
      var most, last := rows[..|rows| - 1], rows[|rows| - 1];
      LastApart(rows);
      TrimmedOrdered(most, from, end, last.start);
      if last.end > from {
        OrderedConcat(Trimmed(most, from, end), [last.(start := Max(last.start, end))]);
        InConcat(Trimmed(most, from, end), [last.(start := Max(last.start, end))]);
      }
    }
  }

  lemma {:induction false} TrimmedShows(rows: seq<Row>, from: real, end: real, t: real, p: Phase)
    requires end <= from <= t
    ensures Shows(Trimmed(rows, from, end), t, p) <==> Shows(rows, t, p)
    decreases |rows|
  {
    if rows != [] {
      var most, last := rows[..|rows| - 1], rows[|rows| - 1];
      var kept := if last.end <= from then [] else [last.(start := Max(last.start, end))];
      assert rows == most + [last];
      TrimmedShows(most, from, end, t, p);
      ShowsConcat(most, [last], t, p);
      ShowsConcat(Trimmed(most, from, end), kept, t, p);
      ShowsOne(last, t, p);
      ShowsOne(last.(start := Max(last.start, end)), t, p);
    }
  }

  lemma {:induction false} CutStarts(rows: seq<Row>, from: real, end: real)
    requires end <= from && Ordered(rows)
    ensures Starting(Cut(rows, from, end))
    decreases |rows|
  {
    if rows != [] {
      var most, last := rows[..|rows| - 1], rows[|rows| - 1];
      LastApart(rows);
      CutStarts(most, from, end);
      CutInside(most, from, end, last.start);
      PiecesStart(last, from, end);
      StartingConcat(Cut(most, from, end), Pieces(last, from, end), last.start);
    }
  }

  lemma PiecesStart(row: Row, from: real, end: real)
    requires row.start <= row.end && end <= from
    ensures Starting(Pieces(row, from, end)) && forall y <- Pieces(row, from, end) :: row.start <= y.start
  {
  }

  lemma StartingConcat(a: seq<Row>, b: seq<Row>, bound: real)
    requires Starting(a) && Starting(b) && (forall x <- a :: x.start <= bound) && (forall y <- b :: bound <= y.start)
    ensures Starting(a + b)
  {
    var t := a + b;
    forall i, j | 0 <= i < j < |t| ensures t[i].start <= t[j].start {
      if i < |a| && |a| <= j {
        assert t[i] in a && t[j] in b;
      }
    }
  }

  lemma {:induction false} RecentInsert(rows: seq<Row>, r: Row, from: real)
    requires r.end <= from
    ensures Recent(Insert(rows, r), from) == Recent(rows, from)
    decreases |rows|
  {
    assert Recent([r], from) == [] by {
      assert [r][1..] == [];
    }
    if rows != [] && r.start < rows[|rows| - 1].start {
      var most, last := rows[..|rows| - 1], rows[|rows| - 1];
      RecentInsert(most, r, from);
      RecentConcat(Insert(most, r), [last], from);
      RecentConcat(most, [last], from);
      assert rows == most + [last];
    } else {
      RecentConcat(rows, [r], from);
    }
  }

  /** Nothing is relabelled, and nothing is lost, by an interval that ended before the window. */
  lemma CorrectedBeforeWindow(rows: seq<Row>, from: real, end: real)
    requires end <= from && Ordered(rows)
    ensures Recent(Corrected(rows, from, end), from) == Trimmed(rows, from, end)
  {
    CutStarts(rows, from, end);
    CorrectedInserts(rows, from, end);
    RecentInsert(Cut(rows, from, end), Row(from, end, Prefill), from);
    RecentCutIsTrimmed(rows, from, end);
  }

  lemma AllEndBy(rows: seq<Row>, now: real)
    requires Ordered(rows) && EndsAt(rows, now)
    ensures rows[|rows| - 1] in rows && forall r <- rows :: r.end <= now
  {
    forall r <- rows ensures r.end <= now {
      var i :| 0 <= i < |rows| && rows[i] == r;
      assert i < |rows| - 1 ==> r.end <= rows[|rows| - 1].start;
    }
  }

  /** What relabelling means at the moments the history still speaks about. */
  ghost predicate RelabelledShows(rows: seq<Row>, now: real, measured: (real, real), t: real, p: Phase) {
    Shows(Relabelled(rows, now, measured), t, p) <==>
      if Max(now - WINDOW, measured.0) <= t < Min(now, measured.1) then p == Prefill else Shows(rows, t, p)
  }

  lemma RelabelledInWindow(rows: seq<Row>, now: real, measured: (real, real))
    requires Ordered(rows) && EndsAt(rows, now) && measured.0 < measured.1
    requires measured.0 <= now && now - WINDOW < measured.1
    ensures Ordered(Relabelled(rows, now, measured)) && EndsAt(Relabelled(rows, now, measured), now)
    ensures
      var corrected := Corrected(rows, Max(now - WINDOW, measured.0), Min(now, measured.1));
      forall t, p :: Retained(corrected, now, t) ==> RelabelledShows(rows, now, measured, t, p)
  {
    var start, end := Max(now - WINDOW, measured.0), Min(now, measured.1);
    var corrected := Corrected(rows, start, end);
    AllEndBy(rows, now);
    CorrectedExact(rows, start, end);
    RecentOrdered(corrected, now - WINDOW);
    KeepOrdered(corrected, now);
    var r := SomeEndsNow(rows, start, end, now);
    CutInside(rows, start, end, now);
    KeepEnds(corrected, now, r);
    forall t, p | Retained(corrected, now, t) ensures RelabelledShows(rows, now, measured, t, p) {
      KeepShows(corrected, now, t, p);
    }
  }

  /** Either the last row keeps its end, or the interval takes it over. */
  lemma SomeEndsNow(rows: seq<Row>, start: real, end: real, now: real) returns (r: Row)
    requires EndsAt(rows, now) && start <= end <= now
    ensures (r == Row(start, end, Prefill) || r in Cut(rows, start, end)) && r.end == now
  {
    var most, last := rows[..|rows| - 1], rows[|rows| - 1];
    var pieces := Pieces(last, start, end);
    if end == now {
      r := Row(start, end, Prefill);
    } else if last.end <= start || last.start >= end {
      r := last;
      assert pieces == [last];
    } else {
      r := last.(start := end);
      assert r in pieces;
    }
    assert forall x :: x in pieces ==> x in Cut(most, start, end) + pieces;
  }

  lemma RelabelledBeforeWindow(rows: seq<Row>, now: real, measured: (real, real))
    requires Ordered(rows) && EndsAt(rows, now) && measured.0 < measured.1 <= now - WINDOW
    ensures Ordered(Relabelled(rows, now, measured)) && EndsAt(Relabelled(rows, now, measured), now)
    ensures
      var corrected := Corrected(rows, Max(now - WINDOW, measured.0), Min(now, measured.1));
      forall t, p :: Retained(corrected, now, t) ==> RelabelledShows(rows, now, measured, t, p)
  {
    var from, end := now - WINDOW, measured.1;
    var corrected := Corrected(rows, from, end);
    var trimmed := Trimmed(rows, from, end);
    AllEndBy(rows, now);
    CorrectedBeforeWindow(rows, from, end);
    TrimmedOrdered(rows, from, end, now);
    KeepOrdered(corrected, now);
    assert trimmed[|trimmed| - 1].end == now;
    forall t, p | Retained(corrected, now, t) ensures RelabelledShows(rows, now, measured, t, p) {
      KeepShows(corrected, now, t, p);
      RecentMembers(corrected, from);
      assert Shows(corrected, t, p) <==> Shows(trimmed, t, p);
      TrimmedShows(rows, from, end, t, p);
    }
  }

  /** Every completed prefill the engine has measured, if it did not begin in the future: rows stay in
      order and end now, prefill is shown exactly inside the clamped interval, and every other moment
      shows what it showed before. */
  lemma RelabelledExact(rows: seq<Row>, now: real, measured: (real, real))
    requires Ordered(rows) && EndsAt(rows, now) && measured.0 < measured.1 && measured.0 <= now
    ensures Ordered(Relabelled(rows, now, measured)) && EndsAt(Relabelled(rows, now, measured), now)
    ensures
      var corrected := Corrected(rows, Max(now - WINDOW, measured.0), Min(now, measured.1));
      forall t, p :: Retained(corrected, now, t) ==> RelabelledShows(rows, now, measured, t, p)
  {
    if now - WINDOW < measured.1 {
      RelabelledInWindow(rows, now, measured);
    } else {
      RelabelledBeforeWindow(rows, now, measured);
    }
  }

  /** An interval that begins in the future: the code compares its ends before it clamps them, and
      keeps a row that ends before it begins. */
  lemma FutureIsBackwards(rows: seq<Row>, now: real, measured: (real, real))
    requires Ordered(rows) && EndsAt(rows, now) && now < measured.0 < measured.1
    ensures !Ordered(Relabelled(rows, now, measured))
  {
    var r := Row(measured.0, now, Prefill);
    FutureIsAppended(rows, now, measured.0);
    KeepsLast(rows, r, now);
    assert r in Relabelled(rows, now, measured);
  }

  lemma FutureIsAppended(rows: seq<Row>, now: real, start: real)
    requires Ordered(rows) && EndsAt(rows, now) && now < start
    ensures Corrected(rows, start, now) == rows + [Row(start, now, Prefill)]
  {
    AllEndBy(rows, now);
    UncutByFuture(rows, start, now);
    OrderedStarts(rows);
    CorrectedInserts(rows, start, now);
  }

  lemma KeepsLast(rows: seq<Row>, r: Row, now: real)
    requires r.end > now - WINDOW
    ensures r in Keep(rows + [r], now)
  {
    RecentConcat(rows, [r], now - WINDOW);
    assert [r][1..] == [];
    assert Recent([r], now - WINDOW) == [r];
    LastOf(Recent(rows, now - WINDOW), r);
  }

  lemma LastOf(rows: seq<Row>, r: Row)
    ensures var t := rows + [r]; r in t && (|t| > ROWS ==> r in t[|t| - ROWS..])
  {
    var t := rows + [r];
    if |t| > ROWS {
      assert t[|t| - ROWS..][ROWS - 1] == r;
    }
  }

  lemma {:induction false} UncutByFuture(rows: seq<Row>, start: real, end: real)
    requires forall r <- rows :: r.end <= start
    ensures Cut(rows, start, end) == rows
    decreases |rows|
  {
    if rows != [] {
      var most, last := rows[..|rows| - 1], rows[|rows| - 1];
      assert last in rows && forall r <- most :: r in rows;
      UncutByFuture(most, start, end);
      InitLast(rows);
      assert Pieces(last, start, end) == [last];
    }
  }

  lemma InitLast(rows: seq<Row>)
    requires rows != []
    ensures rows[..|rows| - 1] + [rows[|rows| - 1]] == rows
  {
  }

  /** Relabelling keeps a history in order exactly when the measured interval does not begin in the
      future. */
  lemma OrderedIffNotFuture(rows: seq<Row>, now: real, measured: (real, real))
    requires Ordered(rows) && EndsAt(rows, now) && measured.0 < measured.1
    ensures Ordered(Relabelled(rows, now, measured)) <==> measured.0 <= now
  {
    if measured.0 <= now {
      RelabelledExact(rows, now, measured);
    } else {
      FutureIsBackwards(rows, now, measured);
    }
  }

  // ---------------------------------------------------------------------------------------------
  // One observation

  /** The part of the history that one observation adds. */
  predicate Adds(rows: seq<Row>, now: real, t: real, p: Phase) {
    && rows != [] && rows[|rows| - 1].end <= t < now
    && p == if t < rows[|rows| - 1].end + HOLD then rows[|rows| - 1].phase else Unknown
  }

  lemma HeldOrdered(rows: seq<Row>, end: real)
    requires Ordered(rows) && rows != [] && rows[|rows| - 1].end <= end
    ensures
      var held := rows[..|rows| - 1] + [rows[|rows| - 1].(end := end)];
      Ordered(held) && forall x <- held :: x.end <= end
  {
    var most, last := rows[..|rows| - 1], rows[|rows| - 1];
    LastApart(rows);
    OrderedConcat(most, [last.(end := end)]);
    InConcat(most, [last.(end := end)]);
  }

  lemma ExtendedOrdered(rows: seq<Row>, now: real)
    requires Ordered(rows) && rows != [] && rows[|rows| - 1].end <= now
    ensures Ordered(Extended(rows, now)) && EndsAt(Extended(rows, now), now)
  {
    var last := rows[|rows| - 1];
    var end := Min(now, last.end + HOLD);
    HeldOrdered(rows, end);
    if end < now {
      OrderedConcat(rows[..|rows| - 1] + [last.(end := end)], [Row(end, now, Unknown)]);
    }
  }

  lemma EndsAlready(rows: seq<Row>, now: real)
    requires EndsAt(rows, now)
    ensures rows[|rows| - 1 := rows[|rows| - 1].(end := now)] == rows
  {
  }

  lemma HeldShows(most: seq<Row>, last: Row, end: real, t: real, p: Phase)
    requires last.start <= last.end <= end
    ensures Shows(most + [last.(end := end)], t, p) <==> Shows(most + [last], t, p) || (last.end <= t < end && p == last.phase)
  {
    ShowsConcat(most, [last], t, p);
    ShowsConcat(most, [last.(end := end)], t, p);
    ShowsOne(last, t, p);
    ShowsOne(last.(end := end), t, p);
  }

  lemma ExtendedExact(rows: seq<Row>, now: real, t: real, p: Phase)
    requires Ordered(rows) && rows != [] && rows[|rows| - 1].end <= now
    ensures Shows(Extended(rows, now), t, p) <==> Shows(rows, t, p) || Adds(rows, now, t, p)
  {
    var n := |rows| - 1;
    var most, last := rows[..n], rows[n];
    var end := Min(now, last.end + HOLD);
    var unknown := Row(end, now, Unknown);
    assert last in rows;
    assert Shows(rows, t, p) == Shows(most + [last], t, p) by {
      assert rows == most + [last];
    }
    HeldShows(most, last, end, t, p);
    var held := most + [last.(end := end)];
    assert Extended(rows, now) == if end < now then held + [unknown] else held;
    assert Adds(rows, now, t, p) <==> (last.end <= t < end && p == last.phase) || (end <= t < now && p == Unknown);
    if end < now {
      ShowsConcat(most + [last.(end := end)], [unknown], t, p);
      ShowsOne(unknown, t, p);
    }
  }

  /** Where the phase has not changed, the extended rows are left as they are. */
  lemma ObservedIs(rows: seq<Row>, now: real, state: Phase)
    requires Ordered(rows) && (rows != [] ==> EndsAt(Extended(rows, now), now))
    ensures Observed(rows, now, state) in {Extended(rows, now), Extended(rows, now) + [Row(now, now, state)]}
    ensures Extended(rows, now) == [] ==> Observed(rows, now, state) == [Row(now, now, state)]
  {
    if rows != [] {
      EndsAlready(Extended(rows, now), now);
    }
  }

  lemma AppendNow(rows: seq<Row>, now: real, state: Phase)
    requires Ordered(rows) && (rows != [] ==> EndsAt(rows, now))
    ensures Ordered(rows + [Row(now, now, state)]) && EndsAt(rows + [Row(now, now, state)], now)
  {
    if rows != [] {
      AllEndBy(rows, now);
    }
    OrderedConcat(rows, [Row(now, now, state)]);
  }

  lemma ObservedOrdered(rows: seq<Row>, now: real, state: Phase)
    requires Ordered(rows) && (rows != [] ==> rows[|rows| - 1].end <= now)
    ensures Ordered(Observed(rows, now, state)) && EndsAt(Observed(rows, now, state), now)
    ensures Observed(rows, now, state) in {Extended(rows, now), Extended(rows, now) + [Row(now, now, state)]}
  {
    if rows != [] {
      ExtendedOrdered(rows, now);
    }
    ObservedIs(rows, now, state);
    AppendNow(Extended(rows, now), now, state);
  }

  /** An observation extends the last phase for at most six seconds, marks the rest unknown, and begins
      the new phase now; no earlier moment changes. */
  lemma ObservedExact(rows: seq<Row>, now: real, state: Phase, t: real, p: Phase)
    requires Ordered(rows) && (rows != [] ==> rows[|rows| - 1].end <= now)
    ensures Ordered(Observed(rows, now, state)) && EndsAt(Observed(rows, now, state), now)
    ensures Shows(Observed(rows, now, state), t, p) <==> Shows(rows, t, p) || Adds(rows, now, t, p)
  {
    var r := Row(now, now, state);
    ObservedOrdered(rows, now, state);
    if rows != [] {
      ExtendedExact(rows, now, t, p);
    }
    ShowsConcat(Extended(rows, now), [r], t, p);
    ShowsOne(r, t, p);
  }

  /** The completed prefill of a fresh report. */
  function Measured(engine: Option<Engine>, now: real, stale: bool, seen: Option<real>): Option<(real, real)> {
    if Fresh(engine, now, stale, seen) && engine.value.vllm && engine.value.prefill.Some?
       && engine.value.prefill.value.1 > engine.value.prefill.value.0
    then engine.value.prefill else None
  }

  /** A report counts if it is new, from the last fifteen seconds, and about a live connection. */
  ghost predicate Counts(engine: Option<Engine>, now: real, stale: bool, seen: Option<real>) {
    && engine.Some? && engine.value.at.Some?
    && !stale && engine.value.connected && seen != engine.value.at
    && engine.value.at.value <= now < engine.value.at.value + 15000.0
  }

  /** The completed prefill that a report brings: of vLLM only, and not backwards. */
  ghost function NewPrefill(engine: Engine): Option<(real, real)> {
    if engine.vllm && engine.prefill.Some? && engine.prefill.value.0 < engine.prefill.value.1 then engine.prefill else None
  }

  /** The markers after a report that counts: one more for an engine, not vLLM, that reports tokens. */
  ghost function Marked(worker: WorkerId, markers: map<WorkerId, seq<Marker>>, now: real, engine: Engine): map<WorkerId, seq<Marker>>
    requires engine.at.Some?
  {
    if engine.vllm || engine.tokens.None? || engine.tokens.value <= 0.0 then markers
    else
      var ms := if worker in markers then markers[worker] else [];
      markers[worker := KeepMarkers(ms + [Marker(engine.at.value, engine.tokens.value)], now)]
  }

  /** In order, ending now and, unless a prefill was measured up to now, with the phase observed. */
  ghost predicate EndsWith(rows: seq<Row>, now: real, state: Phase, measured: Option<(real, real)>) {
    && Ordered(rows) && EndsAt(rows, now)
    && (measured.None? || measured.value.1 < now ==> rows[|rows| - 1].phase == state)
  }

  lemma LatestEnds(rows: seq<Row>, now: real, state: Phase, measured: Option<(real, real)>)
    requires Ordered(rows) && !Late(rows, now)
    requires measured.Some? ==> measured.value.0 < measured.value.1 && measured.value.0 <= now
    ensures EndsWith(Latest(rows, now, state, measured), now, state, measured)
  {
    LatestInOrder(rows, now, state, measured);
    AfterTail(rows, Sight(now, state, measured));
  }

  predicate Fresh(engine: Option<Engine>, now: real, stale: bool, seen: Option<real>) {
    && !stale && engine.Some? && engine.value.connected && engine.value.at.Some?
    && engine.value.at.value <= now && now - engine.value.at.value < FRESH && seen != engine.value.at
  }

  function RecentMarkers(ms: seq<Marker>, from: real): seq<Marker> {
    if ms == [] then [] else (if ms[0].time > from then [ms[0]] else []) + RecentMarkers(ms[1..], from)
  }

  function Latest(rows: seq<Row>, now: real, state: Phase, measured: Option<(real, real)>): seq<Row> {
    var observed := Keep(Observed(rows, now, state), now);
    if measured.Some? then Relabelled(observed, now, measured.value) else observed
  }

  /** A history in order that ends now, unless the engine claims to have worked in the future. */
  lemma LatestInOrder(rows: seq<Row>, now: real, state: Phase, measured: Option<(real, real)>)
    requires Ordered(rows) && (rows != [] ==> rows[|rows| - 1].end <= now)
    requires measured.Some? ==> measured.value.0 < measured.value.1 && measured.value.0 <= now
    ensures Ordered(Latest(rows, now, state, measured)) && EndsAt(Latest(rows, now, state, measured), now)
  {
    var observed := Observed(rows, now, state);
    ObservedOrdered(rows, now, state);
    RecentOrdered(observed, now - WINDOW);
    KeepOrdered(observed, now);
    AllEndBy(observed, now);
    KeepEnds(observed, now, observed[|observed| - 1]);
    if measured.Some? {
      RelabelledExact(Keep(observed, now), now, measured.value);
    }
  }

  /** An observation of the past. */
  predicate Late(rows: seq<Row>, now: real) {
    rows != [] && now < rows[|rows| - 1].end
  }

  // ---------------------------------------------------------------------------------------------
  // Many observations

  /** One observation, with the prefill its report has measured. */
  datatype Sight = Sight(now: real, state: Phase, measured: Option<(real, real)>)

  predicate Plausible(o: Sight) {
    o.measured.Some? ==> o.measured.value.0 < o.measured.value.1 && o.measured.value.0 <= o.now
  }

  function After(rows: seq<Row>, o: Sight): seq<Row> {
    if Late(rows, o.now) then rows else Latest(rows, o.now, o.state, o.measured)
  }

  function Play(rows: seq<Row>, os: seq<Sight>): seq<Row>
    decreases |os|, rows
  {
    if os == [] then rows else Play(After(rows, os[0]), os[1..])
  }

  /** From the end of the history on: the last phase for six seconds, then that nothing is known. */
  function Held(rows: seq<Row>, now: real, t: real): Option<Phase> {
    if rows != [] && rows[|rows| - 1].end <= t < now then
      Some(if t < rows[|rows| - 1].end + HOLD then rows[|rows| - 1].phase else Unknown)
    else None
  }

  /** What one observation says about a moment: prefill where it was measured, else what is held. */
  function Says(rows: seq<Row>, o: Sight, t: real): Option<Phase> {
    if Late(rows, o.now) then None
    else if o.measured.Some? && Max(o.now - WINDOW, o.measured.value.0) <= t < Min(o.now, o.measured.value.1) then Some(Prefill)
    else Held(rows, o.now, t)
  }

  /** What the last observation that says something about a moment says. */
  function LastSaid(rows: seq<Row>, os: seq<Sight>, t: real, said: Option<Phase>): Option<Phase>
    decreases |os|
  {
    if os == [] then said
    else LastSaid(After(rows, os[0]), os[1..], t, if Says(rows, os[0], t).Some? then Says(rows, os[0], t) else said)
  }

  /** The moment is not forgotten by this observation. */
  predicate Kept(rows: seq<Row>, o: Sight, t: real) {
    Late(rows, o.now) ||
    (&& Retained(Observed(rows, o.now, o.state), o.now, t)
     && (o.measured.Some? ==>
           Retained(Corrected(Keep(Observed(rows, o.now, o.state), o.now),
                              Max(o.now - WINDOW, o.measured.value.0), Min(o.now, o.measured.value.1)), o.now, t)))
  }

  predicate Remembered(rows: seq<Row>, os: seq<Sight>, t: real)
    decreases |os|
  {
    os == [] || (Kept(rows, os[0], t) && Remembered(After(rows, os[0]), os[1..], t))
  }

  lemma AfterInOrder(rows: seq<Row>, o: Sight)
    requires Ordered(rows) && Plausible(o)
    ensures Ordered(After(rows, o))
  {
    if !Late(rows, o.now) {
      LatestInOrder(rows, o.now, o.state, o.measured);
    }
  }

  lemma NotYetShown(rows: seq<Row>, t: real, p: Phase)
    requires Ordered(rows) && rows != [] && rows[|rows| - 1].end <= t
    ensures !Shows(rows, t, p)
  {
    AllEndBy(rows, rows[|rows| - 1].end);
  }

  /** The rows of an observation are in order and end now. */
  lemma KeptInOrder(rows: seq<Row>, now: real, state: Phase)
    requires Ordered(rows) && !Late(rows, now)
    ensures Ordered(Recent(Observed(rows, now, state), now - WINDOW))
    ensures Ordered(Keep(Observed(rows, now, state), now)) && EndsAt(Keep(Observed(rows, now, state), now), now)
  {
    var observed := Observed(rows, now, state);
    ObservedOrdered(rows, now, state);
    RecentOrdered(observed, now - WINDOW);
    KeepOrdered(observed, now);
    AllEndBy(observed, now);
    KeepEnds(observed, now, observed[|observed| - 1]);
  }

  lemma AddsOrHeld(rows: seq<Row>, now: real, t: real, p: Phase)
    requires Ordered(rows)
    ensures Shows(rows, t, p) || Adds(rows, now, t, p) <==>
              if Held(rows, now, t).Some? then Held(rows, now, t) == Some(p) else Shows(rows, t, p)
  {
    if rows != [] && rows[|rows| - 1].end <= t {
      NotYetShown(rows, t, p);
    }
  }

  lemma KeptShows(rows: seq<Row>, now: real, state: Phase, t: real, p: Phase)
    requires Ordered(rows) && !Late(rows, now) && Retained(Observed(rows, now, state), now, t)
    ensures Shows(Keep(Observed(rows, now, state), now), t, p) <==>
              if Held(rows, now, t).Some? then Held(rows, now, t) == Some(p) else Shows(rows, t, p)
  {
    ObservedExact(rows, now, state, t, p);
    KeptInOrder(rows, now, state);
    KeepShows(Observed(rows, now, state), now, t, p);
    AddsOrHeld(rows, now, t, p);
  }

  lemma RelabelledAt(rows: seq<Row>, now: real, measured: (real, real), t: real, p: Phase)
    requires Ordered(rows) && EndsAt(rows, now) && measured.0 < measured.1 && measured.0 <= now
    requires Retained(Corrected(rows, Max(now - WINDOW, measured.0), Min(now, measured.1)), now, t)
    ensures RelabelledShows(rows, now, measured, t, p)
  {
    RelabelledExact(rows, now, measured);
  }

  /** One observation changes exactly the moments it says something about. */
  lemma AfterExact(rows: seq<Row>, o: Sight, t: real, p: Phase)
    requires Ordered(rows) && Plausible(o) && Kept(rows, o, t)
    ensures Shows(After(rows, o), t, p) <==> if Says(rows, o, t).Some? then Says(rows, o, t) == Some(p) else Shows(rows, t, p)
  {
    if !Late(rows, o.now) {
      var kept := Keep(Observed(rows, o.now, o.state), o.now);
      KeptShows(rows, o.now, o.state, t, p);
      KeptInOrder(rows, o.now, o.state);
      if o.measured.Some? {
        RelabelledAt(kept, o.now, o.measured.value, t, p);
        assert After(rows, o) == Relabelled(kept, o.now, o.measured.value);
      } else {
        assert After(rows, o) == kept;
      }
    }
  }

  /** What a history shows at a moment. */
  ghost function Shown(rows: seq<Row>, t: real): Option<Phase> {
    if exists p :: Shows(rows, t, p) then
      var p :| Shows(rows, t, p);
      Some(p)
    else None
  }

  lemma ShownIff(rows: seq<Row>, t: real, p: Phase)
    requires Ordered(rows)
    ensures Shows(rows, t, p) <==> Shown(rows, t) == Some(p)
  {
    if Shows(rows, t, p) {
      OnePhase(rows, t, p, Shown(rows, t).value);
    }
  }

  /** Every moment that is still remembered shows what the last observation that says something about it
      says, in terms of the rows it found. */
  lemma {:induction false} LastSaidShows(rows: seq<Row>, os: seq<Sight>, t: real, said: Option<Phase>)
    requires Ordered(rows) && (forall o <- os :: Plausible(o)) && Remembered(rows, os, t)
    requires forall p :: Shows(rows, t, p) <==> said == Some(p)
    ensures Ordered(Play(rows, os))
    ensures forall p :: Shows(Play(rows, os), t, p) <==> LastSaid(rows, os, t, said) == Some(p)
    decreases |os|
  {
    if os != [] {
      var o := os[0];
      assert Plausible(o);
      AfterInOrder(rows, o);
      var says := Says(rows, o, t);
      forall p ensures Shows(After(rows, o), t, p) <==> (if says.Some? then says else said) == Some(p) {
        AfterExact(rows, o, t, p);
      }
      LastSaidShows(After(rows, o), os[1..], t, if says.Some? then says else said);
    }
  }

  // ---------------------------------------------------------------------------------------------
  // Many observations, without the rows

  /** How a history ends: when, with which phase, and whether that phase only begins there. */
  datatype Tail = Tail(now: real, phase: Phase, begins: bool)

  /** How it ends after one more observation: with the phase observed, unless a measured prefill reaches
      up to it and the phase had begun before. */
  function TailAfter(tail: Option<Tail>, o: Sight): Tail {
    if tail.Some? && o.now < tail.value.now then tail.value
    else
      var goesOn := tail.Some? && o.state == if tail.value.now + HOLD < o.now then Unknown else tail.value.phase;
      var begins := !goesOn || (o.now == tail.value.now && tail.value.begins);
      if o.measured.None? || o.measured.value.1 < o.now then Tail(o.now, o.state, begins)
      else if o.measured.value.0 == o.now then Tail(o.now, Prefill, true)
      else if begins then Tail(o.now, o.state, true)
      else Tail(o.now, Prefill, false)
  }

  predicate Covers(o: Sight, t: real) {
    o.measured.Some? && Max(o.now - WINDOW, o.measured.value.0) <= t < Min(o.now, o.measured.value.1)
  }

  /** What one observation says about a moment, given how the history ended before it. */
  function SightSays(tail: Option<Tail>, o: Sight, t: real): Option<Phase> {
    if tail.Some? && o.now < tail.value.now then None
    else if Covers(o, t) then Some(Prefill)
    else if tail.Some? && tail.value.now <= t < o.now then
      Some(if t < tail.value.now + HOLD then tail.value.phase else Unknown)
    else None
  }

  /** What was last said about a moment. */
  function Said(tail: Option<Tail>, os: seq<Sight>, t: real, said: Option<Phase>): Option<Phase>
    decreases |os|
  {
    if os == [] then said
    else
      var says := SightSays(tail, os[0], t);
      Said(Some(TailAfter(tail, os[0])), os[1..], t, if says.Some? then says else said)
  }

  function TailOf(rows: seq<Row>): Option<Tail> {
    if rows == [] then None
    else
      var last := rows[|rows| - 1];
      Some(Tail(last.end, last.phase, last.start == last.end))
  }

  lemma ObservedTail(rows: seq<Row>, now: real, state: Phase)
    requires Ordered(rows) && !Late(rows, now)
    ensures TailOf(Observed(rows, now, state)) == Some(TailAfter(TailOf(rows), Sight(now, state, None)))
  {
    if rows != [] {
      ExtendedOrdered(rows, now);
      ExtendedTail(rows, now);
      ObservedOn(rows, now, state);
    }
  }

  lemma ObservedOn(rows: seq<Row>, now: real, state: Phase)
    requires EndsAt(Extended(rows, now), now)
    ensures
      var extended := Extended(rows, now);
      TailOf(Observed(rows, now, state)) ==
        if extended[|extended| - 1].phase == state then TailOf(extended) else Some(Tail(now, state, true))
  {
    EndsAlready(Extended(rows, now), now);
  }

  lemma ExtendedTail(rows: seq<Row>, now: real)
    requires Ordered(rows) && rows != [] && rows[|rows| - 1].end <= now
    ensures
      var last, extended := rows[|rows| - 1], Extended(rows, now);
      && extended != []
      && var p := extended[|extended| - 1];
         && p.end == now && p.phase == (if last.end + HOLD < now then Unknown else last.phase)
         && (p.start == p.end <==> now == last.end && last.start == last.end)
  {
    assert rows[|rows| - 1] in rows;
  }

  lemma {:induction false} RecentLast(rows: seq<Row>, from: real)
    requires rows != [] && rows[|rows| - 1].end > from
    ensures Recent(rows, from) != [] && Recent(rows, from)[|Recent(rows, from)| - 1] == rows[|rows| - 1]
    decreases |rows|
  {
    if |rows| > 1 {
      RecentLast(rows[1..], from);
    } else {
      assert rows[1..] == [];
    }
  }

  lemma KeptTail(rows: seq<Row>, now: real)
    requires rows != [] && rows[|rows| - 1].end == now
    ensures TailOf(Keep(rows, now)) == TailOf(rows)
  {
    RecentLast(rows, now - WINDOW);
    KeepHasLast(rows, now);
  }

  /** The last row of what is cut, where the interval ends before the history does. */
  lemma CutTail(rows: seq<Row>, start: real, end: real, now: real)
    requires Ordered(rows) && EndsAt(rows, now) && end < now
    ensures Cut(rows, start, end) != []
    ensures
      var cut, last := Cut(rows, start, end), rows[|rows| - 1];
      var p := cut[|cut| - 1];
      && p.end == now && p.phase == last.phase && (p.start == now <==> last.start == now)
      && (start < end ==> p.start > start)
  {
    var last := rows[|rows| - 1];
    assert last in rows;
    var pieces := Pieces(last, start, end);
    assert pieces != [];
  }

  lemma InsertBefore(rows: seq<Row>, r: Row)
    requires rows != [] && r.start < rows[|rows| - 1].start
    ensures var t := Insert(rows, r); t != [] && t[|t| - 1] == rows[|rows| - 1]
  {
  }

  lemma InsertLast(rows: seq<Row>, r: Row)
    requires rows != [] ==> rows[|rows| - 1].start <= r.start
    ensures Insert(rows, r) == rows + [r]
  {
  }

  lemma RelabelledInside(rows: seq<Row>, now: real, start: real, end: real)
    requires Ordered(rows) && EndsAt(rows, now) && start < end < now
    ensures Corrected(rows, start, end) != [] && TailOf(Corrected(rows, start, end)) == TailOf(rows)
  {
    CutOrdered(rows, start, end);
    OrderedStarts(Cut(rows, start, end));
    CorrectedInserts(rows, start, end);
    CutTail(rows, start, end, now);
    InsertBefore(Cut(rows, start, end), Row(start, end, Prefill));
  }

  /** A prefill up to now takes over a phase that had begun before. */
  lemma RelabelledToNow(rows: seq<Row>, now: real, start: real)
    requires Ordered(rows) && EndsAt(rows, now) && start < now && rows[|rows| - 1].start < now
    ensures Corrected(rows, start, now) == Cut(rows, start, now) + [Row(start, now, Prefill)]
  {
    var cut := Cut(rows, start, now);
    CutOrdered(rows, start, now);
    OrderedStarts(cut);
    CorrectedInserts(rows, start, now);
    AllEndBy(rows, now);
    CutBeforeNow(rows, start, now);
    InsertLast(cut, Row(start, now, Prefill));
  }

  lemma {:induction false} CutBeforeNow(rows: seq<Row>, start: real, now: real)
    requires start < now && Ordered(rows) && (rows != [] ==> rows[|rows| - 1].end <= now && rows[|rows| - 1].start < now)
    ensures forall x <- Cut(rows, start, now) :: x.start <= start
    decreases |rows|
  {
    if rows != [] {
      var most, last := rows[..|rows| - 1], rows[|rows| - 1];
      LastApart(rows);
      if most != [] {
        assert most[|most| - 1] in most;
        assert most[|most| - 1] in rows;
      }
      CutBeforeNow(most, start, now);
      InConcat(Cut(most, start, now), Pieces(last, start, now));
    }
  }

  /** A phase that begins now stays the last one. */
  lemma RelabelledBeside(rows: seq<Row>, now: real, start: real)
    requires Ordered(rows) && EndsAt(rows, now) && start < now && rows[|rows| - 1].start == now
    ensures Corrected(rows, start, now) != [] && TailOf(Corrected(rows, start, now)) == TailOf(rows)
  {
    var cut := Cut(rows, start, now);
    CutOrdered(rows, start, now);
    OrderedStarts(cut);
    CorrectedInserts(rows, start, now);
    assert Pieces(rows[|rows| - 1], start, now) == [rows[|rows| - 1]];
    InsertBefore(cut, Row(start, now, Prefill));
  }

  lemma RelabelledAtNow(rows: seq<Row>, now: real)
    requires Ordered(rows) && EndsAt(rows, now)
    ensures Corrected(rows, now, now) == rows + [Row(now, now, Prefill)]
  {
    AllEndBy(rows, now);
    UncutByFuture(rows, now, now);
    OrderedStarts(rows);
    CorrectedInserts(rows, now, now);
    InsertLast(rows, Row(now, now, Prefill));
  }

  lemma TrimmedTail(rows: seq<Row>, from: real, end: real, now: real)
    requires Ordered(rows) && EndsAt(rows, now) && end <= from < now
    ensures Trimmed(rows, from, end) != [] && TailOf(Trimmed(rows, from, end)) == TailOf(rows)
  {
  }

  lemma RelabelledLongAgo(rows: seq<Row>, now: real, measured: (real, real))
    requires Ordered(rows) && EndsAt(rows, now) && measured.0 < measured.1 <= now - WINDOW
    ensures TailOf(Relabelled(rows, now, measured)) == TailOf(rows)
  {
    var from, end := now - WINDOW, measured.1;
    CorrectedBeforeWindow(rows, from, end);
    TrimmedTail(rows, from, end, now);
    KeepHasLast(Corrected(rows, from, end), now);
  }

  /** The tail of the corrected rows, for an interval that reaches into the window. */
  lemma CorrectedTail(rows: seq<Row>, now: real, measured: (real, real), start: real, end: real)
    requires Ordered(rows) && EndsAt(rows, now) && measured.0 < measured.1 && measured.0 <= now && now - WINDOW < measured.1
    requires start == Max(now - WINDOW, measured.0) && end == Min(now, measured.1)
    ensures
      var last, corrected := rows[|rows| - 1], Corrected(rows, start, end);
      corrected != [] && TailOf(corrected) ==
        (if measured.1 < now || (measured.0 < now && last.start == now) then TailOf(rows)
         else Some(Tail(now, Prefill, measured.0 == now)))
  {
    assert rows[|rows| - 1] in rows;
    if measured.1 < now {
      RelabelledInside(rows, now, start, end);
    } else if measured.0 == now {
      RelabelledAtNow(rows, now);
    } else if rows[|rows| - 1].start == now {
      RelabelledBeside(rows, now, start);
    } else {
      RelabelledToNow(rows, now, start);
    }
  }

  lemma RelabelledTail(rows: seq<Row>, now: real, measured: (real, real))
    requires Ordered(rows) && EndsAt(rows, now) && measured.0 < measured.1 && measured.0 <= now
    ensures
      TailOf(Relabelled(rows, now, measured)) ==
        (if measured.1 < now || (measured.0 < now && rows[|rows| - 1].start == now) then TailOf(rows)
         else Some(Tail(now, Prefill, measured.0 == now)))
  {
    if measured.1 <= now - WINDOW {
      RelabelledLongAgo(rows, now, measured);
    } else {
      var start, end := Max(now - WINDOW, measured.0), Min(now, measured.1);
      CorrectedTail(rows, now, measured, start, end);
      KeptTail(Corrected(rows, start, end), now);
    }
  }

  lemma ObservedKeptTail(rows: seq<Row>, now: real, state: Phase)
    requires Ordered(rows) && !Late(rows, now)
    ensures TailOf(Keep(Observed(rows, now, state), now)) == Some(TailAfter(TailOf(rows), Sight(now, state, None)))
  {
    ObservedTail(rows, now, state);
    ObservedOrdered(rows, now, state);
    KeptTail(Observed(rows, now, state), now);
  }

  /** What a measured prefill makes of a tail that ends now. */
  lemma MeasuredTail(tail: Option<Tail>, o: Sight)
    requires o.measured.Some? && o.measured.value.0 <= o.now && (tail.Some? ==> tail.value.now <= o.now)
    ensures
      var plain, m := TailAfter(tail, Sight(o.now, o.state, None)), o.measured.value;
      TailAfter(tail, o) == if m.1 < o.now || (m.0 < o.now && plain.begins) then plain else Tail(o.now, Prefill, m.0 == o.now)
  {
  }

  lemma KeptMeasuredTail(kept: seq<Row>, tail: Option<Tail>, o: Sight)
    requires Ordered(kept) && EndsAt(kept, o.now) && Plausible(o) && o.measured.Some? && (tail.Some? ==> tail.value.now <= o.now)
    requires TailOf(kept) == Some(TailAfter(tail, Sight(o.now, o.state, None)))
    ensures TailOf(Relabelled(kept, o.now, o.measured.value)) == Some(TailAfter(tail, o))
  {
    RelabelledTail(kept, o.now, o.measured.value);
    MeasuredTail(tail, o);
  }

  /** A history ends as its tail says it does. */
  lemma AfterTail(rows: seq<Row>, o: Sight)
    requires Ordered(rows) && Plausible(o)
    ensures TailOf(After(rows, o)) == Some(TailAfter(TailOf(rows), o))
  {
    if !Late(rows, o.now) {
      ObservedKeptTail(rows, o.now, o.state);
      if o.measured.Some? {
        KeptInOrder(rows, o.now, o.state);
        KeptMeasuredTail(Keep(Observed(rows, o.now, o.state), o.now), TailOf(rows), o);
      }
    }
  }

  /** What is said through the rows is what is said without them. */
  lemma {:induction false} SaidIsLastSaid(rows: seq<Row>, os: seq<Sight>, t: real, said: Option<Phase>)
    requires Ordered(rows) && forall o <- os :: Plausible(o)
    ensures LastSaid(rows, os, t, said) == Said(TailOf(rows), os, t, said)
    decreases |os|
  {
    if os != [] {
      var o := os[0];
      assert Plausible(o);
      AfterInOrder(rows, o);
      AfterTail(rows, o);
      assert Says(rows, o, t) == SightSays(TailOf(rows), o, t);
      SaidIsLastSaid(After(rows, o), os[1..], t, if Says(rows, o, t).Some? then Says(rows, o, t) else said);
    }
  }

  lemma {:induction false} PlayInOrder(rows: seq<Row>, os: seq<Sight>)
    requires Ordered(rows) && forall o <- os :: Plausible(o)
    ensures Ordered(Play(rows, os))
    decreases |os|
  {
    if os != [] {
      assert Plausible(os[0]);
      AfterInOrder(rows, os[0]);
      PlayInOrder(After(rows, os[0]), os[1..]);
    }
  }

  /** A history that shows, at every moment that is still remembered, what was last said about it. */
  ghost predicate Told(rows: seq<Row>, os: seq<Sight>, told: seq<Row>) {
    && Ordered(told)
    && forall t, p :: Remembered(rows, os, t) ==> (Shows(told, t, p) <==> Said(TailOf(rows), os, t, Shown(rows, t)) == Some(p))
  }

  /** Over any number of observations, late ones among them, every moment that is still remembered shows
      what the last observation that says something about it says: a measured prefill, or the phase of
      the observation before for six seconds, and then that nothing is known. */
  lemma EveryMoment(rows: seq<Row>, os: seq<Sight>, t: real, p: Phase)
    requires Ordered(rows) && (forall o <- os :: Plausible(o)) && Remembered(rows, os, t)
    ensures Shows(Play(rows, os), t, p) <==> Said(TailOf(rows), os, t, Shown(rows, t)) == Some(p)
  {
    forall q ensures Shows(rows, t, q) <==> Shown(rows, t) == Some(q) {
      ShownIff(rows, t, q);
    }
    LastSaidShows(rows, os, t, Shown(rows, t));
    SaidIsLastSaid(rows, os, t, Shown(rows, t));
  }

  lemma PlayTells(rows: seq<Row>, os: seq<Sight>)
    requires Ordered(rows) && forall o <- os :: Plausible(o)
    ensures Told(rows, os, Play(rows, os))
  {
    PlayInOrder(rows, os);
    forall t, p | Remembered(rows, os, t)
      ensures Shows(Play(rows, os), t, p) <==> Said(TailOf(rows), os, t, Shown(rows, t)) == Some(p)
    {
      EveryMoment(rows, os, t, p);
    }
  }

  /** Observations that follow one another in time, from some time on. */
  ghost predicate InTime(os: seq<Sight>, from: Option<real>) {
    && (from.Some? ==> forall o <- os :: from.value <= o.now)
    && forall i, j :: 0 <= i < j < |os| ==> os[i].now <= os[j].now
  }

  lemma InTimeRest(os: seq<Sight>, from: Option<real>)
    requires InTime(os, from) && os != []
    ensures InTime(os[1..], Some(os[0].now)) && (from.Some? ==> from.value <= os[0].now)
  {
    forall o <- os[1..] ensures os[0].now <= o.now {
      var j :| 1 <= j < |os| && os[j] == o;
    }
  }

  function Time(tail: Option<Tail>): Option<real> {
    if tail.Some? then Some(tail.value.now) else None
  }

  /** Nothing more is said about the past, except by measurements. */
  lemma {:induction false} PastIsSaid(tail: Tail, os: seq<Sight>, t: real, said: Option<Phase>)
    requires InTime(os, Some(tail.now)) && t < tail.now && forall o <- os :: !Covers(o, t)
    ensures Said(Some(tail), os, t, said) == said
    decreases |os|
  {
    if os != [] {
      InTimeRest(os, Some(tail.now));
      assert os[0] in os && forall o <- os[1..] :: o in os;
      PastIsSaid(TailAfter(Some(tail), os[0]), os[1..], t, said);
    }
  }

  lemma NoneCovers(os: seq<Sight>, t: real)
    requires os != [] && forall o <- os :: !Covers(o, t)
    ensures !Covers(os[0], t) && forall o <- os[1..] :: !Covers(o, t)
  {
    assert os[0] in os && forall o <- os[1..] :: o in os;
  }

  /** What the next observation says about the time since the last one. */
  lemma SaidNext(tail: Tail, os: seq<Sight>, t: real, said: Option<Phase>)
    requires InTime(os, Some(tail.now)) && os != [] && tail.now <= t < os[0].now && forall o <- os :: !Covers(o, t)
    ensures Said(Some(tail), os, t, said) == Some(if t < tail.now + HOLD then tail.phase else Unknown)
  {
    InTimeRest(os, Some(tail.now));
    NoneCovers(os, t);
    PastIsSaid(TailAfter(Some(tail), os[0]), os[1..], t, Some(if t < tail.now + HOLD then tail.phase else Unknown));
  }

  lemma Shift(os: seq<Sight>, i: nat)
    requires 0 < i && i + 1 < |os|
    ensures os[1..][i - 1] == os[i] && os[1..][i] == os[i + 1]
  {
  }

  /** An observation says nothing about the time after it. */
  lemma NothingSaid(tail: Option<Tail>, os: seq<Sight>, t: real, said: Option<Phase>)
    requires os != [] && !Covers(os[0], t) && os[0].now <= t
    ensures Said(tail, os, t, said) == Said(Some(TailAfter(tail, os[0])), os[1..], t, said)
    ensures (tail.Some? ==> tail.value.now <= os[0].now) ==> TailAfter(tail, os[0]).now == os[0].now
  {
  }

  /** Between two observations in time, where no prefill was measured: the phase of the earlier one for
      six seconds, and then that nothing is known. */
  lemma {:induction false} SaidBetween(tail: Option<Tail>, os: seq<Sight>, i: nat, t: real, said: Option<Phase>)
    requires InTime(os, Time(tail)) && i + 1 < |os| && os[i].now <= t < os[i + 1].now
    requires forall o <- os :: !Covers(o, t)
    requires os[i].measured.None? || os[i].measured.value.1 < os[i].now
    ensures Said(tail, os, t, said) == Some(if t < os[i].now + 6000.0 then os[i].state else Unknown)
    decreases |os|
  {
    var next := TailAfter(tail, os[0]);
    InTimeRest(os, Time(tail));
    NoneCovers(os, t);
    assert os[0].now <= os[i].now;
    NothingSaid(tail, os, t, said);
    if i > 0 {
      Shift(os, i);
      SaidBetween(Some(next), os[1..], i - 1, t, said);
    } else {
      SaidNext(next, os[1..], t, said);
    }
  }

  lemma ShownBetween(rows: seq<Row>, os: seq<Sight>, i: nat, t: real, p: Phase)
    requires Ordered(rows) && (forall o <- os :: Plausible(o)) && Remembered(rows, os, t)
    requires InTime(os, Time(TailOf(rows))) && i + 1 < |os| && os[i].now <= t < os[i + 1].now
    requires forall o <- os :: !Covers(o, t)
    requires os[i].measured.None? || os[i].measured.value.1 < os[i].now
    ensures Shows(Play(rows, os), t, p) <==> p == if t < os[i].now + 6000.0 then os[i].state else Unknown
  {
    EveryMoment(rows, os, t, p);
    SaidBetween(TailOf(rows), os, i, t, Shown(rows, t));
  }

  /** Until there are more than 1024 rows, only what ended fifteen minutes ago is forgotten; after that, as
      many of the latest rows are kept. */
  lemma NothingElseForgotten(rows: seq<Row>, now: real)
    ensures |rows| <= 1024 ==> forall x :: x in Keep(rows, now) <==> x in rows && x.end > now - 900000.0
    ensures |Recent(rows, now - 900000.0)| > 1024 ==> |Keep(rows, now)| == 1024
    ensures |Keep(rows, now)| <= |Recent(rows, now - 900000.0)|
    ensures Recent(rows, now - 900000.0)[|Recent(rows, now - 900000.0)| - |Keep(rows, now)|..] == Keep(rows, now)
  {
    RecentMembers(rows, now - WINDOW);
    RecentShorter(rows, now - WINDOW);
  }

  lemma {:induction false} RecentShorter(rows: seq<Row>, from: real)
    ensures |Recent(rows, from)| <= |rows|
  {
    if rows != [] {
      RecentShorter(rows[1..], from);
    }
  }

  /** The observation an update makes. */
  predicate SightOf(o: Sight, u: Update) {
    o.now == u.now && o.state == u.state && (o.measured.Some? ==> u.engine.Some? && o.measured == u.engine.value.prefill)
  }

  ghost predicate SightsOf(os: seq<Sight>, updates: seq<Update>, n: nat) {
    |os| == n <= |updates| && forall i :: 0 <= i < n ==> SightOf(os[i], updates[i])
  }

  lemma OneMoreSight(os: seq<Sight>, updates: seq<Update>, n: nat, o: Sight)
    requires SightsOf(os, updates, n) && n < |updates| && SightOf(o, updates[n])
    ensures SightsOf(os + [o], updates, n + 1)
  {
  }

  lemma PlayOneMore(rows: seq<Row>, os: seq<Sight>, o: Sight)
    ensures Play(rows, os + [o]) == After(Play(rows, os), o)
    decreases |os|
  {
    if os == [] {
      assert [o][1..] == [];
    } else {
      assert (os + [o])[1..] == os[1..] + [o];
      PlayOneMore(After(rows, os[0]), os[1..], o);
    }
  }

  lemma CutOne(list: seq<Row>, i: nat, start: real, end: real)
    requires i < |list|
    ensures Cut(list[..i + 1], start, end) == Cut(list[..i], start, end) + Pieces(list[i], start, end)
  {
    assert list[..i + 1][..i] == list[..i];
  }

  /** No other worker's rows change. */
  ghost predicate OthersStay(before: map<WorkerId, seq<Row>>, after: map<WorkerId, seq<Row>>, worker: WorkerId) {
    forall w :: w != worker && w in before ==> w in after && after[w] == before[w]
  }

  /** What the dashboard is given with every update. */
  datatype Update = Update(now: real, state: Phase, engine: Option<Engine>, stale: bool)

  class History {
    var rows: map<WorkerId, seq<Row>>
    var markers: map<WorkerId, seq<Marker>>
    var samples: map<WorkerId, real>

    constructor ()
      ensures rows == map[] && markers == map[] && samples == map[]
    {
      rows, markers, samples := map[], map[], map[];
    }

    function Of(worker: WorkerId): seq<Row>
      reads this`rows
    {
      if worker in rows then rows[worker] else []
    }

    /** `observe`, with the phase the gateway and the engine show now. */
    method Observe(worker: WorkerId, now: real, state: Phase, engine: Option<Engine>, stale: bool)
      modifies this
      ensures OthersStay(old(rows), rows, worker) && rows.Keys <= old(rows.Keys) + {worker}
      ensures
        var before, seen := old(Of(worker)), if worker in old(samples) then Some(old(samples)[worker]) else None;
        var measured := if Counts(engine, now, stale, seen) then NewPrefill(engine.value) else None;
        if before != [] && now < before[|before| - 1].end then
          rows == old(rows) && markers == old(markers) && samples == old(samples)
        else
          && Of(worker) == Latest(before, now, state, measured)
          && (if Counts(engine, now, stale, seen) then
                && samples == old(samples)[worker := engine.value.at.value]
                && markers == Marked(worker, old(markers), now, engine.value)
              else samples == old(samples) && markers == old(markers))
          && (Ordered(before) && (measured.Some? ==> measured.value.0 <= now) ==> EndsWith(Of(worker), now, state, measured))
    {
      ghost var before := Of(worker);
      var seen := if worker in samples then Some(samples[worker]) else None;
      var measured := Measured(engine, now, stale, seen);
      if Late(Of(worker), now) {
        return;
      }
      Record(worker, now, state, measured);
      Count(worker, now, engine, stale);
      if Ordered(before) && (measured.Some? ==> measured.value.0 <= now) {
        LatestEnds(before, now, state, measured);
      }
    }

    /** A report that counts is remembered, and may leave a marker. */
    method Count(worker: WorkerId, now: real, engine: Option<Engine>, stale: bool)
      modifies this`samples, this`markers
      ensures
        if Counts(engine, now, stale, if worker in old(samples) then Some(old(samples)[worker]) else None) then
          && samples == old(samples)[worker := engine.value.at.value]
          && markers == Marked(worker, old(markers), now, engine.value)
        else samples == old(samples) && markers == old(markers)
    {
      var seen := if worker in samples then Some(samples[worker]) else None;
      if Fresh(engine, now, stale, seen) {
        samples := samples[worker := engine.value.at.value];
        Mark(worker, now, engine.value);
      }
    }

    /** Any number of updates for one worker. Each is an observation, whose measured prefill is the
        engine's or, for a report that is not new or not fresh, none. Every moment that is still
        remembered shows what the last observation about it says. */
    method AnyRun(worker: WorkerId, updates: seq<Update>) returns (ghost os: seq<Sight>)
      modifies this
      ensures OthersStay(old(rows), rows, worker)
      ensures SightsOf(os, updates, |updates|)
      ensures Of(worker) == Play(old(Of(worker)), os)
      ensures Ordered(old(Of(worker))) && (forall o <- os :: Plausible(o)) ==> Told(old(Of(worker)), os, Of(worker))
    {
      ghost var before := Of(worker);
      os := Feed(worker, updates);
      if Ordered(before) && forall o <- os :: Plausible(o) {
        PlayTells(before, os);
      }
    }

    method Feed(worker: WorkerId, updates: seq<Update>) returns (ghost os: seq<Sight>)
      modifies this
      ensures OthersStay(old(rows), rows, worker)
      ensures SightsOf(os, updates, |updates|)
      ensures Of(worker) == Play(old(Of(worker)), os)
    {
      ghost var before := Of(worker);
      os := [];
      for i := 0 to |updates|
        invariant OthersStay(old(rows), rows, worker)
        invariant SightsOf(os, updates, i)
        invariant Of(worker) == Play(before, os)
      {
        ghost var o := Apply(worker, updates[i], before, os);
        OneMoreSight(os, updates, i, o);
        os := os + [o];
      }
    }

    /** One update as an observation. */
    method Apply(worker: WorkerId, u: Update, ghost before: seq<Row>, ghost os: seq<Sight>) returns (ghost o: Sight)
      requires Of(worker) == Play(before, os)
      modifies this
      ensures OthersStay(old(rows), rows, worker) && SightOf(o, u) && Of(worker) == Play(before, os + [o])
    {
      o := Sight(u.now, u.state, Measured(u.engine, u.now, u.stale, if worker in samples then Some(samples[worker]) else None));
      Observe(worker, u.now, u.state, u.engine, u.stale);
      PlayOneMore(before, os, o);
    }

    method Record(worker: WorkerId, now: real, state: Phase, measured: Option<(real, real)>)
      modifies this`rows
      ensures rows == old(rows)[worker := Latest(old(Of(worker)), now, state, measured)]
    {
      var observed := Advance(Of(worker), now, state);
      rows := rows[worker := Keep(observed, now)];
      if measured.Some? {
        Relabel(worker, now, measured.value);
      }
    }

    method Advance(rows: seq<Row>, now: real, state: Phase) returns (list: seq<Row>)
      ensures list == Observed(rows, now, state)
    {
      list := rows;
      if list != [] {
        var n := |list| - 1;
        list := list[n := list[n].(end := Min(now, list[n].end + HOLD))];
        if list[n].end < now {
          list := list + [Row(list[n].end, now, Unknown)];
        }
      }
      assert list == Extended(rows, now);
      if list != [] && list[|list| - 1].phase == state {
        list := list[|list| - 1 := list[|list| - 1].(end := now)];
      } else {
        list := list + [Row(now, now, state)];
      }
    }

    method Relabel(worker: WorkerId, now: real, measured: (real, real))
      requires worker in rows
      modifies this`rows
      ensures rows == old(rows)[worker := Relabelled(old(rows)[worker], now, measured)]
    {
      var start, end := Max(now - WINDOW, measured.0), Min(now, measured.1);
      var corrected := CutOut(rows[worker], start, end);
      rows := rows[worker := Keep(Sort(corrected + [Row(start, end, Prefill)]), now)];
    }

    method CutOut(list: seq<Row>, start: real, end: real) returns (corrected: seq<Row>)
      ensures corrected == Cut(list, start, end)
    {
      corrected := [];
      for i := 0 to |list|
        invariant corrected == Cut(list[..i], start, end)
      {
        var row := list[i];
        ghost var before := corrected;
        if row.end <= start || row.start >= end {
          corrected := corrected + [row];
        } else {
          if row.start < start {
            corrected := corrected + [row.(end := start)];
          }
          if row.end > end {
            corrected := corrected + [row.(start := end)];
          }
        }
        assert corrected == before + Pieces(row, start, end);
        CutOne(list, i, start, end);
      }
      assert list[..|list|] == list;
    }

    method Mark(worker: WorkerId, now: real, engine: Engine)
      requires engine.at.Some?
      modifies this`markers
      ensures markers == Marked(worker, old(markers), now, engine)
    {
      if Marking(engine) {
        markers := markers[worker := KeepMarkers(MarkersOf(worker) + [MarkerOf(engine)], now)];
      }
    }

    function MarkersOf(worker: WorkerId): seq<Marker>
      reads this`markers
    {
      if worker in markers then markers[worker] else []
    }
  }

  /** Only engines that report whole requests leave a marker. */
  predicate Marking(engine: Engine) {
    !engine.vllm && engine.tokens.Some? && engine.tokens.value > 0.0
  }

  function MarkerOf(engine: Engine): Marker
    requires engine.at.Some? && engine.tokens.Some?
  {
    Marker(engine.at.value, engine.tokens.value)
  }

  /** `filter(row => row.time > now - 900000).slice(-512)`. */
  function KeepMarkers(ms: seq<Marker>, now: real): seq<Marker> {
    var recent := RecentMarkers(ms, now - WINDOW);
    if |recent| > MARKERS then recent[|recent| - MARKERS..] else recent
  }

  /** At most 512 markers are kept, all of the last fifteen minutes. */
  lemma MarkersBounded(ms: seq<Marker>, now: real)
    ensures |KeepMarkers(ms, now)| <= 512 && forall m <- KeepMarkers(ms, now) :: m in ms && m.time > now - 900000.0
  {
    RecentMarkersAre(ms, now - WINDOW);
  }

  /** Below that number none of them is lost. */
  lemma MarkersKept(ms: seq<Marker>, now: real, m: Marker)
    requires |KeepMarkers(ms, now)| < 512 && m in ms && m.time > now - 900000.0
    ensures m in KeepMarkers(ms, now)
  {
    RecentMarkersAre(ms, now - WINDOW);
  }

  /** The latest one never is. */
  lemma LatestMarkerKept(ms: seq<Marker>, now: real)
    requires ms != [] && ms[|ms| - 1].time > now - 900000.0
    ensures KeepMarkers(ms, now) != [] && KeepMarkers(ms, now)[|KeepMarkers(ms, now)| - 1] == ms[|ms| - 1]
  {
    LastMarkerIsRecent(ms, now - WINDOW);
    SliceKeepsLast(RecentMarkers(ms, now - WINDOW));
  }

  lemma SliceKeepsLast(t: seq<Marker>)
    requires t != []
    ensures var kept := if |t| > MARKERS then t[|t| - MARKERS..] else t; kept != [] && kept[|kept| - 1] == t[|t| - 1]
  {
  }

  lemma {:induction false} LastMarkerIsRecent(ms: seq<Marker>, from: real)
    requires ms != [] && ms[|ms| - 1].time > from
    ensures RecentMarkers(ms, from) != [] && RecentMarkers(ms, from)[|RecentMarkers(ms, from)| - 1] == ms[|ms| - 1]
    decreases |ms|
  {
    if |ms| > 1 {
      LastMarkerIsRecent(ms[1..], from);
    } else {
      assert ms[1..] == [];
    }
  }

  lemma {:induction false} RecentMarkersAre(ms: seq<Marker>, from: real)
    ensures forall m :: m in RecentMarkers(ms, from) <==> m in ms && m.time > from
  {
    if ms != [] {
      RecentMarkersAre(ms[1..], from);
      assert ms == [ms[0]] + ms[1..];
    }
  }
}
