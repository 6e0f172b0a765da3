/** The gateway as the maintenance client sees it: an environment that other parties use too.

    Lock, release and receipt lookup are keyed by the request; a resume is a compare-and-set on
    the operator action and the maintenance action the client names. A request whose reply was
    lost may be committed at any later time, once. */
module Gateway {
  import opened Effects

  type OperationId = string

  /** Request identities. `ReleaseOf(op)` stands for the identity derived from the operation's. */
  datatype Request = AcquireOf(op: OperationId) | ReleaseOf(op: OperationId) | Foreign(n: nat)

  datatype Lock = Lock(id: nat, approved: bool)

  datatype Worker = Worker(
    load: nat, queued: nat, drained: bool, paused: bool, holds: nat,
    locks: seq<Lock>, recovering: bool, lastAction: Option<nat>)

  /** What the gateway has committed, oldest first. `Operator` is a decision of the operator;
      `Readmitted` is a resume that this operation asked for. Both take a fresh action identity. */
  datatype Event = Operator(id: nat) | Readmitted(id: nat) | Maintained(request: Request)

  datatype Call =
    | LockCall(request: Request)
    | ReleaseCall(request: Request, lock: nat)
    | ResumeCall(expectedAction: Option<nat>, expectedMaintenance: Request)

  datatype Receipt = Receipt(request: Request, releases: bool, approved: bool, lock: nat)

  predicate TakesId(e: Event) {
    e.Operator? || e.Readmitted?
  }

  function LastAction(history: seq<Event>): Option<nat> {
    if |history| == 0 then None
    else
      var e := history[|history| - 1];
      if TakesId(e) then Some(e.id) else LastAction(history[..|history| - 1])
  }

  function LastMaintenance(history: seq<Event>): Option<Request> {
    if |history| == 0 then None
    else
      var e := history[|history| - 1];
      if e.Maintained? then Some(e.request) else LastMaintenance(history[..|history| - 1])
  }

  ghost predicate DistinctIds(history: seq<Event>) {
    forall i, j :: 0 <= i < j < |history| && TakesId(history[i]) && TakesId(history[j])
                   ==> history[i].id != history[j].id
  }

  /** The last action of a history is the identity of one of its events. */
  lemma {:induction false} LastActionIsRecorded(history: seq<Event>) returns (i: nat)
    requires LastAction(history).Some?
    ensures i < |history| && TakesId(history[i]) && Some(history[i].id) == LastAction(history)
    ensures forall j :: i < j < |history| ==> !TakesId(history[j])
  {
    var n := |history| - 1;
    if TakesId(history[n]) {
      i := n;
    } else {
      i := LastActionIsRecorded(history[..n]);
    }
  }

  lemma {:induction false} NoLastAction(history: seq<Event>)
    requires LastAction(history).None?
    ensures forall j :: 0 <= j < |history| ==> !TakesId(history[j])
  {
    if |history| > 0 {
      NoLastAction(history[..|history| - 1]);
    }
  }

  /** Equal last actions at two moments mean that nobody acted in between. */
  lemma {:induction false} SameActionMeansNobodyActed(history: seq<Event>, a: nat, b: nat)
    requires DistinctIds(history) && a <= b <= |history|
    requires LastAction(history[..a]) == LastAction(history[..b])
    ensures forall j :: a <= j < b ==> !TakesId(history[j])
  {
    if LastAction(history[..b]).None? {
      NoLastAction(history[..b]);
      forall j | a <= j < b ensures !TakesId(history[j]) {
        assert history[j] == history[..b][j];
      }
    } else {
      var i := LastActionIsRecorded(history[..a]);
      var k := LastActionIsRecorded(history[..b]);
      assert history[i] == history[..a][i] && history[k] == history[..b][k];
      assert i == k;
      forall j | a <= j < b ensures !TakesId(history[j]) {
        assert history[j] == history[..b][j];
      }
    }
  }

  /** Somebody acted after the first `from` events: the operator, or a readmission. */
  ghost predicate ActedSince(history: seq<Event>, from: nat) {
    exists j :: from <= j < |history| && TakesId(history[j])
  }

  lemma {:induction false} NobodyActed(history: seq<Event>, from: nat)
    requires from <= |history| && !ActedSince(history, from)
    ensures LastAction(history) == LastAction(history[..from])
    decreases |history|
  {
    if from < |history| {
      var most := history[..|history| - 1];
      assert most[..from] == history[..from];
      assert forall j :: from <= j < |most| ==> most[j] == history[j];
      NobodyActed(most, from);
    } else {
      assert history[..from] == history;
    }
  }

  /** The last action of a history that goes on from a baseline is still the baseline's exactly when
      nobody has acted since. */
  lemma ChangedIffActed(baseline: seq<Event>, history: seq<Event>)
    requires DistinctIds(history) && baseline <= history
    ensures LastAction(history) != LastAction(baseline) <==> ActedSince(history, |baseline|)
  {
    assert history[..|baseline|] == baseline && history[..|history|] == history;
    if LastAction(history) == LastAction(baseline) {
      SameActionMeansNobodyActed(history, |baseline|, |history|);
    } else if !ActedSince(history, |baseline|) {
      NobodyActed(history, |baseline|);
    }
  }

  /** One more event, with an identity above all earlier ones if it has one. */
  lemma IdsGrow(history: seq<Event>, e: Event, next: nat)
    requires DistinctIds(history) && (forall x <- history :: TakesId(x) ==> x.id < next) && (TakesId(e) ==> e.id == next)
    ensures LastAction(history + [e]) == (if TakesId(e) then Some(e.id) else LastAction(history))
    ensures DistinctIds(history + [e])
  {
    var t := history + [e];
    assert t[..|history|] == history;
    forall i, j | 0 <= i < j < |t| && TakesId(t[i]) && TakesId(t[j]) ensures t[i].id != t[j].id {
      assert t[i] in history;
    }
  }

  /** A resume was committed only where its compare-and-set held. */
  ghost predicate Justifies(call: Call, history: seq<Event>, i: nat)
    requires i < |history|
  {
    && call.ResumeCall?
    && LastAction(history[..i]) == call.expectedAction
    && LastMaintenance(history[..i]) == Some(call.expectedMaintenance)
  }

  ghost predicate Justified(history: seq<Event>, issued: seq<Call>) {
    forall i :: 0 <= i < |history| && history[i].Readmitted? ==>
      exists c :: c in issued && Justifies(c, history, i)
  }

  /** Some request of this operation carries this identity. */
  ghost predicate Requested(request: Request, issued: seq<Call>) {
    exists c :: c in issued && !c.ResumeCall? && c.request == request
  }

  lemma JustifiedGrows(history: seq<Event>, issued: seq<Call>, e: Event)
    requires Justified(history, issued)
    requires e.Readmitted? ==>
      exists c :: c in issued && c.ResumeCall? && LastAction(history) == c.expectedAction
                  && LastMaintenance(history) == Some(c.expectedMaintenance)
    ensures Justified(history + [e], issued)
  {
    var h := history + [e];
    forall i | 0 <= i < |h| && h[i].Readmitted?
      ensures exists c :: c in issued && Justifies(c, h, i)
    {
      if i < |history| {
        var c :| c in issued && Justifies(c, history, i);
        assert h[..i] == history[..i];
        assert Justifies(c, h, i);
      } else {
        assert h[..i] == history;
        var c :| c in issued && c.ResumeCall? && LastAction(history) == c.expectedAction
                 && LastMaintenance(history) == Some(c.expectedMaintenance);
        assert Justifies(c, h, i);
      }
    }
  }

  /** The gateway's state, with every mutating request this operation sent (`issued`) and those
      whose reply was lost and which may still be committed (`inflight`). */
  datatype PlaneState = PlaneState(
    worker: Worker, receipts: map<Request, Receipt>, history: seq<Event>,
    issued: seq<Call>, inflight: set<Call>, nextId: nat)

  ghost predicate PlaneSound(s: PlaneState) {
    && s.worker.lastAction == LastAction(s.history)
    && DistinctIds(s.history)
    && (forall e <- s.history :: TakesId(e) ==> e.id < s.nextId)
    && (forall c <- s.inflight :: c in s.issued)
    && Justified(s.history, s.issued)
    && (forall r <- s.receipts.Keys :: !r.Foreign? ==> Requested(r, s.issued))
  }

  /** What any number of steps of the other parties keeps. */
  predicate PlaneDrifted(a: PlaneState, b: PlaneState) {
    a.history <= b.history && b.issued == a.issued
  }

  lemma DriftedTwice(a: PlaneState, b: PlaneState, c: PlaneState)
    requires PlaneDrifted(a, b) && PlaneDrifted(b, c)
    ensures PlaneDrifted(a, c)
  {
  }

  predicate MayCommit(s: PlaneState, call: Call) {
    call.ResumeCall? ==>
      && s.worker.lastAction == call.expectedAction
      && LastMaintenance(s.history) == Some(call.expectedMaintenance)
      && s.worker.holds == 0 && s.worker.locks == []
  }

  class Plane {
    var s: PlaneState

    constructor (worker: Worker)
      requires worker.lastAction.None?
      ensures PlaneSound(s) && s.issued == [] && s.history == []
    {
      s := PlaneState(worker, map[], [], [], {}, 0);
    }

    method Log(e: Event)
      requires PlaneSound(s)
      requires TakesId(e) ==> e.id == s.nextId
      requires e.Readmitted? ==>
        exists c :: c in s.issued && c.ResumeCall? && LastAction(s.history) == c.expectedAction
                    && LastMaintenance(s.history) == Some(c.expectedMaintenance)
      modifies this
      ensures PlaneSound(s)
      ensures s == old(s).(history := old(s.history) + [e], worker := s.worker, nextId := s.nextId)
      ensures s.worker == old(s.worker).(lastAction := if TakesId(e) then Some(e.id) else old(s.worker).lastAction)
    {
      JustifiedGrows(s.history, s.issued, e);
      IdsGrow(s.history, e, s.nextId);
      s := s.(history := s.history + [e]);
      if TakesId(e) {
        s := s.(worker := s.worker.(lastAction := Some(e.id)), nextId := s.nextId + 1);
      }
    }

    /** Commits a lock or a release. */
    method CommitHold(call: Call)
      requires PlaneSound(s) && call in s.issued && !call.ResumeCall?
      modifies this
      ensures PlaneSound(s) && PlaneDrifted(old(s), s) && call.request in s.receipts
    {
      var lock := if call.LockCall? then s.nextId else call.lock;
      s := s.(nextId := s.nextId + 1);
      Log(Maintained(call.request));
      var w := s.worker;
      assert Requested(call.request, s.issued);
      s := s.(worker := if call.LockCall?
      then w.(locks := w.locks + [Lock(lock, true)], drained := true)
      else w.(locks := Without(w.locks, lock), drained := true, paused := true),
      receipts := s.receipts[call.request := Receipt(call.request, call.ReleaseCall?, true, lock)]);
    }

    method CommitResume(call: Call)
      requires PlaneSound(s) && call in s.issued && call.ResumeCall? && MayCommit(s, call)
      modifies this
      ensures PlaneSound(s) && PlaneDrifted(old(s), s) && !s.worker.drained
      ensures s.history == old(s.history) + [Readmitted(old(s.nextId))]
    {
      Log(Readmitted(s.nextId));
      s := s.(worker := s.worker.(drained := false, paused := false));
    }

    /** One step of another party: an operator, another agent, recovery, traffic, or a late commit. */
    method Turn()
      requires PlaneSound(s)
      modifies this
      ensures PlaneSound(s) && PlaneDrifted(old(s), s)
    {
      var load: nat, queued: nat, holds: nat, n: nat := *, *, *, *;
      var drained: bool, paused: bool, recovering: bool := *, *, *;
      var locks: seq<Lock> := *;
      if * {
        Log(Operator(s.nextId));
        s := s.(worker := s.worker.(drained := drained, paused := paused));
      } else if * {
        Log(Maintained(Foreign(n)));
        s := s.(worker := s.worker.(locks := locks, drained := drained));
      } else if * {
        s := s.(worker := s.worker.(load := load, queued := queued, holds := holds, recovering := recovering,
        drained := drained, locks := locks));
      } else if s.inflight != {} {
        var call :| call in s.inflight;
        s := s.(inflight := s.inflight - {call});
        if call.ResumeCall? {
          if MayCommit(s, call) {
            CommitResume(call);
          }
        } else {
          CommitHold(call);
        }
      }
    }

    method Drift()
      requires PlaneSound(s)
      modifies this
      ensures PlaneSound(s) && PlaneDrifted(old(s), s)
    {
      var steps: nat :| 0 <= steps;
      for i := 0 to steps
        invariant PlaneSound(s) && PlaneDrifted(old(s), s)
      {
        Turn();
      }
    }

    method Snapshot() returns (o: Outcome<Worker>)
      requires PlaneSound(s)
      modifies this
      ensures PlaneSound(s) && PlaneDrifted(old(s), s)
      ensures if o.Done? then o.value == s.worker else o in {Raised(Unconfirmed), Died}
    {
      Drift();
      if * {
        o := Done(s.worker);
      } else {
        o := Lose(Unconfirmed);
      }
    }

    method Lookup(request: Request) returns (o: Outcome<Receipt>)
      requires PlaneSound(s)
      modifies this
      ensures PlaneSound(s) && PlaneDrifted(old(s), s)
      ensures o.Done? ==> request in s.receipts && o.value == s.receipts[request]
    {
      Drift();
      var answered: bool := *;
      if answered && request in s.receipts {
        o := Done(s.receipts[request]);
      } else {
        o := Lose(Unconfirmed);
      }
    }

    /** Sends one mutating request. Unless its reply is confirmed it may have been committed, may be
        committed later, or may never be. */
    method Post(call: Call) returns (o: Outcome<Option<Receipt>>)
      requires PlaneSound(s)
      modifies this
      ensures PlaneSound(s) && old(s.history) <= s.history
      ensures s.issued == old(s.issued) + [call]
      ensures o.Done? && call.ResumeCall? ==> |s.history| > 0 && s.history[|s.history| - 1].Readmitted?
    {
      Issue(call);
      Drift();
      o := Arrive(call);
    }

    method Issue(call: Call)
      requires PlaneSound(s)
      modifies this
      ensures PlaneSound(s) && s == old(s).(issued := old(s.issued) + [call])
    {
      IssuedGrows(s.history, s.receipts.Keys, s.issued, call);
      s := s.(issued := s.issued + [call]);
    }

    method Arrive(call: Call) returns (o: Outcome<Option<Receipt>>)
      requires PlaneSound(s) && call in s.issued
      modifies this
      ensures PlaneSound(s) && PlaneDrifted(old(s), s)
      ensures o.Done? && call.ResumeCall? ==> |s.history| > 0 && s.history[|s.history| - 1].Readmitted?
    {
      var arrived: bool, answered: bool := *, *;
      if !arrived || !MayCommit(s, call) {
        if !arrived && answered {
          s := s.(inflight := s.inflight + {call});
        }
        o := Lose(Unconfirmed);
        return;
      }
      if call.ResumeCall? {
        CommitResume(call);
      } else {
        CommitHold(call);
      }
      if answered {
        o := Done(if call.ResumeCall? then None else Some(s.receipts[call.request]));
      } else {
        o := Lose(Unconfirmed);
      }
    }
  }

  lemma IssuedGrows(history: seq<Event>, answered: set<Request>, issued: seq<Call>, call: Call)
    requires Justified(history, issued)
    requires forall r <- answered :: !r.Foreign? ==> Requested(r, issued)
    ensures Justified(history, issued + [call])
    ensures forall r <- answered :: !r.Foreign? ==> Requested(r, issued + [call])
  {
    forall i | 0 <= i < |history| && history[i].Readmitted?
      ensures exists c :: c in issued + [call] && Justifies(c, history, i)
    {
      var c :| c in issued && Justifies(c, history, i);
      assert c in issued + [call];
    }
    forall r <- answered | !r.Foreign? ensures Requested(r, issued + [call]) {
      var c :| c in issued && !c.ResumeCall? && c.request == r;
      assert c in issued + [call];
    }
  }

  function Without(locks: seq<Lock>, id: nat): seq<Lock> {
    if |locks| == 0 then []
    else if locks[0].id == id then Without(locks[1..], id)
    else [locks[0]] + Without(locks[1..], id)
  }
}
