/** Ownership of one gateway hold: take it, prove it is still held, release it, ask for readmission. */
module Maintenance {
  import opened Effects
  import opened Gateway

  datatype Reason =
    | PreexistingOperatorPause
    | PauseBeforeRelease
    | OperatorDecisionChanged
    | OtherMaintenancePresent

  datatype Readmission = Admitted | LeftToOperator(reason: Reason)

  datatype Stage = Acquiring | Releasing

  /** The receipts in the operation's gateway folder; each is published at most once. */
  datatype HoldFiles = HoldFiles(
    before: Option<Worker>,
    acquireIntent: Option<Call>, acquireResult: Option<Receipt>,
    releaseBefore: Option<Worker>, releaseIntent: Option<Call>, releaseResult: Option<Receipt>,
    resumeIntent: Option<Call>, resumeResult: Option<Readmission>)

  const NO_FILES: HoldFiles := HoldFiles(None, None, None, None, None, None, None, None)

  function StageRequest(op: OperationId, stage: Stage): Request {
    if stage.Acquiring? then AcquireOf(op) else ReleaseOf(op)
  }

  function StageCall(op: OperationId, f: HoldFiles, stage: Stage): Call
    requires stage.Releasing? ==> f.acquireResult.Some?
  {
    if stage.Acquiring? then LockCall(AcquireOf(op)) else ReleaseCall(ReleaseOf(op), f.acquireResult.value.lock)
  }

  function IntentOf(f: HoldFiles, stage: Stage): Option<Call> {
    if stage.Acquiring? then f.acquireIntent else f.releaseIntent
  }

  function ResultOf(f: HoldFiles, stage: Stage): Option<Receipt> {
    if stage.Acquiring? then f.acquireResult else f.releaseResult
  }

  function WithIntent(f: HoldFiles, stage: Stage, intent: Option<Call>): HoldFiles {
    if stage.Acquiring? then f.(acquireIntent := intent) else f.(releaseIntent := intent)
  }

  function WithResult(f: HoldFiles, stage: Stage, result: Option<Receipt>): HoldFiles {
    if stage.Acquiring? then f.(acquireResult := result) else f.(releaseResult := result)
  }

  /** An acknowledgement that names this operation's request and nobody else's. */
  predicate Identifies(op: OperationId, f: HoldFiles, receipt: Receipt, stage: Stage) {
    && receipt.request == StageRequest(op, stage) && receipt.releases == stage.Releasing? && receipt.approved
    && (stage.Releasing? ==> f.acquireResult.Some? && receipt.lock == f.acquireResult.value.lock)
  }

  /** Each receipt presupposes the earlier ones. */
  ghost predicate ReceiptsInOrder(op: OperationId, f: HoldFiles) {
    && (f.acquireIntent.Some? ==> f.before.Some? && f.acquireIntent.value == LockCall(AcquireOf(op)))
    && (f.acquireResult.Some? ==> f.acquireIntent.Some? && Identifies(op, f, f.acquireResult.value, Acquiring))
    && (f.releaseBefore.Some? ==> f.acquireResult.Some?)
    && (f.releaseIntent.Some? ==>
          && f.releaseBefore.Some? && f.acquireResult.Some?
          && f.releaseIntent.value == ReleaseCall(ReleaseOf(op), f.acquireResult.value.lock))
    && (f.releaseResult.Some? ==> f.releaseIntent.Some? && Identifies(op, f, f.releaseResult.value, Releasing))
    && (f.resumeIntent.Some? ==>
          && f.releaseResult.Some? && !f.before.value.paused && !f.releaseBefore.value.paused
          && f.resumeIntent.value == ResumeCall(f.before.value.lastAction, ReleaseOf(op)))
    && (f.resumeResult.Some? ==> f.releaseResult.Some?)
    && (f.resumeResult == Some(Admitted) ==> f.resumeIntent.Some?)
  }

  /** Every request was intended before it was sent, and none was sent twice. */
  ghost predicate SentOnce(f: HoldFiles, sent: seq<Call>) {
    && |sent| <= 3
    && (|sent| >= 1 ==> Some(sent[0]) == f.acquireIntent)
    && (|sent| >= 2 ==> Some(sent[1]) == f.releaseIntent)
    && (|sent| >= 3 ==> Some(sent[2]) == f.resumeIntent)
    && (f.acquireResult.Some? ==> |sent| >= 1)
    && (f.releaseResult.Some? ==> |sent| >= 2)
    && (f.resumeResult == Some(Admitted) ==> |sent| == 3)
  }

  /** `baseline` is the gateway's history when the baseline worker was observed. */
  ghost predicate BaselineKept(f: HoldFiles, baseline: seq<Event>, history: seq<Event>) {
    f.before.Some? ==>
      && baseline <= history && f.before.value.lastAction == LastAction(baseline)
      && (forall e <- baseline :: !e.Readmitted?) && !OtherMaintenance(f.before.value)
  }

  ghost predicate Lawful(op: OperationId, f: HoldFiles, baseline: seq<Event>, s: PlaneState) {
    PlaneSound(s) && ReceiptsInOrder(op, f) && SentOnce(f, s.issued) && BaselineKept(f, baseline, s.history)
  }

  /** The hold and the operator's decision are exactly as recorded. */
  predicate Held(f: HoldFiles, w: Worker, requireIdle: bool) {
    && f.acquireResult.Some? && f.before.Some?
    && w.drained && w.holds == 0 && w.locks == [Lock(f.acquireResult.value.lock, true)]
    && w.lastAction == f.before.value.lastAction && w.paused == f.before.value.paused && !w.recovering
    && (requireIdle ==> w.load == 0 && w.queued == 0)
  }

  /** Why readmission is left to the operator, judged on three observations. */
  function LeaveToOperator(baseline: Worker, beforeRelease: Worker, current: Worker): Option<Reason> {
    if baseline.paused then Some(PreexistingOperatorPause)
    else if beforeRelease.paused then Some(PauseBeforeRelease)
    else if baseline.lastAction != current.lastAction then Some(OperatorDecisionChanged)
    else if current.holds > 0 || current.locks != [] || current.recovering then Some(OtherMaintenancePresent)
    else None
  }

  /** Another party keeps the worker out of routing. */
  predicate OtherMaintenance(w: Worker) {
    w.holds > 0 || w.locks != [] || w.recovering
  }

  /** The reason that applies, of those that no earlier one precludes: what the two receipts, the
      gateway's history since the baseline, and the worker now say. */
  ghost predicate FirstReason(reason: Reason, paused: bool, pausedLater: bool, baseline: seq<Event>, s: PlaneState) {
    match reason
    case PreexistingOperatorPause => paused
    case PauseBeforeRelease => !paused && pausedLater
    case OperatorDecisionChanged => !paused && !pausedLater && ActedSince(s.history, |baseline|)
    case OtherMaintenancePresent => !paused && !pausedLater && !ActedSince(s.history, |baseline|) && OtherMaintenance(s.worker)
  }

  /** Nothing speaks against the readmission: not paused before, nobody acted, no other maintenance. */
  ghost predicate Untouched(paused: bool, pausedLater: bool, baseline: seq<Event>, s: PlaneState) {
    && !paused && !pausedLater
    && !ActedSince(s.history, |baseline|) && !OtherMaintenance(s.worker)
  }

  lemma JudgedRightly(op: OperationId, f: HoldFiles, baseline: seq<Event>, s: PlaneState)
    requires Lawful(op, f, baseline, s) && f.before.Some? && f.releaseBefore.Some?
    ensures
      var reason := LeaveToOperator(f.before.value, f.releaseBefore.value, s.worker);
      if reason.Some? then forall r :: r == reason.value <==> FirstReason(r, f.before.value.paused, f.releaseBefore.value.paused, baseline, s)
      else Untouched(f.before.value.paused, f.releaseBefore.value.paused, baseline, s)
  {
    ChangedIffActed(baseline, s.history);
  }

  /** A hold that is as recorded: nobody has acted since the baseline. */
  lemma HeldMeansNobodyActed(op: OperationId, f: HoldFiles, baseline: seq<Event>, s: PlaneState, requireIdle: bool)
    requires Lawful(op, f, baseline, s) && Held(f, s.worker, requireIdle)
    ensures !ActedSince(s.history, |baseline|)
  {
    ChangedIffActed(baseline, s.history);
  }

  /** No step of this operation put the worker back into routing against the operator: at every
      readmission it obtained, the operator had not acted since the baseline observation, had not
      paused the worker at that observation or before the release, and the last maintenance action
      was this operation's own release. */
  lemma OperatorAlwaysWins(op: OperationId, f: HoldFiles, baseline: seq<Event>, s: PlaneState, i: nat)
    requires Lawful(op, f, baseline, s) && i < |s.history| && s.history[i].Readmitted?
    ensures f.before.Some? && !f.before.value.paused && f.releaseBefore.Some? && !f.releaseBefore.value.paused
    ensures |baseline| <= i
    ensures forall j :: |baseline| <= j < i ==> !s.history[j].Operator? && !s.history[j].Readmitted?
    ensures LastMaintenance(s.history[..i]) == Some(ReleaseOf(op))
  {
    var h := s.history;
    var c :| c in s.issued && Justifies(c, h, i);
    assert c == f.resumeIntent.value;
    assert h[..|baseline|] == baseline;
    forall k | 0 <= k < |baseline| ensures !h[k].Readmitted? {
      assert h[k] == baseline[k];
    }
    SameActionMeansNobodyActed(h, |baseline|, i);
  }

  /** Readmission happens at most once, however often the requests are repeated or delayed. */
  lemma ReadmittedAtMostOnce(op: OperationId, f: HoldFiles, baseline: seq<Event>, s: PlaneState, i: nat, j: nat)
    requires Lawful(op, f, baseline, s) && i < |s.history| && j < |s.history|
    requires s.history[i].Readmitted? && s.history[j].Readmitted?
    ensures i == j
  {
    OperatorAlwaysWins(op, f, baseline, s, i);
    OperatorAlwaysWins(op, f, baseline, s, j);
  }

  /** No readmission happened against the operator, and none happened twice. */
  ghost predicate OperatorRespected(op: OperationId, f: HoldFiles, baseline: seq<Event>, history: seq<Event>) {
    && (forall i :: 0 <= i < |history| && history[i].Readmitted? ==>
          && f.before.Some? && !f.before.value.paused && f.releaseBefore.Some? && !f.releaseBefore.value.paused
          && |baseline| <= i && LastMaintenance(history[..i]) == Some(ReleaseOf(op))
          && forall j :: |baseline| <= j < i ==> !history[j].Operator?)
    && (forall i, j :: 0 <= i < j < |history| ==> !(history[i].Readmitted? && history[j].Readmitted?))
  }

  lemma AlwaysRespected(op: OperationId, f: HoldFiles, baseline: seq<Event>, s: PlaneState)
    requires Lawful(op, f, baseline, s)
    ensures OperatorRespected(op, f, baseline, s.history)
  {
    forall i | 0 <= i < |s.history| && s.history[i].Readmitted?
      ensures f.before.Some? && !f.before.value.paused && f.releaseBefore.Some? && !f.releaseBefore.value.paused
      ensures |baseline| <= i && LastMaintenance(s.history[..i]) == Some(ReleaseOf(op))
      ensures forall j :: |baseline| <= j < i ==> !s.history[j].Operator?
    {
      OperatorAlwaysWins(op, f, baseline, s, i);
    }
    forall i, j | 0 <= i < j < |s.history| ensures !(s.history[i].Readmitted? && s.history[j].Readmitted?) {
      if s.history[i].Readmitted? && s.history[j].Readmitted? {
        ReadmittedAtMostOnce(op, f, baseline, s, i, j);
      }
    }
  }

  lemma AnsweredMeansSent(op: OperationId, f: HoldFiles, baseline: seq<Event>, s: PlaneState, stage: Stage)
    requires Lawful(op, f, baseline, s) && StageRequest(op, stage) in s.receipts
    ensures |s.issued| >= (if stage.Acquiring? then 1 else 2)
  {
    assert Requested(StageRequest(op, stage), s.issued);
    var c :| c in s.issued && !c.ResumeCall? && c.request == StageRequest(op, stage);
  }

  /** Direct work on the native server, seen only through samples. */
  class Probe {
    var samples: seq<bool>

    constructor ()
      ensures samples == []
    {
      samples := [];
    }

    method Idle() returns (o: Outcome<bool>)
      modifies this
      ensures samples == if o.Done? then old(samples) + [o.value] else old(samples)
    {
      if * {
        var idle: bool := *;
        samples := samples + [idle];
        o := Done(idle);
      } else {
        o := Lose(Unavailable);
      }
    }
  }

  predicate TwoIdleSamples(samples: seq<bool>) {
    |samples| >= 2 && samples[|samples| - 1] && samples[|samples| - 2]
  }

  class Hold {
    const plane: Plane
    const op: OperationId
    var f: HoldFiles
    ghost var baseline: seq<Event>

    constructor (plane: Plane, op: OperationId)
      requires PlaneSound(plane.s) && plane.s.issued == []
      ensures Lawful(op, f, baseline, plane.s) && this.plane == plane && this.op == op && f == NO_FILES
    {
      this.plane, this.op := plane, op;
      f, baseline := NO_FILES, [];
    }

    /** Saves the intent and sends the request, once. */
    method Submit(stage: Stage) returns (o: Outcome<Receipt>)
      requires Lawful(op, f, baseline, plane.s) && IntentOf(f, stage).None?
      requires if stage.Acquiring? then f.before.Some? else f.acquireResult.Some? && f.releaseBefore.Some?
      modifies plane, this`f
      ensures Lawful(op, f, baseline, plane.s) && old(plane.s.history) <= plane.s.history
      ensures f == WithIntent(old(f), stage, IntentOf(f, stage))
      ensures o.Done? ==> IntentOf(f, stage).Some? && |plane.s.issued| == old(|plane.s.issued|) + 1
    {
      var call := StageCall(op, f, stage);
      var file, saved := Publish(None, call);
      f := WithIntent(f, stage, file);
      var _ :- saved;
      var reply :- plane.Post(call);
      o := if reply.Some? then Done(reply.value) else Raised(Unconfirmed);
    }

    /** Keeps a receipt only if it identifies this operation. */
    method Acknowledge(stage: Stage, receipt: Receipt) returns (o: Outcome<Receipt>)
      requires Lawful(op, f, baseline, plane.s) && ResultOf(f, stage).None? && IntentOf(f, stage).Some?
      requires |plane.s.issued| >= if stage.Acquiring? then 1 else 2
      modifies this`f
      ensures Lawful(op, f, baseline, plane.s)
      ensures f == WithResult(old(f), stage, ResultOf(f, stage))
      ensures o.Done? ==> ResultOf(f, stage) == Some(o.value)
      ensures o.Done? ==>
        && o.value.approved && (o.value.releases <==> stage.Releasing?)
        && o.value.request == (if stage.Acquiring? then AcquireOf(op) else ReleaseOf(op))
        && (stage.Releasing? ==> f.acquireResult.Some? && o.value.lock == f.acquireResult.value.lock)
    {
      if !Identifies(op, f, receipt, stage) {
        return Raised(Refused);
      }
      var file, saved := Publish(None, receipt);
      f := WithResult(f, stage, file);
      var _ :- saved;
      o := Done(receipt);
    }

    /** One submission; afterwards only its receipt is looked up. */
    method ReceiptOf(stage: Stage) returns (o: Outcome<Receipt>)
      requires Lawful(op, f, baseline, plane.s)
      requires if stage.Acquiring? then f.before.Some? else f.acquireResult.Some? && f.releaseBefore.Some?
      modifies plane, this`f
      ensures Lawful(op, f, baseline, plane.s) && old(plane.s.history) <= plane.s.history
      ensures f == WithResult(WithIntent(old(f), stage, IntentOf(f, stage)), stage, ResultOf(f, stage))
      ensures o.Done? ==> ResultOf(f, stage) == Some(o.value)
      ensures old(IntentOf(f, stage)).Some? ==> plane.s.issued == old(plane.s.issued)
    {
      var intent := IntentOf(f, stage);
      if intent.Some? && intent.value != StageCall(op, f, stage) {
        return Raised(Refused);
      }
      if ResultOf(f, stage).Some? {
        return Done(ResultOf(f, stage).value);
      }
      var receipt: Receipt;
      if intent.None? {
        receipt :- Submit(stage);
      } else {
        receipt :- plane.Lookup(StageRequest(op, stage));
        AnsweredMeansSent(op, f, baseline, plane.s, stage);
      }
      o := Acknowledge(stage, receipt);
    }

    method Acquire() returns (o: Outcome<Receipt>)
      requires Lawful(op, f, baseline, plane.s)
      modifies plane, this
      ensures Lawful(op, f, baseline, plane.s) && old(plane.s.history) <= plane.s.history
      ensures f == old(f).(before := f.before, acquireIntent := f.acquireIntent, acquireResult := f.acquireResult)
      ensures old(f.before).Some? ==> f.before == old(f.before) && baseline == old(baseline)
      ensures old(f.acquireIntent).Some? ==> plane.s.issued == old(plane.s.issued)
      ensures o.Done? ==> Held(f, plane.s.worker, false) && f.acquireResult == Some(o.value)
    {
      if f.before.None? {
        var observed :- plane.Snapshot();
        if observed.holds > 0 || observed.locks != [] || observed.recovering {
          return Raised(Refused);
        }
        baseline := plane.s.history;
        var file, saved := Publish(None, observed);
        f := f.(before := file);
        var _ :- saved;
      }
      var receipt :- ReceiptOf(Acquiring);
      var _ :- Owned(None, false);
      o := Done(receipt);
    }

    /** True, false, or an exception when the hold or the operator's decision is not as recorded. */
    method Owned(id: Option<OperationId>, requireIdle: bool) returns (o: Outcome<bool>)
      requires Lawful(op, f, baseline, plane.s)
      modifies plane
      ensures Lawful(op, f, baseline, plane.s) && PlaneDrifted(old(plane.s), plane.s)
      ensures o == Done(true) ==> id in {None, Some(op)} && Held(f, plane.s.worker, requireIdle)
      ensures o == Done(true) ==>
        && f.acquireResult.Some? && f.before.Some? && !ActedSince(plane.s.history, |baseline|)
        && var w := plane.s.worker;
        && w.drained && w.locks == [Lock(f.acquireResult.value.lock, true)] && w.holds == 0 && !w.recovering
        && w.paused == f.before.value.paused && (requireIdle ==> w.load == 0 && w.queued == 0)
      ensures o == Done(false) ==>
        || id !in {None, Some(op)} || f.acquireResult.None? || f.before.None?
        || (Held(f, plane.s.worker, false) && !Held(f, plane.s.worker, requireIdle))
      ensures o == Raised(Refused) ==> !Held(f, plane.s.worker, false)
    {
      if id.Some? && id.value != op {
        return Done(false);
      }
      if f.acquireResult.None? || f.before.None? {
        return Done(false);
      }
      var worker :- plane.Snapshot();
      var lock := f.acquireResult.value.lock;
      if || !worker.drained || worker.holds > 0 || |worker.locks| != 1
         || worker.locks[0].id != lock || !worker.locks[0].approved
         || worker.lastAction != f.before.value.lastAction || worker.paused != f.before.value.paused
         || worker.recovering {
        return Raised(Refused);
      }
      HeldMeansNobodyActed(op, f, baseline, plane.s, false);
      o := Done(!requireIdle || (worker.load == 0 && worker.queued == 0));
    }

    /** Polls until both the gateway and the native server are idle, twice in a row. `patience` is
        the number of polls before the process is stopped from outside. */
    method WaitIdle(probe: Probe, patience: nat) returns (o: Outcome<()>)
      requires Lawful(op, f, baseline, plane.s)
      modifies plane, probe
      ensures Lawful(op, f, baseline, plane.s) && PlaneDrifted(old(plane.s), plane.s)
      ensures |probe.samples| >= |old(probe.samples)|
      ensures o.Done? ==> Held(f, plane.s.worker, true)
      ensures o.Done? ==> TwoIdleSamples(probe.samples) && |probe.samples| >= |old(probe.samples)| + 2
    {
      for polls := 0 to patience
        invariant Lawful(op, f, baseline, plane.s) && PlaneDrifted(old(plane.s), plane.s)
        invariant |probe.samples| >= |old(probe.samples)|
      {
        var first :- QuietOnce(probe);
        if first {
          var second :- QuietOnce(probe);
          if second {
            return Done(());
          }
        }
      }
      o := Died;
    }

    /** One look at the hold and, if the gateway is idle, one sample of the native server. */
    method QuietOnce(probe: Probe) returns (o: Outcome<bool>)
      requires Lawful(op, f, baseline, plane.s)
      modifies plane, probe
      ensures Lawful(op, f, baseline, plane.s) && PlaneDrifted(old(plane.s), plane.s)
      ensures |probe.samples| >= |old(probe.samples)|
      ensures o == Done(true) ==> Held(f, plane.s.worker, true) && probe.samples == old(probe.samples) + [true]
    {
      var owned :- Owned(None, true);
      if !owned {
        return Done(false);
      }
      o := probe.Idle();
    }

    method Release() returns (o: Outcome<Receipt>)
      requires Lawful(op, f, baseline, plane.s)
      modifies plane, this`f
      ensures Lawful(op, f, baseline, plane.s) && old(plane.s.history) <= plane.s.history
      ensures f == old(f).(releaseBefore := f.releaseBefore, releaseIntent := f.releaseIntent,
                           releaseResult := f.releaseResult)
      ensures old(f.releaseBefore).Some? ==> f.releaseBefore == old(f.releaseBefore)
      ensures old(f.releaseIntent).Some? ==> plane.s.issued == old(plane.s.issued)
      ensures old(f.acquireResult).None? ==> !o.Done? && plane.s == old(plane.s)
      ensures o.Done? ==> f.releaseResult == Some(o.value)
    {
      if f.acquireResult.None? {
        return Raised(Refused);
      }
      if f.releaseBefore.None? {
        var observed :- plane.Snapshot();
        var file, saved := Publish(None, observed);
        f := f.(releaseBefore := file);
        var _ :- saved;
      }
      o := ReceiptOf(Releasing);
    }

    /** Asks for readmission, once, unless something speaks against it. `seen` is the gateway when it
        was judged. */
    method ResumeIfUnchanged() returns (o: Outcome<Readmission>, ghost seen: PlaneState)
      requires Lawful(op, f, baseline, plane.s)
      modifies plane, this`f
      ensures Lawful(op, f, baseline, plane.s) && old(plane.s.history) <= plane.s.history
      ensures PlaneDrifted(old(plane.s), seen) && seen.history <= plane.s.history
      ensures f == old(f).(resumeIntent := f.resumeIntent, resumeResult := f.resumeResult)
      ensures o.Done? ==> f.resumeResult == Some(o.value)
      ensures old(f.resumeIntent).Some? || old(f.resumeResult).Some? || f.releaseResult.None? ==>
        plane.s.issued == old(plane.s.issued) && f == old(f)
      ensures f.releaseResult.Some? ==> f.before.Some? && f.releaseBefore.Some?
      ensures f.resumeIntent != old(f.resumeIntent) || plane.s.issued != old(plane.s.issued) ==>
        f.releaseResult.Some? && Untouched(f.before.value.paused, f.releaseBefore.value.paused, baseline, seen)
      ensures o.Done? && o.value.LeftToOperator? ==> plane.s.issued == old(plane.s.issued)
      ensures o.Done? && o.value.LeftToOperator? && old(f.resumeResult).None? ==>
        && f.releaseResult.Some? && plane.s == seen
        && forall r :: r == o.value.reason <==>
                         FirstReason(r, f.before.value.paused, f.releaseBefore.value.paused, baseline, seen)
      ensures o == Done(Admitted) && old(f.resumeResult).None? ==>
        !plane.s.worker.drained && plane.s.worker.holds == 0 && plane.s.worker.locks == []
      ensures o == Raised(Refused) ==> f.releaseResult.None? || f.resumeIntent.Some?
    {
      seen := plane.s;
      if f.releaseResult.None? {
        o := Raised(Refused);
        return;
      }
      if f.resumeResult.Some? {
        o := Done(f.resumeResult.value);
        return;
      }
      if f.resumeIntent.Some? {
        o := Raised(Refused);   // an uncertain readmission is never submitted again
        return;
      }
      var judged := Judge();
      seen := plane.s;
      var reason :- judged;
      if reason.Some? {
        o := SaveReadmission(LeftToOperator(reason.value));
        return;
      }
      var _ :- SubmitResume();
      o := SaveReadmission(Admitted);
    }

    /** Whether something speaks against the readmission, on one observation of the worker. */
    method Judge() returns (o: Outcome<Option<Reason>>)
      requires Lawful(op, f, baseline, plane.s) && f.before.Some? && f.releaseBefore.Some?
      modifies plane
      ensures Lawful(op, f, baseline, plane.s) && PlaneDrifted(old(plane.s), plane.s)
      ensures o.Done? ==>
        if o.value.Some? then
          forall r :: r == o.value.value <==>
                        FirstReason(r, f.before.value.paused, f.releaseBefore.value.paused, baseline, plane.s)
        else Untouched(f.before.value.paused, f.releaseBefore.value.paused, baseline, plane.s)
      ensures o != Raised(Refused)
    {
      var current :- plane.Snapshot();
      JudgedRightly(op, f, baseline, plane.s);
      o := Done(LeaveToOperator(f.before.value, f.releaseBefore.value, current));
    }

    method SaveReadmission(result: Readmission) returns (o: Outcome<Readmission>)
      requires Lawful(op, f, baseline, plane.s) && f.releaseResult.Some? && f.resumeResult.None?
      requires result.Admitted? ==> f.resumeIntent.Some? && |plane.s.issued| == 3
      modifies this`f
      ensures Lawful(op, f, baseline, plane.s) && f == old(f).(resumeResult := f.resumeResult)
      ensures o.Done? ==> o.value == result && f.resumeResult == Some(result)
      ensures o != Raised(Refused)
    {
      var file, saved := Publish(None, result);
      f := f.(resumeResult := file);
      var _ :- saved;
      o := Done(result);
    }

    /** If the operator acted after the baseline, or had paused the worker, nothing is asked for; if
        nothing speaks against it, nothing is left to the operator. */
    method ResumeAsTheOperatorWishes() returns (o: Outcome<Readmission>)
      requires Lawful(op, f, baseline, plane.s) && f.releaseResult.Some? && f.resumeResult.None?
      modifies plane, this`f
      ensures Lawful(op, f, baseline, plane.s) && f.before.Some? && f.releaseBefore.Some?
      ensures
        ActedSince(old(plane.s.history), |baseline|) || f.before.value.paused || f.releaseBefore.value.paused ==>
          plane.s.issued == old(plane.s.issued) && o != Done(Admitted)
      ensures o.Done? && Untouched(f.before.value.paused, f.releaseBefore.value.paused, baseline, plane.s) ==> o.value.Admitted?
    {
      ghost var history := plane.s.history;
      ghost var seen;
      o, seen := ResumeIfUnchanged();
      if ActedSince(history, |baseline|) {
        var j :| |baseline| <= j < |history| && TakesId(history[j]);
        assert seen.history[j] == history[j];
      }
      if o.Done? && o.value.LeftToOperator? {
        assert FirstReason(o.value.reason, f.before.value.paused, f.releaseBefore.value.paused, baseline, seen);
      }
    }

    /** The only submission of the resume, and the observation that confirms it. */
    method SubmitResume() returns (o: Outcome<()>)
      requires Lawful(op, f, baseline, plane.s) && f.releaseResult.Some? && f.resumeIntent.None?
      requires !f.before.value.paused && !f.releaseBefore.value.paused
      modifies plane, this`f
      ensures Lawful(op, f, baseline, plane.s) && old(plane.s.history) <= plane.s.history
      ensures f == old(f).(resumeIntent := f.resumeIntent)
      ensures o.Done? ==> f.resumeIntent.Some? && |plane.s.issued| == 3
      ensures o == Raised(Refused) ==> f.resumeIntent.Some?
      ensures o.Done? ==>
        !plane.s.worker.drained && plane.s.worker.holds == 0 && plane.s.worker.locks == []
    {
      var call := ResumeCall(f.before.value.lastAction, f.releaseResult.value.request);
      var file, saved := Publish(None, call);
      f := f.(resumeIntent := file);
      var _ :- saved;
      var _ :- plane.Post(call);
      var after :- plane.Snapshot();
      if after.drained || after.holds > 0 || after.locks != [] {
        return Raised(Unconfirmed);
      }
      o := Done(());
    }

    /** The four calls in any order and any number, each of which may fail or die anywhere, while the
        operator and the gateway's other clients act in between. */
    method AnyRun(probe: Probe)
      requires Lawful(op, f, baseline, plane.s)
      modifies plane, probe, this
      ensures Lawful(op, f, baseline, plane.s) && OperatorRespected(op, f, baseline, plane.s.history)
      ensures |plane.s.issued| <= 3
      ensures forall i, j :: 0 <= i < j < |plane.s.issued| ==> plane.s.issued[i] != plane.s.issued[j]
    {
      var calls: nat :| 0 <= calls;
      for _ := 0 to calls
        invariant Lawful(op, f, baseline, plane.s)
      {
        if * {
          var _ := Acquire();
        } else if * {
          var _ := WaitIdle(probe, 1);
        } else if * {
          var _ := Release();
        } else {
          var _, _ := ResumeIfUnchanged();
        }
      }
      AlwaysRespected(op, f, baseline, plane.s);
    }
  }
}
