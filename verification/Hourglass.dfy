/** One native measurement: submitted once, observed until it ends, and only then readmitted.

    Any number of processes run, re-enter, reconcile and crash. They share the operation's folder and
    the native controller, and between any two of their steps every other process may take steps of
    its own. A process only moves as `May` permits; `Invariant` is kept by every permitted move, and
    the methods of `Participant` are proved to make no other. */
module Hourglass {
  import opened Effects

  type ProcessId = nat
  type Plan = string
  type Job = string

  datatype JobState = Pending | Running | Completed | Stopped | Errored | Cancelled | Unknown

  predicate Terminal(state: JobState) {
    state.Completed? || state.Stopped? || state.Errored? || state.Cancelled?
  }

  /** `Accepted` and `Ended` happen at the native controller, whether or not anybody is told. */
  datatype Event =
    | Submitted(process: ProcessId, plan: Plan)
    | Accepted(process: ProcessId, job: Job)
    | RejectionProved(process: ProcessId)
    | Ended(job: Job, state: JobState)
    | SawOwned(process: ProcessId)
    | SawIdle(process: ProcessId)
    | SawTarget(process: ProcessId)
    | ReleaseBegun(process: ProcessId)
    | ResumeBegun(process: ProcessId)

  /** No job: rejected before acceptance. */
  datatype Result = Result(job: Option<Job>, state: Option<JobState>)

  /** The receipts, each published once; `start` and `readmission` name the process that published
      them. `inFlight`: the native server is working on a request of the measurement. A trial runs
      inside a serving window that it neither acquires nor releases. */
  datatype World = World(
    trial: bool,
    plan: Option<Plan>, start: Option<ProcessId>, acceptance: Option<Job>, rejection: bool,
    readmission: Option<ProcessId>, result: Option<Result>,
    inFlight: bool, log: seq<Event>)

  function Initial(trial: bool): World {
    World(trial, None, None, None, false, None, None, false, [])
  }

  datatype Move =
    | SavePlan(plan: Plan) | ClaimStart | Submit(plan: Plan) | LearnRejection
    | SaveRejection | SaveAcceptance(job: Job)
    | NoteOwned | NoteIdle | NoteTarget | ClaimReadmission | Release | Resume | SaveResult(result: Result)
    | Accept(job: Job) | End(job: Job, state: JobState) | RequestBegins | RequestEnds

  /** Moves of the native controller and its server. */
  predicate Native(move: Move) {
    move.Accept? || move.End? || move.RequestBegins? || move.RequestEnds?
  }

  // ---------------------------------------------------------------------------------------------
  // What a log shows

  predicate WasAccepted(log: seq<Event>) {
    exists e <- log :: e.Accepted?
  }

  predicate WasRejected(log: seq<Event>) {
    exists e <- log :: e.RejectionProved?
  }

  predicate HasEnded(log: seq<Event>, job: Job) {
    exists e <- log :: e.Ended? && e.job == job
  }

  /** How far a process has come towards readmission: the work is over (1), the server was idle
      after that (2), and the target was verified after that (3). */
  function Finished(log: seq<Event>, me: ProcessId): (n: nat)
    ensures n <= 3
  {
    if log == [] then 0
    else
      var n, e := Finished(log[..|log| - 1], me), log[|log| - 1];
      if n == 0 && (e.Ended? || e.RejectionProved?) then 1
      else if n == 1 && e == SawIdle(me) then 2
      else if n == 2 && e == SawTarget(me) then 3
      else n
  }

  /** How far a process has come towards submission: idle (1), then target verified (2). */
  function Prepared(log: seq<Event>, me: ProcessId): (n: nat)
    ensures n <= 2
  {
    if log == [] then 0
    else
      var n, e := Prepared(log[..|log| - 1], me), log[|log| - 1];
      if n == 0 && e == SawIdle(me) then 1
      else if n == 1 && e == SawTarget(me) then 2
      else n
  }

  /** The process has seen that it owns the hold, and not yet used that for a sample. */
  predicate OwnedSeen(log: seq<Event>, me: ProcessId) {
    if log == [] then false
    else
      var e := log[|log| - 1];
      e == SawOwned(me) || (e != SawIdle(me) && OwnedSeen(log[..|log| - 1], me))
  }

  /** How many samples the process has taken: the hold seen owned, then the native server idle. */
  function Samples(log: seq<Event>, me: ProcessId): nat {
    if log == [] then 0
    else
      var most := log[..|log| - 1];
      Samples(most, me) + (if log[|log| - 1] == SawIdle(me) && OwnedSeen(most, me) then 1 else 0)
  }

  lemma SamplesAppend(log: seq<Event>, e: Event, me: ProcessId)
    ensures Samples(log + [e], me) == Samples(log, me) + (if e == SawIdle(me) && OwnedSeen(log, me) then 1 else 0)
    ensures OwnedSeen(log + [e], me) <==> e == SawOwned(me) || (e != SawIdle(me) && OwnedSeen(log, me))
  {
    assert (log + [e])[..|log|] == log;
  }

  lemma {:induction false} SamplesGrow(log: seq<Event>, more: seq<Event>, me: ProcessId)
    ensures Samples(log + more, me) >= Samples(log, me)
    ensures (forall i :: 0 <= i < |more| ==> more[i] != SawIdle(me)) && OwnedSeen(log, me) ==> OwnedSeen(log + more, me)
    decreases |more|
  {
    if more == [] {
      assert log + more == log;
    } else {
      var most, e := more[..|more| - 1], more[|more| - 1];
      assert more == most + [e];
      SamplesGrow(log, most, me);
      SamplesAppend(log + most, e, me);
      assert log + most + [e] == log + more;
    }
  }

  lemma FinishedAppend(log: seq<Event>, e: Event, me: ProcessId)
    ensures Finished(log + [e], me) >= Finished(log, me)
    ensures Finished(log + [e], me) > Finished(log, me) ==>
              e == SawIdle(me) || e == SawTarget(me) || e.Ended? || e.RejectionProved?
    ensures e == SawIdle(me) && Finished(log, me) == 1 ==> Finished(log + [e], me) == 2
    ensures e == SawTarget(me) && Finished(log, me) == 2 ==> Finished(log + [e], me) == 3
    ensures e.Ended? || e.RejectionProved? ==> Finished(log + [e], me) >= 1
    ensures Finished(log, me) <= 1 && e != SawIdle(me) ==> Finished(log + [e], me) <= 1
  {
    assert (log + [e])[..|log|] == log;
  }

  lemma PreparedAppend(log: seq<Event>, e: Event, me: ProcessId)
    ensures Prepared(log + [e], me) >= Prepared(log, me)
    ensures e == SawIdle(me) ==> Prepared(log + [e], me) >= 1
    ensures e == SawTarget(me) && Prepared(log, me) >= 1 ==> Prepared(log + [e], me) == 2
  {
    assert (log + [e])[..|log|] == log;
  }

  lemma {:induction false} ProgressGrows(log: seq<Event>, more: seq<Event>, me: ProcessId)
    ensures Finished(log + more, me) >= Finished(log, me)
    ensures Prepared(log + more, me) >= Prepared(log, me)
    decreases |more|
  {
    if more == [] {
      assert log + more == log;
    } else {
      var most, e := more[..|more| - 1], more[|more| - 1];
      ProgressGrows(log, most, me);
      FinishedAppend(log + most, e, me);
      PreparedAppend(log + most, e, me);
      assert log + most + [e] == log + more;
    }
  }

  /** Once the work is over, every process that looks has come at least to 1. */
  lemma {:induction false} OverIsFirst(log: seq<Event>, me: ProcessId)
    ensures Finished(log, me) >= 1 <==> exists e <- log :: e.Ended? || e.RejectionProved?
  {
    if log != [] {
      var most, e := log[..|log| - 1], log[|log| - 1];
      OverIsFirst(most, me);
      assert log == most + [e];
      assert forall x :: x in log <==> x in most || x == e;
    }
  }

  // ---------------------------------------------------------------------------------------------
  // The moves

  predicate ResultTrue(w: World, r: Result) {
    match r.job
    case None => r.state.None? && WasRejected(w.log)
    case Some(job) => w.acceptance == Some(job) && r.state.Some? && Ended(job, r.state.value) in w.log
  }

  predicate May(w: World, me: ProcessId, move: Move) {
    match move
    case SavePlan(_) => w.plan.None?
    case ClaimStart => w.start.None? && w.plan.Some? && Prepared(w.log, me) == 2
    case Submit(plan) => w.start == Some(me) && w.plan == Some(plan) && forall e <- w.log :: !(e.Submitted? && e.process == me)
    case LearnRejection => w.start == Some(me) && (exists e <- w.log :: e.Submitted? && e.process == me) && !WasAccepted(w.log)
    case SaveRejection => w.start == Some(me) && RejectionProved(me) in w.log
    case SaveAcceptance(job) => w.acceptance.None? && w.start == Some(me) && Accepted(me, job) in w.log
    case NoteOwned => true
    case NoteIdle => !w.inFlight
    case NoteTarget => true
    case ClaimReadmission => !w.trial && w.readmission.None? && Finished(w.log, me) == 3
    case Release => w.readmission == Some(me) && ReleaseBegun(me) !in w.log
    case Resume => w.readmission == Some(me) && ReleaseBegun(me) in w.log && ResumeBegun(me) !in w.log
    case SaveResult(r) =>
      && w.result.None? && ResultTrue(w, r)
      && (if w.trial then w.start == Some(me) && (r.job.Some? ==> Finished(w.log, me) == 3)
          else w.readmission == Some(me) && ResumeBegun(me) in w.log)
    case Accept(job) => (exists e <- w.log :: e.Submitted? && e.process == me) && !WasAccepted(w.log) && !WasRejected(w.log)
    case End(job, state) => Terminal(state) && (exists e <- w.log :: e.Accepted? && e.job == job) && !HasEnded(w.log, job)
    case RequestBegins => exists e <- w.log :: e.Accepted? && !HasEnded(w.log, e.job)
    case RequestEnds => w.inFlight
  }

  /** The event a move leaves in the log. */
  function Trace(me: ProcessId, move: Move): seq<Event> {
    match move
    case Submit(plan) => [Submitted(me, plan)]
    case LearnRejection => [RejectionProved(me)]
    case NoteOwned => [SawOwned(me)]
    case NoteIdle => [SawIdle(me)]
    case NoteTarget => [SawTarget(me)]
    case Release => [ReleaseBegun(me)]
    case Resume => [ResumeBegun(me)]
    case Accept(job) => [Accepted(me, job)]
    case End(job, state) => [Ended(job, state)]
    case _ => []
  }

  function Do(w: World, me: ProcessId, move: Move): World {
    var t := w.(log := w.log + Trace(me, move));
    match move
    case SavePlan(plan) => t.(plan := Some(plan))
    case ClaimStart => t.(start := Some(me))
    case SaveRejection => t.(rejection := true)
    case SaveAcceptance(job) => t.(acceptance := Some(job))
    case ClaimReadmission => t.(readmission := Some(me))
    case SaveResult(r) => t.(result := Some(r))
    case RequestBegins => t.(inFlight := true)
    case RequestEnds => t.(inFlight := false)
    case _ => t
  }

  // ---------------------------------------------------------------------------------------------
  // What every permitted move keeps

  /** Two submissions, two acceptances, two releases, or two requests to resume. */
  predicate SameCall(a: Event, b: Event) {
    match a
    case Submitted(_, _) => b.Submitted?
    case Accepted(_, _) => b.Accepted?
    case ReleaseBegun(_) => b.ReleaseBegun?
    case ResumeBegun(_) => b.ResumeBegun?
    case _ => false
  }

  /** Submitted, accepted, released and resumed at most once each. */
  ghost predicate AllOnce(log: seq<Event>) {
    forall i, j :: 0 <= i < j < |log| ==> !SameCall(log[i], log[j])
  }

  /** An event is explained by the receipts that were there before it. */
  ghost predicate Explained(w: World, e: Event) {
    match e
    case Submitted(p, plan) => w.start == Some(p) && w.plan == Some(plan)
    case Accepted(p, _) => w.start == Some(p) && !WasRejected(w.log)
    case RejectionProved(p) => w.start == Some(p)
    case Ended(job, state) => Terminal(state) && exists a <- w.log :: a.Accepted? && a.job == job
    case ReleaseBegun(p) => w.readmission == Some(p)
    case ResumeBegun(p) => w.readmission == Some(p)
    case _ => true
  }

  ghost predicate ReceiptsTrue(w: World) {
    && (w.acceptance.Some? ==> exists e <- w.log :: e.Accepted? && e.job == w.acceptance.value)
    && (w.rejection ==> WasRejected(w.log))
    && (w.result.Some? ==> ResultTrue(w, w.result.value))
    && (w.trial ==> w.readmission.None?)
  }

  /** No job of the measurement runs, and the server works on none of its requests. */
  ghost predicate Quiet(w: World) {
    !w.inFlight && forall e <- w.log :: e.Accepted? ==> HasEnded(w.log, e.job)
  }

  /** Work can be in flight only for an accepted job, and not once somebody saw an idle server after
      the job had ended. */
  ghost predicate WorkBounded(w: World) {
    && (w.inFlight ==> WasAccepted(w.log))
    && (forall p: ProcessId :: Finished(w.log, p) >= 2 ==> !w.inFlight)
    && (w.readmission.Some? || (w.result.Some? && w.result.value.job.Some?) ==> exists p: ProcessId :: Finished(w.log, p) >= 2)
  }

  ghost predicate Invariant(w: World) {
    AllOnce(w.log) && (forall e <- w.log :: Explained(w, e)) && ReceiptsTrue(w) && WorkBounded(w)
  }

  lemma InitiallyInvariant(trial: bool)
    ensures Invariant(Initial(trial))
  {
  }

  /** An event of a kind not seen before. */
  lemma AppendOnce(log: seq<Event>, e: Event)
    requires AllOnce(log) && forall x <- log :: !SameCall(x, e)
    ensures AllOnce(log + [e])
  {
    var t := log + [e];
    assert forall i :: 0 <= i < |log| ==> t[i] == log[i] && log[i] in log;
  }

  /** Receipts and events only accumulate. */
  ghost predicate Grown(w: World, t: World) {
    && w.trial == t.trial && w.log <= t.log
    && (w.plan.Some? ==> t.plan == w.plan) && (w.start.Some? ==> t.start == w.start)
    && (w.acceptance.Some? ==> t.acceptance == w.acceptance) && (w.rejection ==> t.rejection)
    && (w.readmission.Some? ==> t.readmission == w.readmission) && (w.result.Some? ==> t.result == w.result)
  }

  lemma DoGrows(w: World, me: ProcessId, move: Move)
    requires May(w, me, move)
    ensures Grown(w, Do(w, me, move)) && Do(w, me, move).log == w.log + Trace(me, move)
  {
  }

  lemma DoKeepsExplained(w: World, me: ProcessId, move: Move)
    requires May(w, me, move) && Invariant(w)
    ensures var t := Do(w, me, move); forall e <- t.log :: Explained(t, e)
  {
    var t := Do(w, me, move);
    assert t.log == w.log + Trace(me, move);
    forall e <- t.log ensures Explained(t, e) {
      if e in w.log {
        StaysExplained(w, me, move, e);
      } else {
        NewExplained(w, me, move, e);
      }
    }
  }

  lemma StaysExplained(w: World, me: ProcessId, move: Move, e: Event)
    requires May(w, me, move) && Invariant(w) && e in w.log
    ensures Explained(Do(w, me, move), e)
  {
    var t := Do(w, me, move);
    assert Explained(w, e);
    assert t.log == w.log + Trace(me, move);
    if e.Ended? {
      var a :| a in w.log && a.Accepted? && a.job == e.job;
      assert a in t.log;
    }
  }

  lemma NewExplained(w: World, me: ProcessId, move: Move, e: Event)
    requires May(w, me, move) && Invariant(w) && e in Trace(me, move)
    ensures Explained(Do(w, me, move), e)
  {
    var t := Do(w, me, move);
    assert t.log == w.log + Trace(me, move);
    if e.Ended? {
      var a :| a in w.log && a.Accepted? && a.job == e.job;
      assert a in t.log;
    } else if e.Accepted? || e.RejectionProved? {
      var submitted :| submitted in w.log && submitted.Submitted? && submitted.process == me;
      assert Explained(w, submitted);
    }
  }

  lemma DoKeepsOnce(w: World, me: ProcessId, move: Move)
    requires May(w, me, move) && Invariant(w)
    ensures AllOnce(Do(w, me, move).log)
  {
    if Trace(me, move) == [] {
      assert Do(w, me, move).log == w.log;
    } else {
      var e := Trace(me, move)[0];
      assert Do(w, me, move).log == w.log + [e];
      forall x <- w.log ensures !SameCall(x, e) {
        assert Explained(w, x);
      }
      AppendOnce(w.log, e);
    }
  }

  lemma DoKeepsReceipts(w: World, me: ProcessId, move: Move)
    requires May(w, me, move) && Invariant(w)
    ensures ReceiptsTrue(Do(w, me, move))
  {
    var t := Do(w, me, move);
    assert forall e <- w.log :: e in t.log;
  }

  lemma OneAcceptance(w: World, a: Event, b: Event)
    requires Invariant(w) && a in w.log && b in w.log && a.Accepted? && b.Accepted?
    ensures a == b
  {
    var i :| 0 <= i < |w.log| && w.log[i] == a;
    var j :| 0 <= j < |w.log| && w.log[j] == b;
    assert SameCall(a, b) && SameCall(b, a);
  }

  /** Proven rejection, or the end of the one accepted job, leaves no job running. */
  lemma OverMeansEnded(w: World, over: Event)
    requires Invariant(w) && over in w.log && (over.Ended? || over.RejectionProved?)
    ensures forall e <- w.log :: e.Accepted? ==> HasEnded(w.log, e.job)
  {
    assert Explained(w, over);
    forall e <- w.log | e.Accepted? ensures HasEnded(w.log, e.job) {
      assert Explained(w, e);
      assert over.Ended?;
      var a :| a in w.log && a.Accepted? && a.job == over.job;
      OneAcceptance(w, a, e);
    }
  }

  lemma IdleMeansQuiet(w: World, p: ProcessId)
    requires Invariant(w) && Finished(w.log, p) >= 2
    ensures Quiet(w)
  {
    OverIsFirst(w.log, p);
    var over :| over in w.log && (over.Ended? || over.RejectionProved?);
    OverMeansEnded(w, over);
  }

  lemma DoKeepsBounded(w: World, me: ProcessId, move: Move)
    requires May(w, me, move) && Invariant(w)
    ensures WorkBounded(Do(w, me, move))
  {
    var t := Do(w, me, move);
    assert forall e <- w.log :: e in t.log;
    forall p: ProcessId ensures Finished(t.log, p) >= Finished(w.log, p)
      ensures Finished(t.log, p) >= 2 ==> !t.inFlight
    {
      if Trace(me, move) == [] {
        assert t.log == w.log;
      } else {
        FinishedAppend(w.log, Trace(me, move)[0], p);
      }
      if move.RequestBegins? && Finished(w.log, p) >= 2 {
        IdleMeansQuiet(w, p);
        assert false;
      }
    }
  }

  /** Whoever moves, and whatever moves the native controller makes. */
  lemma DoKeepsInvariant(w: World, me: ProcessId, move: Move)
    requires May(w, me, move) && Invariant(w)
    ensures Invariant(Do(w, me, move)) && Grown(w, Do(w, me, move))
  {
    DoGrows(w, me, move);
    DoKeepsExplained(w, me, move);
    DoKeepsOnce(w, me, move);
    DoKeepsReceipts(w, me, move);
    DoKeepsBounded(w, me, move);
  }

  function Play(w: World, moves: seq<(ProcessId, Move)>): World
    decreases |moves|
  {
    if moves == [] then w
    else
      var t := if May(w, moves[0].0, moves[0].1) then Do(w, moves[0].0, moves[0].1) else w;
      Play(t, moves[1..])
  }

  lemma {:induction false} PlayKeepsInvariant(w: World, moves: seq<(ProcessId, Move)>)
    requires Invariant(w)
    ensures Invariant(Play(w, moves))
    ensures Play(w, moves).trial == w.trial
    decreases |moves|
  {
    if moves != [] {
      if May(w, moves[0].0, moves[0].1) {
        DoKeepsInvariant(w, moves[0].0, moves[0].1);
        PlayKeepsInvariant(Do(w, moves[0].0, moves[0].1), moves[1..]);
      } else {
        PlayKeepsInvariant(w, moves[1..]);
      }
    }
  }

  /** For every interleaving of every number of processes, the original run, its re-entries and the
      reconcile path together submit, release and resume at most once each. From the moment
      readmission begins, or a trial has its result, the one accepted job has ended, the server works
      on none of its requests, and neither will change. */
  lemma OneMeasurement(trial: bool, moves: seq<(ProcessId, Move)>)
    ensures var w := Play(Initial(trial), moves);
      && AllOnce(w.log)
      && (w.readmission.Some? || (trial && w.result.Some?) ==> Quiet(w))
      && (forall e <- w.log :: e.ReleaseBegun? || e.ResumeBegun? ==> !trial && w.readmission == Some(e.process))
      && (forall e <- w.log :: e.Submitted? ==> w.start == Some(e.process) && w.plan == Some(e.plan))
      && (w.result.Some? ==> ResultTrue(w, w.result.value))
  {
    InitiallyInvariant(trial);
    PlayKeepsInvariant(Initial(trial), moves);
    var w := Play(Initial(trial), moves);
    if w.readmission.Some? || (trial && w.result.Some?) {
      QuietOnceReadmitted(w);
    }
    assert forall e <- w.log :: Explained(w, e);
  }

  lemma QuietOnceReadmitted(w: World)
    requires Invariant(w) && (w.readmission.Some? || w.result.Some?)
    ensures Quiet(w)
  {
    if w.readmission.Some? || w.result.value.job.Some? {
      var p: ProcessId :| Finished(w.log, p) >= 2;
      IdleMeansQuiet(w, p);
    } else {
      var r :| r in w.log && r.RejectionProved?;
      OverMeansEnded(w, r);
      assert forall e <- w.log :: e.Accepted? ==> Explained(w, e);
    }
  }

  // ---------------------------------------------------------------------------------------------
  // One process among others

  function Owner(e: Event): Option<ProcessId> {
    match e
    case Accepted(_, _) => None
    case Ended(_, _) => None
    case _ => Some(e.process)
  }

  /** Nothing that was added to the log is this process's own. */
  ghost predicate NoneBy(me: ProcessId, before: seq<Event>, after: seq<Event>) {
    before <= after && forall i :: |before| <= i < |after| ==> Owner(after[i]) != Some(me)
  }

  /** What the receipts of a claim allow its holder alone. */
  ghost predicate ClaimsRespected(w: World, t: World, me: ProcessId) {
    && (t.start == Some(me) ==> w.start == Some(me))
    && (w.start == Some(me) ==> t.acceptance == w.acceptance)
    && (t.readmission == Some(me) ==> w.readmission == Some(me))
    && (w.readmission == Some(me) ==> t.result == w.result)
    && (w.trial && w.start == Some(me) ==> t.result == w.result)
  }

  /** What the other processes and the native controller may have done meanwhile. */
  ghost predicate Since(w: World, t: World, me: ProcessId) {
    Grown(w, t) && NoneBy(me, w.log, t.log) && ClaimsRespected(w, t, me)
  }

  lemma NoneByTrace(me: ProcessId, log: seq<Event>, move: Move)
    ensures NoneBy(me, log, log) && (Trace(me, move) == [] ==> log + Trace(me, move) == log)
  {
  }

  lemma OthersTrace(me: ProcessId, who: ProcessId, move: Move, before: seq<Event>, log: seq<Event>)
    requires NoneBy(me, before, log) && (who != me || Native(move))
    ensures NoneBy(me, before, log + Trace(who, move))
  {
    assert Trace(who, move) != [] ==> Owner(Trace(who, move)[0]) != Some(me);
  }

  lemma NotMine(me: ProcessId, before: seq<Event>, after: seq<Event>, e: Event)
    requires NoneBy(me, before, after) && Owner(e) == Some(me) && e !in before
    ensures e !in after
  {
  }

  lemma OthersClaim(w: World, t: World, me: ProcessId, who: ProcessId, move: Move)
    requires Grown(w, t) && ClaimsRespected(w, t, me) && May(t, who, move) && (who != me || Native(move))
    requires t.trial ==> t.readmission.None?
    ensures ClaimsRespected(w, Do(t, who, move), me)
  {
  }

  lemma GrownTwice(w: World, t: World, u: World)
    requires Grown(w, t) && Grown(t, u)
    ensures Grown(w, u)
  {
  }

  /** What a process has claimed and done stays its own whatever the others do. */
  lemma OthersMove(w: World, t: World, me: ProcessId, who: ProcessId, move: Move)
    requires Since(w, t, me) && (t.trial ==> t.readmission.None?) && May(t, who, move) && (who != me || Native(move))
    ensures Since(w, Do(t, who, move), me)
  {
    DoGrows(t, who, move);
    GrownTwice(w, t, Do(t, who, move));
    OthersTrace(me, who, move, w.log, t.log);
    OthersClaim(w, t, me, who, move);
  }

  /** Without the claim nothing has been submitted. */
  lemma NothingSubmitted(w: World)
    requires Invariant(w) && w.start.None?
    ensures w.acceptance.None? && forall e <- w.log :: !e.Submitted?
  {
    assert forall e <- w.log :: Explained(w, e) ==> !e.Submitted? && !e.Accepted?;
  }

  /** Without the readmission intent nothing has been released. */
  lemma NothingReleased(w: World)
    requires Invariant(w) && w.readmission.None?
    ensures forall e <- w.log :: !e.ReleaseBegun? && !e.ResumeBegun?
  {
    assert forall e <- w.log :: Explained(w, e) ==> !e.ReleaseBegun? && !e.ResumeBegun?;
  }

  /** A result is about the job that was accepted. */
  lemma ResultIsOfTheJob(w: World)
    requires Invariant(w) && w.result.Some?
    ensures w.acceptance.Some? ==> w.result.value.job == w.acceptance
  {
    if w.acceptance.Some? {
      var e :| e in w.log && e.Accepted? && e.job == w.acceptance.value;
      assert Explained(w, e);
    }
  }

  class Participant {
    const me: ProcessId
    const plan: Plan
    var w: World

    constructor (me: ProcessId, plan: Plan, w: World)
      requires Invariant(w)
      ensures this.me == me && this.plan == plan && this.w == w
    {
      this.me, this.plan, this.w := me, plan, w;
    }

    /** Any number of moves of the others. */
    method Others()
      requires Invariant(w)
      modifies this`w
      ensures Invariant(w) && Since(old(w), w, me)
    {
      var moves: nat :| 0 <= moves;
      for _ := 0 to moves
        invariant Invariant(w) && Since(old(w), w, me)
      {
        var who: ProcessId := *;
        var move: Move := *;
        if May(w, who, move) && (who != me || Native(move)) {
          OthersMove(old(w), w, me, who, move);
          DoKeepsInvariant(w, who, move);
          w := Do(w, who, move);
        }
      }
    }

    /** One move of this process. It may die before the move or right after it. */
    method Take(move: Move) returns (o: Outcome<()>)
      requires Invariant(w) && May(w, me, move)
      modifies this`w
      ensures Invariant(w) && Grown(old(w), w)
      ensures o.Done? ==> Since(Do(old(w), me, move), w, me)
      ensures o.Done? ==> forall e <- Trace(me, move) :: e in w.log
      ensures !o.Raised?
      ensures Trace(me, move) == [] ==> NoneBy(me, old(w).log, w.log)
    {
      if * {
        return Died;
      }
      DoKeepsInvariant(w, me, move);
      w := Do(w, me, move);
      assert forall e <- Trace(me, move) :: e in w.log;
      DoGrows(old(w), me, move);
      NoneByTrace(me, old(w).log, move);
      Others();
      if * {
        return Died;
      }
      o := Done(());
    }

    /** Time passes; the caller may not live to see it, or the call may fail. */
    method Call(fault: Fault) returns (o: Outcome<()>)
      requires Invariant(w)
      modifies this`w
      ensures Invariant(w) && Since(old(w), w, me)
    {
      Others();
      if * {
        o := Lose(fault);
      } else {
        o := Done(());
      }
    }

    /** `save(folder, 'measurement-plan.json', plan)` unless the recorded plan is this one. */
    method AgreePlan() returns (o: Outcome<()>)
      requires Invariant(w)
      modifies this`w
      ensures Invariant(w) && Grown(old(w), w)
      ensures o.Done? ==> w.plan == Some(plan)
      ensures NoneBy(me, old(w).log, w.log)
    {
      Others();
      var recorded := w.plan;
      if recorded.None? {
        o := SavePlanOnce();
      } else if recorded != Some(plan) {
        o := Lose(Refused);
      } else {
        o := Done(());
      }
    }

    method SavePlanOnce() returns (o: Outcome<()>)
      requires Invariant(w)
      modifies this`w
      ensures Invariant(w) && Grown(old(w), w)
      ensures o.Done? ==> w.plan == Some(plan)
      ensures NoneBy(me, old(w).log, w.log)
    {
      Others();
      if w.plan.Some? {
        o := Lose(Refused);
      } else {
        o := Take(SavePlan(plan));
      }
    }

    method CheckTarget() returns (o: Outcome<()>)
      requires Invariant(w)
      modifies this`w
      ensures Invariant(w) && Grown(old(w), w)
      ensures o.Done? ==> (Finished(old(w).log, me) >= 2 ==> Finished(w.log, me) == 3)
      ensures o.Done? ==> (Prepared(old(w).log, me) >= 1 ==> Prepared(w.log, me) == 2)
    {
      var _ :- Call(Unavailable);
      ghost var before := w.log;
      o := Take(NoteTarget);
      ProgressIn(old(w).log, before, me);
      FinishedAppend(before, SawTarget(me), me);
      PreparedAppend(before, SawTarget(me), me);
      if o.Done? {
        ProgressIn(before + [SawTarget(me)], w.log, me);
      }
    }

    /** The hold is seen owned, and the gateway idle. */
    method CheckOwned() returns (o: Outcome<()>)
      requires Invariant(w)
      modifies this`w
      ensures Invariant(w) && Grown(old(w), w)
      ensures o.Done? ==> OwnedSeen(w.log, me)
    {
      var _ :- Call(Refused);
      ghost var before := w.log;
      o := Take(NoteOwned);
      if o.Done? {
        SamplesAppend(before, SawOwned(me), me);
        SamplesIn(before + [SawOwned(me)], w.log, me);
      }
    }

    /** The native server is seen idle, or not. */
    method CheckIdle() returns (o: Outcome<bool>)
      requires Invariant(w)
      modifies this`w
      ensures Invariant(w) && Grown(old(w), w)
      ensures o.Done? && o.value && OwnedSeen(old(w).log, me) ==> Samples(w.log, me) > Samples(old(w).log, me)
      ensures o.Done? && o.value ==> (Finished(old(w).log, me) >= 1 ==> Finished(w.log, me) >= 2)
      ensures o.Done? && o.value ==> Prepared(w.log, me) >= 1
    {
      Others();
      var idle: bool := *;
      if !idle || w.inFlight {
        return Done(false);
      }
      ghost var before := w.log;
      ProgressIn(old(w).log, before, me);
      SamplesIn(old(w).log, before, me);
      FinishedAppend(before, SawIdle(me), me);
      PreparedAppend(before, SawIdle(me), me);
      SamplesAppend(before, SawIdle(me), me);
      var _ :- Take(NoteIdle);
      ProgressIn(before + [SawIdle(me)], w.log, me);
      SamplesIn(before + [SawIdle(me)], w.log, me);
      o := Done(true);
    }

    /** One sample: the hold owned, then the native server idle. */
    method Sample() returns (o: Outcome<bool>)
      requires Invariant(w)
      modifies this`w
      ensures Invariant(w) && Grown(old(w), w)
      ensures o.Done? && o.value ==> Samples(w.log, me) > Samples(old(w).log, me)
      ensures o.Done? && o.value ==> (Finished(old(w).log, me) >= 1 ==> Finished(w.log, me) >= 2)
      ensures o.Done? && o.value ==> Prepared(w.log, me) >= 1
    {
      var _ :- CheckOwned();
      GrownProgress(old(w), w, me);
      o := CheckIdle();
    }

    /** Two samples, one after the other. */
    method SampleTwice() returns (o: Outcome<bool>)
      requires Invariant(w)
      modifies this`w
      ensures Invariant(w) && Grown(old(w), w)
      ensures o.Done? && o.value ==> Samples(w.log, me) >= Samples(old(w).log, me) + 2
      ensures o.Done? && o.value ==> (Finished(old(w).log, me) >= 1 ==> Finished(w.log, me) >= 2)
      ensures o.Done? && o.value ==> Prepared(w.log, me) >= 1
    {
      o := Sample();
      if o == Done(true) {
        ghost var once := w;
        o := Sample();
        GrownProgress(once, w, me);
      }
    }

    /** Until two samples in a row show the hold owned and the native server idle. */
    method WaitIdle(patience: nat) returns (o: Outcome<()>)
      requires Invariant(w)
      modifies this`w
      ensures Invariant(w) && Grown(old(w), w)
      ensures o.Done? ==> Samples(w.log, me) >= Samples(old(w).log, me) + 2
      ensures o.Done? ==> (Finished(old(w).log, me) >= 1 ==> Finished(w.log, me) >= 2)
      ensures o.Done? ==> Prepared(w.log, me) >= 1
    {
      for polls := 0 to patience
        invariant Invariant(w) && Grown(old(w), w)
      {
        GrownProgress(old(w), w, me);
        var idle :- SampleTwice();
        if idle {
          return Done(());
        }
      }
      o := Died;
    }

    /** `native.submit`: accepted, proved rejected, or uncertain. */
    method Submission() returns (o: Outcome<Job>)
      requires Invariant(w) && w.start == Some(me) && w.plan == Some(plan)
      requires forall e <- w.log :: !(e.Submitted? && e.process == me)
      requires w.acceptance.None?
      modifies this`w
      ensures Invariant(w) && Grown(old(w), w)
      ensures o.Done? ==> Accepted(me, o.value) in w.log && w.acceptance.None?
      ensures o == Raised(Rejected) ==> RejectionProved(me) in w.log
    {
      var _ :- Take(Submit(plan));
      assert Submitted(me, plan) in Trace(me, Submit(plan));
      if i :| 0 <= i < |w.log| && w.log[i].Accepted? {
        assert Explained(w, w.log[i]);
        if * {
          return Done(w.log[i].job);
        }
      } else if * {
        assert !WasAccepted(w.log);
        var _ :- Take(LearnRejection);
        assert RejectionProved(me) in Trace(me, LearnRejection);
        return Raised(Rejected);
      }
      o := Lose(Unconfirmed);
    }

    /** `native.observe`: the state of the saved job, terminal only when it has ended. */
    method Observe(job: Job) returns (o: Outcome<JobState>)
      requires Invariant(w)
      modifies this`w
      ensures Invariant(w) && Since(old(w), w, me)
      ensures o.Done? && Terminal(o.value) ==> Ended(job, o.value) in w.log
    {
      Others();
      if i :| 0 <= i < |w.log| && w.log[i].Ended? && w.log[i].job == job {
        assert Explained(w, w.log[i]);
        if * {
          return Done(w.log[i].state);
        }
      }
      if * {
        return Done(Pending);
      } else if * {
        return Done(Running);
      } else if * {
        return Done(Unknown);
      }
      o := Lose(Unavailable);
    }

    /** The exclusive `start-intent`. */
    method ClaimTheStart() returns (o: Outcome<()>)
      requires Invariant(w) && w.plan == Some(plan) && Prepared(w.log, me) == 2
      modifies this`w
      ensures Invariant(w) && Grown(old(w), w)
      ensures o.Done? ==> w.start == Some(me) && w.acceptance.None?
      ensures o.Done? ==> forall e <- w.log :: !(e.Submitted? && e.process == me)
    {
      ghost var log := w.log;
      Others();
      ProgressIn(log, w.log, me);
      if w.start.Some? {
        o := Lose(Refused);
      } else {
        NothingSubmitted(w);
        o := Take(ClaimStart);
      }
    }

    /** Submit the recorded request once. No job: its rejection is proved and recorded. */
    method StartOnce() returns (o: Outcome<Option<Job>>)
      requires Invariant(w) && w.plan == Some(plan) && Prepared(w.log, me) == 2
      modifies this`w
      ensures Invariant(w) && Grown(old(w), w)
      ensures o.Done? && o.value.Some? ==> w.acceptance == o.value
      ensures o.Done? && o.value.None? ==> RejectionProved(me) in w.log && w.rejection
      ensures o.Done? ==> w.start == Some(me)
    {
      var _ :- ClaimTheStart();
      var reply := Submission();
      if reply == Raised(Rejected) {
        var _ :- Take(SaveRejection);
        return Done(None);
      }
      var job :- reply;
      var _ :- Take(SaveAcceptance(job));
      o := Done(Some(job));
    }

    /** Ask about the same saved job until it has ended. Losing the hold ends the wait. */
    method AwaitEnd(job: Job, patience: nat) returns (o: Outcome<JobState>)
      requires Invariant(w)
      modifies this`w
      ensures Invariant(w) && Grown(old(w), w)
      ensures o.Done? ==> Ended(job, o.value) in w.log && OwnedSeen(w.log, me)
    {
      for polls := 0 to patience
        invariant Invariant(w) && Grown(old(w), w)
      {
        var end :- PollEnd(job);
        if end.Some? {
          return Done(end.value);
        }
      }
      o := Died;
    }

    /** One look at the hold and at the job, recorded if it says something. None: not ended, or not known. */
    method PollEnd(job: Job) returns (o: Outcome<Option<JobState>>)
      requires Invariant(w)
      modifies this`w
      ensures Invariant(w) && Grown(old(w), w)
      ensures o.Done? && o.value.Some? ==> Ended(job, o.value.value) in w.log && OwnedSeen(w.log, me)
    {
      var _ :- CheckOwned();
      ghost var before := w.log;
      o := ObserveAndRecord(job);
      SamplesIn(before, w.log, me);
    }

    method ObserveAndRecord(job: Job) returns (o: Outcome<Option<JobState>>)
      requires Invariant(w)
      modifies this`w
      ensures Invariant(w) && Since(old(w), w, me)
      ensures o.Done? && o.value.Some? ==> Ended(job, o.value.value) in w.log
    {
      var seen := Observe(job);
      if seen.Died? {
        return Died;
      }
      if seen.Raised? || seen.value.Unknown? {
        return Done(None);
      }
      var _ :- Call(Unconfirmed);
      o := Done(if Terminal(seen.value) then Some(seen.value) else None);
    }

    /** The exclusive `readmission-intent`. */
    method ClaimTheReadmission() returns (o: Outcome<()>)
      requires Invariant(w) && !w.trial && Finished(w.log, me) == 3
      modifies this`w
      ensures Invariant(w) && Grown(old(w), w)
      ensures o.Done? ==> w.readmission == Some(me)
      ensures o.Done? ==> ReleaseBegun(me) !in w.log && ResumeBegun(me) !in w.log
    {
      ghost var log := w.log;
      Others();
      ProgressIn(log, w.log, me);
      if w.readmission.Some? {
        o := Lose(Refused);
        return;
      }
      NothingReleased(w);
      ghost var before := w.log;
      var _ :- Take(ClaimReadmission);
      assert before + Trace(me, ClaimReadmission) == before;
      NotMine(me, before, w.log, ReleaseBegun(me));
      NotMine(me, before, w.log, ResumeBegun(me));
      o := Done(());
    }

    /** Release the hold and ask for readmission. */
    method HandBack() returns (o: Outcome<()>)
      requires Invariant(w) && w.readmission == Some(me)
      requires ReleaseBegun(me) !in w.log && ResumeBegun(me) !in w.log
      modifies this`w
      ensures Invariant(w) && Grown(old(w), w)
      ensures o.Done? ==> ResumeBegun(me) in w.log
    {
      var _ :- ReleaseHold();
      var _ :- Take(Resume);
      assert ResumeBegun(me) in Trace(me, Resume);
      o := Call(Unconfirmed);
    }

    method ReleaseHold() returns (o: Outcome<()>)
      requires Invariant(w) && w.readmission == Some(me)
      requires ReleaseBegun(me) !in w.log && ResumeBegun(me) !in w.log
      modifies this`w
      ensures Invariant(w) && Grown(old(w), w)
      ensures o.Done? ==> ReleaseBegun(me) in w.log && ResumeBegun(me) !in w.log
    {
      var _ :- Take(Release);
      assert ReleaseBegun(me) in Trace(me, Release);
      o := Call(Unconfirmed);
    }

    method Publish(r: Result) returns (o: Outcome<Result>)
      requires Invariant(w) && ResultTrue(w, r)
      requires
        if w.trial then w.start == Some(me) && (r.job.Some? ==> Finished(w.log, me) == 3)
        else w.readmission == Some(me) && ResumeBegun(me) in w.log
      modifies this`w
      ensures Invariant(w) && Grown(old(w), w)
      ensures o.Done? ==> o.value == r && w.result == Some(r)
    {
      ghost var log := w.log;
      Others();
      ProgressIn(log, w.log, me);
      if w.result.Some? {
        o := Lose(Refused);
      } else {
        var _ :- Take(SaveResult(r));
        o := Done(r);
      }
    }

    method Readmit(r: Result) returns (o: Outcome<Result>)
      requires Invariant(w) && !w.trial && Finished(w.log, me) == 3 && ResultTrue(w, r)
      modifies this`w
      ensures Invariant(w) && Grown(old(w), w)
      ensures o.Done? ==> o.value == r && w.result == Some(r)
    {
      var _ :- ClaimTheReadmission();
      var _ :- HandBack();
      o := Publish(r);
    }

    /** `HourglassOperation.run`. */
    method Run(patience: nat) returns (o: Outcome<Result>)
      requires Invariant(w) && !w.trial
      modifies this`w
      ensures Invariant(w) && Grown(old(w), w)
      ensures o.Done? ==> w.result == Some(o.value) && w.plan == Some(plan)
      ensures o.Done? && old(w).acceptance.Some? ==> o.value.job == old(w).acceptance
      ensures old(w).readmission.Some? || old(w).result.Some? ==> NoneBy(me, old(w).log, w.log)
    {
      var _ :- AgreePlan();
      Others();
      if w.result.Some? {
        ResultIsOfTheJob(w);
        return Done(w.result.value);
      }
      Others();
      if w.readmission.Some? {
        o := Lose(Refused);
        return;
      }
      o := Proceed(patience);
    }

    /** Verify the target, hold the worker, and continue from what the receipts say. */
    method Proceed(patience: nat) returns (o: Outcome<Result>)
      requires Invariant(w) && !w.trial && w.plan == Some(plan)
      modifies this`w
      ensures Invariant(w) && Grown(old(w), w)
      ensures o.Done? ==> w.result == Some(o.value)
      ensures o.Done? && old(w).acceptance.Some? ==> o.value.job == old(w).acceptance
    {
      var known :- Recorded();
      var _ :- CheckTarget();
      var _ :- Call(Refused);
      match known
      case Started(job) => o := Conclude(job, patience);
      case Unstarted => o := Start(patience);
    }

    method Start(patience: nat) returns (o: Outcome<Result>)
      requires Invariant(w) && !w.trial && w.plan == Some(plan)
      modifies this`w
      ensures Invariant(w) && Grown(old(w), w)
      ensures o.Done? ==> w.result == Some(o.value)
    {
      var job :- Begin(patience);
      o := Conclude(job, patience);
    }

    /** What the receipts say of an earlier start; an intent without an answer is uncertain. */
    method Recorded() returns (o: Outcome<Known>)
      requires Invariant(w)
      modifies this`w
      ensures Invariant(w) && Since(old(w), w, me)
      ensures o.Done? && o.value.Started? ==> JobKnown(w, o.value.job)
      ensures o.Done? && o.value.Unstarted? ==> old(w).start.None?
      ensures old(w).acceptance.Some? || old(w).rejection ==> o.Done? && o.value.Started?
      ensures old(w).acceptance.Some? ==> o == Done(Started(old(w).acceptance))
    {
      Others();
      var receipt := w.acceptance;
      Others();
      var rejected := w.rejection;
      Others();
      if receipt.None? && !rejected && w.start.Some? {
        o := Lose(Unconfirmed);
      } else if receipt.None? && !rejected {
        o := Done(Unstarted);
      } else {
        o := Done(Started(receipt));
      }
    }

    method Begin(patience: nat) returns (o: Outcome<Option<Job>>)
      requires Invariant(w) && w.plan == Some(plan)
      modifies this`w
      ensures Invariant(w) && Grown(old(w), w)
      ensures o.Done? ==> JobKnown(w, o.value) && w.start == Some(me)
    {
      var _ :- WaitIdle(patience);
      var _ :- CheckTarget();
      o := StartOnce();
    }

    /** From a known job, or a proven rejection, to an idle verified server. */
    method Finish(job: Option<Job>, patience: nat) returns (o: Outcome<Result>)
      requires Invariant(w) && JobKnown(w, job)
      modifies this`w
      ensures Invariant(w) && Grown(old(w), w)
      ensures o.Done? ==> o.value.job == job && ResultTrue(w, o.value) && Finished(w.log, me) == 3
    {
      var state: Option<JobState> := None;
      if job.Some? {
        var end :- AwaitEnd(job.value, patience);
        state := Some(end);
      }
      OverIsFirst(w.log, me);
      var _ :- WaitIdle(patience);
      var _ :- CheckTarget();
      o := Done(Result(job, state));
    }

    method Conclude(job: Option<Job>, patience: nat) returns (o: Outcome<Result>)
      requires Invariant(w) && !w.trial && JobKnown(w, job)
      modifies this`w
      ensures Invariant(w) && Grown(old(w), w)
      ensures o.Done? ==> w.result == Some(o.value)
      ensures o.Done? ==> o.value.job == job
    {
      var r :- Finish(job, patience);
      o := Readmit(r);
    }

    /** What a return needs on record: readmission has not begun, and the accepted job is known. */
    method Returnable() returns (o: Outcome<Job>)
      requires Invariant(w)
      modifies this`w
      ensures Invariant(w) && Since(old(w), w, me)
      ensures old(w).readmission.Some? ==> !o.Done?
      ensures o.Done? ==> w.acceptance == Some(o.value)
    {
      Others();
      if w.readmission.Some? {
        o := Lose(Refused);
        return;
      }
      Others();
      if w.acceptance.None? {
        o := Lose(Refused);
        return;
      }
      o := Done(w.acceptance.value);
    }

    /** The verified target, and one sample of an owned idle server. */
    method CheckServer() returns (o: Outcome<()>)
      requires Invariant(w)
      modifies this`w
      ensures Invariant(w) && Grown(old(w), w)
      ensures o.Done? ==> Samples(w.log, me) > Samples(old(w).log, me)
      ensures o.Done? ==> (Finished(old(w).log, me) >= 2 ==> Finished(w.log, me) == 3)
    {
      var _ :- CheckTarget();
      ghost var checked := w;
      GrownProgress(old(w), w, me);
      var idle :- Sample();
      GrownProgress(checked, w, me);
      if idle {
        o := Done(());
      } else {
        o := Lose(Refused);
      }
    }

    /** `inspect_reconciliation`: a saved job that has ended under a hold nobody has begun to release. */
    method Inspect() returns (o: Outcome<Result>)
      requires Invariant(w)
      modifies this`w
      ensures Invariant(w) && Grown(old(w), w)
      ensures old(w).readmission.Some? ==> !o.Done?
      ensures o.Done? ==> o.value.job.Some? && ResultTrue(w, o.value) && Finished(w.log, me) >= 1
      ensures o.Done? ==> Samples(w.log, me) > Samples(old(w).log, me)
      ensures o.Done? ==> (Finished(old(w).log, me) >= 2 ==> Finished(w.log, me) == 3)
      ensures old(w).readmission.Some? ==> NoneBy(me, old(w).log, w.log)
    {
      var job :- Returnable();
      GrownProgress(old(w), w, me);
      var _ :- CheckServer();
      ghost var checked := w;
      var state :- Observe(job);
      GrownProgress(checked, w, me);
      if !Terminal(state) {
        o := Lose(Refused);
        return;
      }
      OverIsFirst(w.log, me);
      o := Done(Result(Some(job), Some(state)));
    }

    /** Two inspections that report what the owner approved, around a wait for an idle server. */
    method Review(approved: Option<Result>, patience: nat) returns (o: Outcome<Result>, ghost seen: seq<Result>)
      requires Invariant(w)
      modifies this`w
      ensures Invariant(w) && Grown(old(w), w)
      ensures old(w).readmission.Some? ==> !o.Done?
      ensures o.Done? ==> approved == Some(o.value) && seen == [o.value, o.value] && ResultTrue(w, o.value)
      ensures o.Done? ==> Samples(w.log, me) >= Samples(old(w).log, me) + 4 && Finished(w.log, me) == 3
      ensures old(w).readmission.Some? ==> NoneBy(me, old(w).log, w.log)
    {
      seen := [];
      var review :- Inspect();
      seen := [review];
      if approved != Some(review) {
        o := Lose(Refused);
        return;
      }
      var _ :- WaitIdle(patience);
      var again :- Inspect();
      seen := [review, again];
      if again != review {
        o := Lose(Refused);
        return;
      }
      o := Done(review);
    }

    /** The owner-approved return of a finished measurement. */
    method Reconcile(approved: Option<Result>, patience: nat) returns (o: Outcome<Result>, ghost seen: seq<Result>)
      requires Invariant(w) && !w.trial
      modifies this`w
      ensures Invariant(w) && Grown(old(w), w)
      ensures old(w).readmission.Some? ==> !o.Done?
      ensures o.Done? ==> w.result == Some(o.value) && approved == Some(o.value) && seen == [o.value, o.value]
      ensures o.Done? ==> Samples(w.log, me) >= Samples(old(w).log, me) + 4
      ensures old(w).readmission.Some? ==> NoneBy(me, old(w).log, w.log)
    {
      o, seen := Review(approved, patience);
      if o.Done? {
        ghost var reviewed := w;
        o := Readmit(o.value);
        GrownProgress(reviewed, w, me);
      }
    }

    /** `TrialMeasurement.run`, inside a window that the serving operation owns. */
    method RunTrial(patience: nat) returns (o: Outcome<Result>)
      requires Invariant(w) && w.trial
      modifies this`w
      ensures Invariant(w) && Grown(old(w), w)
      ensures o.Done? ==> w.result == Some(o.value) && w.start == Some(me) && Quiet(w)
      ensures old(w).start.Some? ==> !o.Done? && NoneBy(me, old(w).log, w.log)
    {
      Others();
      if w.start.Some? {
        o := Lose(Refused);
        return;
      }
      var _ :- SavePlanOnce();
      var _ :- Call(Refused);
      var job :- Begin(patience);
      o := Report(job, patience);
    }

    method Report(job: Option<Job>, patience: nat) returns (o: Outcome<Result>)
      requires Invariant(w) && w.trial && w.start == Some(me) && JobKnown(w, job)
      modifies this`w
      ensures Invariant(w) && Grown(old(w), w)
      ensures o.Done? ==> w.result == Some(o.value) && Quiet(w)
    {
      var r := Result(None, None);
      if job.Some? {
        r :- Finish(job, patience);
      }
      o := Publish(r);
      if o.Done? {
        QuietOnceReadmitted(w);
      }
    }
  }

  datatype Known = Unstarted | Started(job: Option<Job>)

  /** The accepted job, or proof that there is none. */
  ghost predicate JobKnown(w: World, job: Option<Job>) {
    if job.Some? then w.acceptance == job else WasRejected(w.log)
  }

  lemma GrownProgress(w: World, t: World, me: ProcessId)
    requires Grown(w, t)
    ensures Finished(t.log, me) >= Finished(w.log, me) && Samples(t.log, me) >= Samples(w.log, me)
  {
    ProgressIn(w.log, t.log, me);
    SamplesIn(w.log, t.log, me);
  }

  lemma SamplesIn(log: seq<Event>, longer: seq<Event>, me: ProcessId)
    requires log <= longer
    ensures Samples(longer, me) >= Samples(log, me)
    ensures NoneBy(me, log, longer) && OwnedSeen(log, me) ==> OwnedSeen(longer, me)
  {
    SamplesGrow(log, longer[|log|..], me);
    assert log + longer[|log|..] == longer;
  }

  lemma ProgressIn(log: seq<Event>, longer: seq<Event>, me: ProcessId)
    requires log <= longer
    ensures Finished(longer, me) >= Finished(log, me) && Prepared(longer, me) >= Prepared(log, me)
  {
    ProgressGrows(log, longer[|log|..], me);
    assert log + longer[|log|..] == longer;
  }
}
