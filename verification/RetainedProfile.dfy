/** The driver of the container cutover: apply the approved recipe, observe, restore the original. */
module RetainedProfile {
  import opened Effects
  import opened Docker
  import opened Cutover
  import opened Maintenance
  import opened Gateway

  datatype State =
    | RequiresReconciliation
    | StartedUnverified
    | CandidateStoppedUnverified
    | RestoredUnverified
    | RestorationStoppedUnverified

  datatype Observation = Observation(
    state: State, previous: Option<Seen>, candidate: Option<Seen>, startAcknowledged: bool)

  /** The state an observation reports, from the receipts and the two containers it saw. */
  function Classify(plan: Plan, f: Folder, previous: Option<Seen>, candidate: Option<Seen>): State {
    if previous.None? || SignatureOf(previous.value) != plan.before
       || candidate.None? || f.candidateCreated != Written(SignatureOf(candidate.value)) then
      RequiresReconciliation
    else
      var prior := previous.value.container;
      var next := candidate.value.container;
      if f.recovery then
        if StartPrevious in f.results && prior.running && !next.running && prior.name == plan.name then
          RestoredUnverified
        else if StartPrevious in f.results && !prior.running && !next.running && prior.name == plan.name then
          RestorationStoppedUnverified
        else
          RequiresReconciliation
      else if StartCandidate in f.results && next.running && !prior.running && next.name == plan.name then
        StartedUnverified
      else if StartCandidate in f.results && !next.running && !prior.running && next.name == plan.name then
        CandidateStoppedUnverified
      else
        RequiresReconciliation
  }

  /** What the protocol makes of it: the acknowledged steps and one running flag decide the state. */
  ghost function Expected(job: Job, f: Folder, priorRunning: bool, nextRunning: bool): State {
    if !f.recovery && |f.results| == 5 then
      if nextRunning then StartedUnverified else CandidateStoppedUnverified
    else if f.recovery && |f.results| == |Script(job.withStop)| then
      if priorRunning then RestoredUnverified else RestorationStoppedUnverified
    else
      RequiresReconciliation
  }

  lemma AcknowledgedSteps(withStop: bool, results: seq<Step>)
    requires |results| <= |Script(withStop)| && results == Script(withStop)[..|results|]
    ensures StartCandidate in results <==> |results| >= 5
    ensures StartPrevious in results <==> |results| == |Script(withStop)|
  {
    var s := Script(withStop);
    assert s[4] == StartCandidate && s[|s| - 1] == StartPrevious;
  }

  /** A state is reported exactly where the acknowledged steps and the running flags say so, although
      the two containers are seen one after the other, in worlds `a` and `b`. */
  lemma ClassifiedAsExpected(job: Job, f: Folder, a: Engine, b: Engine)
    requires Consistent(job, f, a) && Consistent(job, f, b) && EngineDrifted(a, b) && |f.intents| > 1
    ensures var previous, candidate := Seen(a.original, a.containers[a.original]), Seen(Candidate(b), b.containers[Candidate(b)]);
            Classify(job.plan, f, Some(previous), Some(candidate))
            == Expected(job, f, previous.container.running, candidate.container.running)
  {
    AcknowledgedSteps(job.withStop, f.results);
  }

  /** Before the cutover has begun there is nothing to report. */
  lemma NothingAcknowledged(plan: Plan, job: Job, f: Folder, previous: Option<Seen>, candidate: Option<Seen>)
    requires ReceiptsFollowScript(job, f) && |f.intents| <= 1
    ensures Classify(plan, f, previous, candidate) == RequiresReconciliation
  {
    AcknowledgedSteps(job.withStop, f.results);
  }

  datatype Pair = Pair(previous: Option<Seen>, candidate: Option<Seen>)

  /** What the driver had done and seen when it acted: requests, lease checks, idle samples. */
  datatype Act = Sent(mutation: Mutation) | Leased | Idle(quiet: bool)

  predicate NeedsClearance(a: Act) {
    a.Sent? && (a.mutation.Create? || a.mutation.Stop?)
  }

  predicate Cleared(acts: seq<Act>) {
    && |acts| >= 4 && acts[|acts| - 4] == Leased && acts[|acts| - 3] == Idle(true)
    && acts[|acts| - 2] == Idle(true) && acts[|acts| - 1] == Leased
  }

  /** Every stop, and the creation, came right after an owned, twice idle and still owned window. */
  ghost predicate Guarded(acts: seq<Act>) {
    forall i :: 0 <= i < |acts| && NeedsClearance(acts[i]) ==> Cleared(acts[..i])
  }

  lemma GuardedGrows(acts: seq<Act>, a: Act)
    requires Guarded(acts)
    requires NeedsClearance(a) ==> Cleared(acts)
    ensures Guarded(acts + [a])
  {
    var more := acts + [a];
    forall i | 0 <= i < |more| && NeedsClearance(more[i])
      ensures Cleared(more[..i])
    {
      assert more[..i] == acts[..i];
      assert acts[..|acts|] == acts;
    }
  }

  lemma WindowClears(acts: seq<Act>)
    ensures Cleared(acts + [Leased] + [Idle(true)] + [Idle(true)] + [Leased])
  {
  }

  /** The container ran at that moment. */
  ghost predicate RanIn(e: Engine, id: Id) {
    id in e.containers && e.containers[id].running
  }

  /** Everything the driver keeps at every point at which it may fail or die. */
  ghost predicate Orderly(op: string, job: Job, f: Folder, acts: seq<Act>, e: Engine) {
    && Consistent(job, f, e) && job.op == op && Guarded(acts)
    && (if f.exists_ then KeepsSettings(job.plan) else f == EMPTY)
  }

  /** The original can be kept beside its replacement, and the replacement has its settings: bind mounts
      only, not removed when it stops, not started again by the daemon. */
  predicate KeepsSettings(plan: Plan) {
    && plan.before.recipe.settings.bindMountsOnly && !plan.before.recipe.settings.autoRemove
    && !plan.before.recipe.settings.restartAlways && plan.create.settings == plan.before.recipe.settings
  }

  class Driver {
    const daemon: Daemon
    const hold: Hold
    const probe: Probe
    const op: OperationId

    var f: Folder
    ghost var job: Job
    ghost var acts: seq<Act>

    constructor (daemon: Daemon, hold: Hold, probe: Probe, op: OperationId)
      requires EngineSound(daemon.e) && daemon.e.issued == [] && daemon.e.performed == []
      requires daemon.e.created == [] && daemon.e.pending.None?
      ensures Orderly(op, job, f, acts, daemon.e) && f == EMPTY && acts == []
      ensures this.daemon == daemon && this.hold == hold && this.probe == probe && this.op == op
    {
      this.daemon, this.hold, this.probe, this.op := daemon, hold, probe, op;
      f, acts := EMPTY, [];
      job := Job(Plan(Signature(0, daemon.e.containers[daemon.e.original].recipe), 0, "",
                      daemon.e.containers[daemon.e.original].recipe), op, false);
    }

    method Lease() returns (o: Outcome<()>)
      requires Lawful(hold.op, hold.f, hold.baseline, hold.plane.s) && Guarded(acts)
      modifies hold.plane, this`acts
      ensures Lawful(hold.op, hold.f, hold.baseline, hold.plane.s) && PlaneDrifted(old(hold.plane.s), hold.plane.s) && Guarded(acts)
      ensures acts == if o.Done? then old(acts) + [Leased] else old(acts)
      ensures o.Done? ==> Held(hold.f, hold.plane.s.worker, true)
    {
      var owned :- hold.Owned(Some(op), true);
      if !owned {
        return Raised(Refused);
      }
      GuardedGrows(acts, Leased);
      acts := acts + [Leased];
      o := Done(());
    }

    method SampleIdle() returns (o: Outcome<()>)
      requires Guarded(acts)
      modifies probe, this`acts
      ensures Guarded(acts)
      ensures acts == if o.Done? then old(acts) + [Idle(true)] else old(acts)
      ensures o.Done? ==> probe.samples == old(probe.samples) + [true]
    {
      var quiet :- probe.Idle();
      if !quiet {
        return Raised(Refused);
      }
      GuardedGrows(acts, Idle(true));
      acts := acts + [Idle(true)];
      o := Done(());
    }

    /** The gateway window is owned, native work is twice absent, and the window is still owned. */
    method OwnedIdle(running: bool) returns (o: Outcome<()>)
      requires Lawful(hold.op, hold.f, hold.baseline, hold.plane.s) && Guarded(acts)
      modifies hold.plane, probe, this`acts
      ensures Lawful(hold.op, hold.f, hold.baseline, hold.plane.s) && PlaneDrifted(old(hold.plane.s), hold.plane.s) && Guarded(acts)
      ensures o.Done? ==> Held(hold.f, hold.plane.s.worker, true)
      ensures o.Done? && running ==> Cleared(acts) && TwoIdleSamples(probe.samples)
    {
      WindowClears(acts);
      ghost var before := hold.plane.s;
      var _ :- Lease();
      ghost var leased := hold.plane.s;
      if running {
        var _ :- SampleTwice();
      }
      o := Lease();
      DriftedTwice(before, leased, hold.plane.s);
    }

    method SampleTwice() returns (o: Outcome<()>)
      requires Guarded(acts)
      modifies probe, this`acts
      ensures Guarded(acts)
      ensures o.Done? ==> acts == old(acts) + [Idle(true)] + [Idle(true)] && TwoIdleSamples(probe.samples)
    {
      var _ :- SampleIdle();
      o := SampleIdle();
    }

    /** Writes one step's receipt file, unless it exists. */
    method Mark(present: seq<Step>, step: Step) returns (now: seq<Step>, o: Outcome<()>)
      ensures now == present || (step !in present && now == present + [step])
      ensures o.Done? ==> step !in present && now == present + [step]
    {
      now := present;
      if step in present {
        o := Raised(Refused);
      } else if * {
        now := present + [step];
        if * {
          o := Done(());
        } else {
          o := Lose(Unconfirmed);
        }
      } else {
        o := Lose(Unconfirmed);
      }
    }

    method SaveIntent(step: Step) returns (o: Outcome<()>)
      requires Orderly(op, job, f, acts, daemon.e) && MayIntend(job, f, daemon.e) && step == Script(job.withStop)[|f.intents|]
      modifies this`f
      ensures Orderly(op, job, f, acts, daemon.e)
      ensures f == old(f) || f == old(f).(intents := old(f).intents + [step])
      ensures o.Done? ==> f != old(f)
    {
      var marked, saved := Mark(f.intents, step);
      IntentKeeps(job, f, daemon.e);
      f := f.(intents := marked);
      o := saved;
    }

    method SendStep(m: Mutation) returns (o: Outcome<Id>)
      requires Orderly(op, job, f, acts, daemon.e) && |f.intents| == |f.results| + 1 && |daemon.e.issued| == |f.results|
      requires m == MutationOf(Script(job.withStop)[|f.results|], job, Candidate(daemon.e))
      requires NeedsClearance(Sent(m)) ==> Cleared(acts)
      modifies daemon, this`acts
      ensures Orderly(op, job, f, acts, daemon.e)
      ensures o.Done? ==> |daemon.e.performed| == |f.intents|
      ensures o.Done? && m.Create? ==> o.value == Candidate(daemon.e)
    {
      GuardedGrows(acts, Sent(m));
      acts := acts + [Sent(m)];
      ghost var before := daemon.e;
      o := daemon.Send(m);
      SendKeeps(job, f, before, daemon.e, m);
    }

    method SaveResult(step: Step, id: Id) returns (o: Outcome<()>)
      requires Orderly(op, job, f, acts, daemon.e) && |f.intents| == |f.results| + 1 && |daemon.e.performed| == |f.intents|
      requires step == Script(job.withStop)[|f.results|]
      requires step == CreateCandidate ==> id == Candidate(daemon.e)
      modifies this`f
      ensures Orderly(op, job, f, acts, daemon.e)
      ensures f == old(f).(results := f.results, createResult := f.createResult)
      ensures o.Done? ==> f.results == old(f).results + [step]
      ensures o.Done? && step == CreateCandidate ==> f.createResult == Written(id)
    {
      var marked, saved := Mark(f.results, step);
      var torn: bool := *;
      var created := if step != CreateCandidate then f.createResult
      else if saved.Done? || !torn then Written(id) else Torn;
      if |marked| > |f.results| {
        ResultKeeps(job, f, daemon.e, created);
        f := f.(results := marked, createResult := created);
      }
      o := saved;
    }

    /** Intent, request, result. Only a confirmed step is followed by another one. */
    method Perform(step: Step, m: Mutation) returns (o: Outcome<Id>)
      requires Orderly(op, job, f, acts, daemon.e) && MayIntend(job, f, daemon.e)
      requires step == Script(job.withStop)[|f.intents|] && m == MutationOf(step, job, Candidate(daemon.e))
      requires NeedsClearance(Sent(m)) ==> Cleared(acts)
      modifies daemon, this`f, this`acts
      ensures Orderly(op, job, f, acts, daemon.e)
      ensures f == old(f).(intents := f.intents, results := f.results, createResult := f.createResult)
      ensures o.Done? ==> |f.results| == |f.intents| == old(|f.intents|) + 1
      ensures o.Done? && step == CreateCandidate ==> f.createResult == Written(o.value)
    {
      var _ :- SaveIntent(step);
      o := Execute(step, m);
    }

    /** The request of an intended step, and its result. */
    method Execute(step: Step, m: Mutation) returns (o: Outcome<Id>)
      requires Orderly(op, job, f, acts, daemon.e) && |f.intents| == |f.results| + 1 && |daemon.e.issued| == |f.results|
      requires step == Script(job.withStop)[|f.results|] && m == MutationOf(step, job, Candidate(daemon.e))
      requires NeedsClearance(Sent(m)) ==> Cleared(acts)
      modifies daemon, this`f, this`acts
      ensures Orderly(op, job, f, acts, daemon.e)
      ensures f == old(f).(results := f.results, createResult := f.createResult)
      ensures o.Done? ==> |f.results| == |f.intents| == old(|f.intents|)
      ensures o.Done? && step == CreateCandidate ==> f.createResult == Written(o.value)
    {
      var id :- SendStep(m);
      var _ :- SaveResult(step, id);
      o := Done(id);
    }

    /** Time passes: containers may exit, and a pending request may take effect. */
    method TimePasses()
      requires Orderly(op, job, f, acts, daemon.e)
      modifies daemon
      ensures Orderly(op, job, f, acts, daemon.e) && EngineDrifted(old(daemon.e), daemon.e)
    {
      ghost var before := daemon.e;
      daemon.Drift();
      DriftKeeps(job, f, before, daemon.e);
    }

    method Inspect(id: Id) returns (o: Outcome<Option<Seen>>)
      requires Orderly(op, job, f, acts, daemon.e)
      modifies daemon
      ensures Orderly(op, job, f, acts, daemon.e) && EngineDrifted(old(daemon.e), daemon.e)
      ensures o.Done? ==>
        o.value == if id in daemon.e.containers then Some(Seen(id, daemon.e.containers[id])) else None
    {
      ghost var before := daemon.e;
      o := daemon.Inspect(id);
      DriftKeeps(job, f, before, daemon.e);
    }

    method InspectName(name: string) returns (o: Outcome<Option<Seen>>)
      requires Orderly(op, job, f, acts, daemon.e)
      modifies daemon
      ensures Orderly(op, job, f, acts, daemon.e) && EngineDrifted(old(daemon.e), daemon.e)
      ensures o == Done(None) ==>
        forall id <- daemon.e.containers :: daemon.e.containers[id].name != name
    {
      ghost var before := daemon.e;
      o := daemon.InspectName(name);
      DriftKeeps(job, f, before, daemon.e);
    }

    /** A read-only observation. Once the cutover has begun, the acknowledged steps and the running
        flags it saw determine its state; before that it asks for reconciliation. */
    method Observe() returns (o: Outcome<Observation>)
      requires Orderly(op, job, f, acts, daemon.e)
      modifies daemon
      ensures Orderly(op, job, f, acts, daemon.e) && EngineDrifted(old(daemon.e), daemon.e)
      ensures o.Done? ==> f.planFile.Written? && o.value.startAcknowledged == (StartCandidate in f.results)
      ensures o.Done? && |f.intents| > 1 ==>
        && o.value.previous.Some? && o.value.previous.value.id == daemon.e.original
        && o.value.candidate == Some(Seen(Candidate(daemon.e), daemon.e.containers[Candidate(daemon.e)]))
        && o.value.state == Expected(job, f, o.value.previous.value.container.running,
                                     o.value.candidate.value.container.running)
      ensures o.Done? && |f.intents| > 1 && |f.results| == |f.intents| ==>
        Evolved(daemon.e.original, o.value.previous.value.container, daemon.e.containers[daemon.e.original], None)
      ensures o.Done? && |f.intents| <= 1 ==> o.value.state == RequiresReconciliation
    {
      if !f.planFile.Written? {
        return Raised(Refused);
      }
      var looked, middle := Look(f.planFile.value.before.id);
      var pair :- looked;
      if pair.candidate.Some? && f.candidateCreated.Torn? {
        return Raised(Refused);
      }
      var state := Classify(f.planFile.value, f, pair.previous, pair.candidate);
      if |f.intents| > 1 {
        ClassifiedAsExpected(job, f, middle, daemon.e);
      } else {
        NothingAcknowledged(f.planFile.value, job, f, pair.previous, pair.candidate);
      }
      o := Done(Observation(state, pair.previous, pair.candidate, StartCandidate in f.results));
    }

    /** The planned container, then the candidate; `middle` is the world between the two looks. */
    method Look(id: Id) returns (o: Outcome<Pair>, ghost middle: Engine)
      requires Orderly(op, job, f, acts, daemon.e)
      modifies daemon
      ensures Orderly(op, job, f, acts, daemon.e) && EngineDrifted(old(daemon.e), daemon.e)
      ensures Consistent(job, f, middle) && EngineDrifted(middle, daemon.e)
      ensures o.Done? ==> o.value.previous == if id in middle.containers then Some(Seen(id, middle.containers[id])) else None
      ensures o.Done? && f.createResult.Written? ==>
        o.value.candidate == Some(Seen(Candidate(daemon.e), daemon.e.containers[Candidate(daemon.e)]))
    {
      ghost var start := daemon.e;
      var first := Inspect(id);
      middle := daemon.e;
      DriftReflexive(middle);
      var previous :- first;
      var second := InspectCandidate(start);
      var candidate :- second;
      o := Done(Pair(previous, candidate));
    }

    /** The candidate, by its recorded identity or else by its name. */
    method InspectCandidate(ghost start: Engine) returns (o: Outcome<Option<Seen>>)
      requires Orderly(op, job, f, acts, daemon.e) && EngineDrifted(start, daemon.e)
      modifies daemon
      ensures Orderly(op, job, f, acts, daemon.e) && EngineDrifted(old(daemon.e), daemon.e) && EngineDrifted(start, daemon.e)
      ensures o.Done? && f.createResult.Written? ==>
        o.value == Some(Seen(Candidate(daemon.e), daemon.e.containers[Candidate(daemon.e)]))
    {
      ghost var middle := daemon.e;
      match f.createResult {
        case Torn =>
          DriftReflexive(middle);
          o := Raised(Refused);
        case Written(id) => o := Inspect(id);
        case Absent => o := InspectName(ProfileName(op));
      }
      DriftComposes(start, middle, daemon.e);
    }

    /** The original serves under its own name exactly as the plan recorded it. */
    predicate ServesAsPlanned(plan: Plan, seen: Option<Seen>) {
      && seen.Some? && SignatureOf(seen.value) == plan.before && seen.value.container.startedAt == plan.startedAt
      && seen.value.container.running && seen.value.container.name == plan.name
    }

    method OpenFolder(plan: Plan) returns (o: Outcome<()>)
      requires Orderly(op, job, f, acts, daemon.e) && !f.exists_ && KeepsSettings(plan)
      modifies this`f, this`job
      ensures Orderly(op, job, f, acts, daemon.e) && f.intents == [] && !f.recovery
      ensures o.Done? ==> f.exists_ && f.planFile == Written(plan) && job == Job(plan, op, false)
      ensures o != Raised(Refused)
    {
      job := Job(plan, op, false);
      var made: bool := *;
      if !made {
        o := Lose(Unconfirmed);
        return;
      }
      f := f.(exists_ := true);
      var file, saved := Write(f.planFile, plan);
      f := f.(planFile := file);
      var _ :- saved;
      file, saved := Write(f.binding, plan);
      f := f.(binding := file);
      o := saved;
    }

    /** The container that the operation replaces is as the plan recorded it. It can still exit. */
    ghost predicate AsPlanned(plan: Plan)
      reads daemon
    {
      && daemon.e.original == plan.before.id && plan.before.id in daemon.e.containers
      && var original := daemon.e.containers[plan.before.id];
      && Signature(plan.before.id, original.recipe) == plan.before
      && original.startedAt == plan.startedAt && original.name == plan.name
    }

    /** The serving container is the planned one, and the operation's own names are free. A plan that
        names no container, or another one than it describes, is refused here. */
    method CheckServing(plan: Plan) returns (o: Outcome<()>, ghost seen: Engine)
      requires Orderly(op, job, f, acts, daemon.e) && f.exists_ && plan == job.plan && f.intents == []
      modifies daemon
      ensures Orderly(op, job, f, acts, daemon.e)
      ensures o.Done? ==> plan.name != ProfileName(op) && plan.name != RetainedName(op) && AsPlanned(plan)
      ensures o.Done? ==> RanIn(seen, plan.before.id)
      ensures o.Done? ==> forall id <- daemon.e.containers :: daemon.e.containers[id].name != RetainedName(op)
    {
      seen := daemon.e;
      var before :- Inspect(plan.before.id);
      if !ServesAsPlanned(plan, before) {
        o := Raised(Refused);
        return;
      }
      seen := daemon.e;
      daemon.Watch(plan.before.id);
      var taken :- InspectName(ProfileName(op));
      if taken.Some? {
        o := Raised(Refused);
        return;
      }
      assert plan.name != ProfileName(op);
      taken :- InspectName(RetainedName(op));
      if taken.Some? {
        o := Raised(Refused);
        return;
      }
      o := Done(());
    }

    /** The created container differs from the original only in what was approved. */
    method VerifyCandidate(plan: Plan, id: Id) returns (o: Outcome<Seen>)
      requires Orderly(op, job, f, acts, daemon.e) && plan == job.plan
      requires |f.intents| == |f.results| == 1 && f.createResult == Written(id)
      modifies daemon, this`f
      ensures Orderly(op, job, f, acts, daemon.e) && f == old(f).(candidateCreated := f.candidateCreated)
      ensures o.Done? ==>
        && f.candidateCreated.Written?
        && o.value == Seen(Candidate(daemon.e), daemon.e.containers[Candidate(daemon.e)])
        && SignatureOf(o.value) == Signature(id, plan.create) && o.value.container.name == ProfileName(op)
        && !o.value.container.running
    {
      var candidate :- Inspect(id);
      if || candidate.None? || candidate.value.container.running
         || SignatureOf(candidate.value) != Signature(id, plan.create)
         || candidate.value.container.name != ProfileName(op) {
        return Raised(Refused);
      }
      var file, saved := Write(f.candidateCreated, SignatureOf(candidate.value));
      f := f.(candidateCreated := file);
      var _ :- saved;
      o := Done(candidate.value);
    }

    /** The first half of the cutover: a verified candidate beside the serving original. */
    method CreateBeside(plan: Plan) returns (o: Outcome<Seen>)
      requires Orderly(op, job, f, acts, daemon.e) && Lawful(hold.op, hold.f, hold.baseline, hold.plane.s) && f.exists_ && f.planFile == Written(plan) && f.intents == []
      modifies daemon, hold.plane, probe, this`f, this`acts
      ensures Orderly(op, job, f, acts, daemon.e) && Lawful(hold.op, hold.f, hold.baseline, hold.plane.s) && PlaneDrifted(old(hold.plane.s), hold.plane.s)
      ensures |f.intents| <= 1 && f.recovery == old(f.recovery) && f.planFile == old(f.planFile) && f.exists_
      ensures o.Done? ==>
        && |f.intents| == |f.results| == 1 && f.candidateCreated.Written?
        && o.value == Seen(Candidate(daemon.e), daemon.e.containers[Candidate(daemon.e)])
    {
      var _, _ :- CheckServing(plan);
      var _ :- OwnedIdle(true);
      var id :- Perform(CreateCandidate, Create(ProfileName(op), plan.create));
      o := VerifyCandidate(plan, id);
    }

    /** Both containers once more, immediately before the first stop. */
    method Recheck(plan: Plan, candidate: Seen) returns (o: Outcome<()>, ghost seen: Engine)
      requires Orderly(op, job, f, acts, daemon.e) && f.planFile == Written(plan) && !f.recovery
      requires |f.intents| == |f.results| == 1 && f.candidateCreated.Written?
      requires candidate.id == Candidate(daemon.e)
      modifies daemon
      ensures Orderly(op, job, f, acts, daemon.e)
      ensures o.Done? ==> MayIntend(job, f, daemon.e) && AsPlanned(plan)
      ensures o.Done? ==> RanIn(seen, plan.before.id) && EngineDrifted(seen, daemon.e)
      ensures o.Done? ==>
        && Signature(candidate.id, daemon.e.containers[candidate.id].recipe) == SignatureOf(candidate)
        && !daemon.e.containers[candidate.id].running
    {
      seen := daemon.e;
      var current :- Inspect(plan.before.id);
      if !ServesAsPlanned(plan, current) {
        o := Raised(Refused);
        return;
      }
      seen := daemon.e;
      var now :- Inspect(candidate.id);
      if now.None? || SignatureOf(now.value) != SignatureOf(candidate) || now.value.container.running {
        o := Raised(Refused);
        return;
      }
      o := Done(());
    }

    /** The second half: stop and retain the original, give its name to the candidate, start it. */
    method CutOver(plan: Plan, candidate: Seen) returns (o: Outcome<()>)
      requires Orderly(op, job, f, acts, daemon.e) && Lawful(hold.op, hold.f, hold.baseline, hold.plane.s) && f.exists_ && f.planFile == Written(plan) && !f.recovery
      requires |f.intents| == |f.results| == 1 && f.candidateCreated.Written?
      requires candidate.id == Candidate(daemon.e)
      modifies daemon, hold.plane, probe, this`f, this`acts
      ensures Orderly(op, job, f, acts, daemon.e) && Lawful(hold.op, hold.f, hold.baseline, hold.plane.s) && PlaneDrifted(old(hold.plane.s), hold.plane.s)
      ensures f.recovery == old(f.recovery) && f.planFile == old(f.planFile) && f.exists_
      ensures o.Done? ==> |f.intents| == |f.results| == 5
    {
      // Check ownership and direct work again immediately before stopping.
      var _ :- OwnedIdle(true);
      var _ :- StopOriginal(plan, candidate);
      o := Activate(plan, candidate.id);
    }

    method StopOriginal(plan: Plan, candidate: Seen) returns (o: Outcome<()>)
      requires Orderly(op, job, f, acts, daemon.e) && f.exists_ && f.planFile == Written(plan) && !f.recovery
      requires |f.intents| == |f.results| == 1 && f.candidateCreated.Written? && Cleared(acts)
      requires candidate.id == Candidate(daemon.e)
      modifies daemon, this`f, this`acts
      ensures Orderly(op, job, f, acts, daemon.e)
      ensures f.recovery == old(f.recovery) && f.planFile == old(f.planFile) && f.exists_
      ensures o.Done? ==> |f.intents| == |f.results| == 2 && candidate.id == Candidate(daemon.e)
    {
      var _, _ :- Recheck(plan, candidate);
      var _ :- Perform(StopPrevious, Stop(plan.before.id));
      o := Done(());
    }

    method Activate(plan: Plan, candidate: Id) returns (o: Outcome<()>)
      requires Orderly(op, job, f, acts, daemon.e) && f.exists_ && f.planFile == Written(plan) && !f.recovery
      requires |f.intents| == |f.results| == 2 && candidate == Candidate(daemon.e)
      modifies daemon, this`f, this`acts
      ensures Orderly(op, job, f, acts, daemon.e)
      ensures f.recovery == old(f.recovery) && f.planFile == old(f.planFile) && f.exists_
      ensures o.Done? ==> |f.intents| == |f.results| == 5
    {
      var _ :- Perform(RetainPrevious, Rename(plan.before.id, RetainedName(op)));
      o := TakeOver(plan, candidate);
    }

    /** The candidate gets the name, and is started under it. */
    method TakeOver(plan: Plan, candidate: Id) returns (o: Outcome<()>)
      requires Orderly(op, job, f, acts, daemon.e) && f.exists_ && f.planFile == Written(plan) && !f.recovery
      requires |f.intents| == |f.results| == 3 && candidate == Candidate(daemon.e)
      modifies daemon, this`f, this`acts
      ensures Orderly(op, job, f, acts, daemon.e)
      ensures f.recovery == old(f.recovery) && f.planFile == old(f.planFile) && f.exists_
      ensures o.Done? ==> |f.intents| == |f.results| == 5
    {
      var _ :- Perform(ActivateName, Rename(candidate, plan.name));
      var _ :- Perform(StartCandidate, Start(candidate));
      o := Done(());
    }

    /** Applies the approved plan once. An operation that was ever begun is only observed. */
    method Apply(plan: Plan, approved: Plan) returns (o: Outcome<Observation>)
      requires Orderly(op, job, f, acts, daemon.e) && Lawful(hold.op, hold.f, hold.baseline, hold.plane.s)
      modifies daemon, hold.plane, probe, this`f, this`job, this`acts
      ensures Orderly(op, job, f, acts, daemon.e) && Lawful(hold.op, hold.f, hold.baseline, hold.plane.s) && PlaneDrifted(old(hold.plane.s), hold.plane.s)
      ensures old(f.exists_) ==> f == old(f) && job == old(job) && daemon.e.issued == old(daemon.e.issued)
      ensures !old(f.exists_) ==> !f.recovery
      ensures o.Done? ==> plan == approved && f.planFile == Written(approved)
      ensures o.Done? && !old(f.exists_) ==>
        && |f.intents| == |f.results| == 5
        && o.value.state in {StartedUnverified, CandidateStoppedUnverified}
      ensures plan != approved || !KeepsSettings(plan) ==> !o.Done? && f == old(f) && daemon.e == old(daemon.e)
      ensures o == Raised(Refused) && plan == approved && KeepsSettings(plan) && !old(f.exists_) ==> f.exists_
    {
      if plan != approved || !Retainable(plan.before.recipe.settings)
         || plan.create.settings != plan.before.recipe.settings {
        return Raised(Refused);
      }
      if f.exists_ {
        if f.planFile != Written(approved) {
          return Raised(Refused);
        }
        o := Observe();   // never replay an uncertain operation
        return;
      }
      var _ :- ApplyFresh(plan);
      o := Observe();
    }

    method ApplyFresh(plan: Plan) returns (o: Outcome<()>)
      requires Orderly(op, job, f, acts, daemon.e) && Lawful(hold.op, hold.f, hold.baseline, hold.plane.s) && !f.exists_ && KeepsSettings(plan)
      modifies daemon, hold.plane, probe, this`f, this`job, this`acts
      ensures Orderly(op, job, f, acts, daemon.e) && Lawful(hold.op, hold.f, hold.baseline, hold.plane.s) && PlaneDrifted(old(hold.plane.s), hold.plane.s) && !f.recovery
      ensures o.Done? ==> |f.intents| == |f.results| == 5 && f.planFile == Written(plan)
      ensures o == Raised(Refused) ==> f.exists_
    {
      var _ :- OpenFolder(plan);
      var candidate :- CreateBeside(plan);
      o := CutOver(plan, candidate);
    }

    /** The retained original and the reconciled candidate, exactly as restoration needs them. */
    predicate Restorable(plan: Plan, seen: Observation)
      reads this
    {
      && seen.previous.Some? && SignatureOf(seen.previous.value) == plan.before
      && !seen.previous.value.container.running
      && seen.candidate.Some? && f.candidateCreated == Written(SignatureOf(seen.candidate.value))
      && seen.startAcknowledged && seen.candidate.value.container.name == plan.name
    }

    /** Nothing but a stop has happened to the two containers since they were observed. */
    method RecheckBeforeReturn(plan: Plan, previous: Seen, candidate: Seen) returns (o: Outcome<()>)
      requires Orderly(op, job, f, acts, daemon.e) && f.planFile == Written(plan) && |f.results| == 5 && !f.recovery
      requires previous.id == daemon.e.original && candidate.id == Candidate(daemon.e)
      modifies daemon
      ensures Orderly(op, job, f, acts, daemon.e) && EngineDrifted(old(daemon.e), daemon.e)
      ensures o.Done? ==>
        && var prior, next := daemon.e.containers[previous.id], daemon.e.containers[candidate.id];
        && Signature(previous.id, prior.recipe) == plan.before && !prior.running
        && Signature(candidate.id, next.recipe) == SignatureOf(candidate)
        && next.startedAt == candidate.container.startedAt && next.name == candidate.container.name
    {
      ghost var start := daemon.e;
      var look := Inspect(previous.id);
      ghost var middle := daemon.e;
      var prior :- look;
      var second := Inspect(candidate.id);
      DriftComposes(start, middle, daemon.e);
      var next :- second;
      if || prior.None? || SignatureOf(prior.value) != plan.before || prior.value.container.running
         || next.None? || SignatureOf(next.value) != SignatureOf(candidate)
         || next.value.container.startedAt != candidate.container.startedAt
         || next.value.container.name != candidate.container.name {
        return Raised(Refused);
      }
      o := Done(());
    }

    /** Puts the retained original back, once. A return that was ever begun is only observed. */
    method Restore(approved: Plan) returns (o: Outcome<Observation>)
      requires Orderly(op, job, f, acts, daemon.e) && Lawful(hold.op, hold.f, hold.baseline, hold.plane.s)
      modifies daemon, hold.plane, probe, this`f, this`job, this`acts
      ensures Orderly(op, job, f, acts, daemon.e) && Lawful(hold.op, hold.f, hold.baseline, hold.plane.s) && PlaneDrifted(old(hold.plane.s), hold.plane.s)
      ensures f.exists_ == old(f.exists_) && f.planFile == old(f.planFile)
      ensures job == old(job).(withStop := job.withStop)
      ensures old(f.recovery) ==> f == old(f) && job == old(job) && daemon.e.issued == old(daemon.e.issued)
      ensures f.planFile != Written(approved) ==> !o.Done? && f == old(f) && daemon.e == old(daemon.e)
      ensures o.Done? ==> f.recovery && f.planFile == Written(approved)
      ensures o.Done? && !old(f.recovery) ==>
        && |f.intents| == |f.results| == |Script(job.withStop)|
        && o.value.state in {RestoredUnverified, RestorationStoppedUnverified}
    {
      if f.planFile != Written(approved) {
        return Raised(Refused);
      }
      if f.recovery {
        o := Observe();
        return;
      }
      var _ :- ReturnOnce(approved);
      o := Observe();
    }

    method ReturnOnce(plan: Plan) returns (o: Outcome<()>)
      requires Orderly(op, job, f, acts, daemon.e) && Lawful(hold.op, hold.f, hold.baseline, hold.plane.s) && f.planFile == Written(plan) && !f.recovery
      modifies daemon, hold.plane, probe, this`f, this`job, this`acts
      ensures Orderly(op, job, f, acts, daemon.e) && Lawful(hold.op, hold.f, hold.baseline, hold.plane.s) && PlaneDrifted(old(hold.plane.s), hold.plane.s)
      ensures f.exists_ && f.planFile == old(f.planFile) && job == old(job).(withStop := job.withStop)
      ensures o.Done? ==> f.recovery && |f.intents| == |f.results| == |Script(job.withStop)|
    {
      var candidate :- PrepareReturn(plan);
      var _ :- BeginReturn(candidate.container.running);
      o := Return(plan, candidate);
    }

    method PrepareReturn(plan: Plan) returns (o: Outcome<Seen>)
      requires Orderly(op, job, f, acts, daemon.e) && Lawful(hold.op, hold.f, hold.baseline, hold.plane.s) && f.planFile == Written(plan) && !f.recovery
      modifies daemon, hold.plane, probe, this`acts
      ensures Orderly(op, job, f, acts, daemon.e) && Lawful(hold.op, hold.f, hold.baseline, hold.plane.s) && PlaneDrifted(old(hold.plane.s), hold.plane.s)
      ensures o.Done? ==>
        && |f.results| == 5 && o.value.id == Candidate(daemon.e)
        && (o.value.container.running ==> Cleared(acts))
        && (!o.value.container.running ==> !daemon.e.containers[Candidate(daemon.e)].running)
    {
      var seen :- SeeRestorable(plan);
      var candidate := seen.candidate.value;
      var _ :- OwnedIdle(candidate.container.running);
      var _ :- RecheckBeforeReturn(plan, seen.previous.value, candidate);
      o := Done(candidate);
    }

    method SeeRestorable(plan: Plan) returns (o: Outcome<Observation>)
      requires Orderly(op, job, f, acts, daemon.e) && f.planFile == Written(plan) && !f.recovery
      modifies daemon
      ensures Orderly(op, job, f, acts, daemon.e)
      ensures o.Done? ==>
        && o.value.previous.Some? && o.value.previous.value.id == daemon.e.original && |f.results| == 5
        && o.value.candidate == Some(Seen(Candidate(daemon.e), daemon.e.containers[Candidate(daemon.e)]))
    {
      var seen :- Observe();
      AcknowledgedSteps(job.withStop, f.results);
      o := if Restorable(plan, seen) then Done(seen) else Raised(Refused);
    }

    method BeginReturn(stopFirst: bool) returns (o: Outcome<()>)
      requires Orderly(op, job, f, acts, daemon.e) && |f.results| == 5 && !f.recovery
      requires !stopFirst ==> !daemon.e.containers[Candidate(daemon.e)].running
      modifies this`f, this`job
      ensures Orderly(op, job, f, acts, daemon.e)
      ensures f == old(f).(recovery := f.recovery) && job == old(job).(withStop := job.withStop)
      ensures o.Done? ==> f.recovery && job.withStop == stopFirst
    {
      var made: bool := *;
      if made {
        ChooseReturn(job, f, daemon.e, stopFirst);
        job := job.(withStop := stopFirst);
        f := f.(recovery := true);
        if * {
          return Done(());
        }
      }
      o := Lose(Unconfirmed);
    }

    method Return(plan: Plan, candidate: Seen) returns (o: Outcome<()>)
      requires Orderly(op, job, f, acts, daemon.e) && f.exists_ && f.recovery && f.planFile == Written(plan)
      requires |f.intents| == |f.results| == 5 && candidate.id == Candidate(daemon.e)
      requires candidate.container.running == job.withStop && (job.withStop ==> Cleared(acts))
      modifies daemon, this`f, this`acts
      ensures Orderly(op, job, f, acts, daemon.e)
      ensures f.exists_ && f.recovery && f.planFile == old(f.planFile)
      ensures o.Done? ==> |f.intents| == |f.results| == |Script(job.withStop)|
    {
      if candidate.container.running {
        var _ :- StopRunning(candidate.id);
      }
      o := ReturnNames(plan, candidate.id);
    }

    method StopRunning(candidate: Id) returns (o: Outcome<()>)
      requires Orderly(op, job, f, acts, daemon.e) && f.exists_ && f.recovery && f.planFile.Written? && job.withStop && Cleared(acts)
      requires |f.intents| == |f.results| == 5 && candidate == Candidate(daemon.e)
      modifies daemon, this`f, this`acts
      ensures Orderly(op, job, f, acts, daemon.e)
      ensures f.exists_ && f.recovery && f.planFile == old(f.planFile)
      ensures o.Done? ==> |f.intents| == |f.results| == 6 && candidate == Candidate(daemon.e)
    {
      var _ :- Perform(StopCandidate, Stop(candidate));
      o := Done(());
    }

    method ReturnNames(plan: Plan, candidate: Id) returns (o: Outcome<()>)
      requires Orderly(op, job, f, acts, daemon.e) && f.exists_ && f.recovery && f.planFile == Written(plan)
      requires |f.intents| == |f.results| == (if job.withStop then 6 else 5) && candidate == Candidate(daemon.e)
      modifies daemon, this`f, this`acts
      ensures Orderly(op, job, f, acts, daemon.e)
      ensures f.exists_ && f.recovery && f.planFile == old(f.planFile)
      ensures o.Done? ==> |f.intents| == |f.results| == |Script(job.withStop)|
    {
      var _ :- Perform(RetainCandidate, Rename(candidate, ProfileName(op)));
      o := BringBack(plan);
    }

    /** The original gets its name back, and is started under it. */
    method BringBack(plan: Plan) returns (o: Outcome<()>)
      requires Orderly(op, job, f, acts, daemon.e) && f.exists_ && f.recovery && f.planFile == Written(plan)
      requires |f.intents| == |f.results| == (if job.withStop then 7 else 6)
      modifies daemon, this`f, this`acts
      ensures Orderly(op, job, f, acts, daemon.e)
      ensures f.exists_ && f.recovery && f.planFile == old(f.planFile)
      ensures o.Done? ==> |f.intents| == |f.results| == |Script(job.withStop)|
    {
      var _ :- Perform(RestoreName, Rename(plan.before.id, plan.name));
      var _ :- Perform(StartPrevious, Start(plan.before.id));
      o := Done(());
    }

    /** Any sequence of invocations, each of which may fail or die anywhere: what one process leaves
        behind is exactly what the next one finds. */
    method AnyRun(calls: seq<Invocation>)
      requires Orderly(op, job, f, acts, daemon.e) && Lawful(hold.op, hold.f, hold.baseline, hold.plane.s)
      modifies daemon, hold.plane, probe, this`f, this`job, this`acts
      ensures Orderly(op, job, f, acts, daemon.e) && Lawful(hold.op, hold.f, hold.baseline, hold.plane.s)
      ensures daemon.e.created != [] ==>
        && !(daemon.e.containers[daemon.e.original].running && daemon.e.containers[Candidate(daemon.e)].running)
        && daemon.e.containers[daemon.e.original].name != daemon.e.containers[Candidate(daemon.e)].name
      ensures forall i, j :: 0 <= i < j < |daemon.e.issued| ==> daemon.e.issued[i] != daemon.e.issued[j]
      ensures daemon.e.issued != [] ==> f.planFile.Written? && KeepsSettings(f.planFile.value)
      ensures |f.intents| > 1 ==>
        && f.planFile.Written? && daemon.e.original == f.planFile.value.before.id
        && daemon.e.containers[daemon.e.original].recipe == f.planFile.value.before.recipe
    {
      for i := 0 to |calls|
        invariant Orderly(op, job, f, acts, daemon.e) && Lawful(hold.op, hold.f, hold.baseline, hold.plane.s)
      {
        match calls[i] {
          case Applying(plan, approved) =>
            var _ := Apply(plan, approved);
          case Observing =>
            var _ := Observe();
          case Restoring(approved) =>
            var _ := Restore(approved);
        }
      }
      if daemon.e.created != [] {
        NeverBothRunning(job, f, daemon.e);
        NamesNeverCollide(job, f, daemon.e);
      }
      forall i, j | 0 <= i < j < |daemon.e.issued| ensures daemon.e.issued[i] != daemon.e.issued[j] {
        NoMutationTwice(job, f, daemon.e, i, j);
      }
    }
  }

  datatype Invocation = Applying(plan: Plan, approved: Plan) | Observing | Restoring(approved: Plan)

  /** This adapter keeps explicit bind mounts only, and containers the daemon will not remove or revive. */
  predicate Retainable(s: Settings) {
    s.bindMountsOnly && !s.autoRemove && !s.restartAlways
  }
}
