/** The serving change as one sequence: hold the worker, apply, qualify, publish, release and ask for
    readmission; restore the original when the candidate does not qualify; hand an untouched server
    back when anything fails before a stop was intended. */
module ServingOperation {
  import opened Effects
  import opened Docker
  import opened Cutover
  import opened Maintenance
  import opened RetainedProfile
  import opened CachePolicy
  import opened Gateway

  datatype Which = CandidateVersion | PreviousVersion

  type Check = string

  const RUNTIME_CHECKS: set<Check> := {"runtime_identity", "native_idle"}

  datatype Poll = Stopped | NotYet | Ready

  /** What a native qualification recorded. */
  datatype Report = Report(passed: bool, checks: set<Check>, before: Capacity, after: Capacity)

  datatype Acceptance = Passed | Failed | ReportedOnly

  /** A verdict: the container stopped by itself, or the checks were judged for one exact startup. */
  datatype Proof =
    | StoppedEarly
    | Judged(passed: bool, signature: Signature, startedAt: nat, acceptance: Acceptance, missing: set<Check>)

  datatype ServingPlan = ServingPlan(profile: Plan, trial: bool, maxLossPercent: real, required: set<Check>)

  datatype Result =
    | Completed(readmission: Readmission)
    | Restored(readmission: Readmission)
    | FailedUnchanged(readmission: Readmission)
    | NeedsReconciliation

  /** Of a trial: whether its candidate was measured, or had not qualified. */
  datatype TrialResult = Measured | NotQualified

  /** The receipts of one operation folder; each is published at most once. */
  datatype Receipts = Receipts(
    intent: Option<()>, result: Option<Result>, baseline: Option<Capacity>,
    candidateReport: Option<Report>, previousReport: Option<Report>,
    candidateProof: Option<Proof>, previousProof: Option<Proof>,
    publishIntent: Option<Which>, publishResult: Option<()>,
    untouched: Option<Seen>, trialResult: Option<TrialResult>)

  function ReportOf(r: Receipts, which: Which): Option<Report> {
    if which.CandidateVersion? then r.candidateReport else r.previousReport
  }

  function ProofOf(r: Receipts, which: Which): Option<Proof> {
    if which.CandidateVersion? then r.candidateProof else r.previousProof
  }

  /** Why the hold may be released: what served at the last check, and the world at that moment. */
  datatype Basis =
    | Unchanged(seen: Seen, world: Engine)
    | Qualified(which: Which, seen: Seen, world: Engine)

  /** The allowance that only a candidate has to meet, and only with a sample taken after its checks. */
  function Judge(which: Which, maxLossPercent: real, baseline: Option<Capacity>, report: Report): Acceptance {
    if which.PreviousVersion? then ReportedOnly
    else
      var comparison := if baseline.Some? then Compare(baseline.value, Sample(report)) else NotComparable;
      if comparison.Compared? && report.after.Observed? && comparison.deltaPercent >= -maxLossPercent then Passed
      else Failed
  }

  function Sample(report: Report): Capacity {
    if report.after.Observed? then report.after else report.before
  }

  /** What a version has to show: its native checks passed, they cover every required check and, for a
      candidate, the capacity measured after them is within the reviewed allowance of the baseline. */
  ghost predicate Deserves(plan: ServingPlan, which: Which, report: Report, baseline: Option<Capacity>) {
    && report.passed
    && (forall c <- plan.required :: c in report.checks || c in RUNTIME_CHECKS)
    && (which.CandidateVersion? ==>
          && baseline.Some? && baseline.value.Observed? && report.after.Observed?
          && 100.0 * report.after.tokens as real >= (100.0 - plan.maxLossPercent) * baseline.value.tokens as real)
  }

  /** A judged version passed exactly when its report deserves it. */
  ghost predicate VerdictTrue(plan: ServingPlan, r: Receipts, which: Which) {
    var proof := ProofOf(r, which);
    proof.Some? && proof.value.Judged? ==>
      ReportOf(r, which).Some? && (proof.value.passed <==> Deserves(plan, which, ReportOf(r, which).value, r.baseline))
  }

  predicate PassedProof(r: Receipts, which: Which) {
    && ProofOf(r, which).Some? && ProofOf(r, which).value.Judged? && ProofOf(r, which).value.passed
  }

  predicate Proves(r: Receipts, which: Which, seen: Seen) {
    && PassedProof(r, which)
    && ProofOf(r, which).value.signature == SignatureOf(seen)
    && ProofOf(r, which).value.startedAt == seen.container.startedAt
  }

  /** What a release rests on. */
  ghost predicate BasisHolds(plan: ServingPlan, r: Receipts, f: Folder, basis: Basis) {
    var seen := basis.seen;
    && seen.container.running && seen.container.name == plan.profile.name
    && seen.id in basis.world.containers
    && Evolved(seen.id, seen.container, basis.world.containers[seen.id], None)
    && match basis
       case Unchanged(_, _) =>
         && SignatureOf(seen) == plan.profile.before
         && seen.container.startedAt == plan.profile.startedAt
         && r.untouched == Some(seen) && StopPrevious !in f.intents
       case Qualified(which, _, world) =>
         && Proves(r, which, seen)
         && r.publishIntent == Some(which) && r.publishResult.Some?
         && StopPrevious in f.intents
         && seen.id == IdOf(which, plan.profile, world)
  }

  /** Why the original is brought back: the candidate did not qualify, or was only tried. A trial has
      measured its candidate exactly if that qualified. */
  ghost predicate GoesBack(plan: ServingPlan, r: Receipts) {
    && (plan.trial || !PassedProof(r, CandidateVersion))
    && (plan.trial ==> r.trialResult == Some(if PassedProof(r, CandidateVersion) then Measured else NotQualified))
  }

  /** A result says no more than the receipts establish. */
  ghost predicate Truthful(plan: ServingPlan, r: Receipts, f: Folder, released: bool, result: Result) {
    match result
    case Completed(_) =>
      && !plan.trial && PassedProof(r, CandidateVersion) && r.publishIntent == Some(CandidateVersion)
      && r.publishResult.Some? && released && StopPrevious in f.intents
    case Restored(_) =>
      && PassedProof(r, PreviousVersion) && r.publishIntent == Some(PreviousVersion)
      && r.publishResult.Some? && released && StopPrevious in f.intents && f.recovery
      && GoesBack(plan, r)
    case FailedUnchanged(_) => StopPrevious !in f.intents && released
    case NeedsReconciliation => true
  }

  predicate NothingJudged(r: Receipts) {
    r.candidateProof.None? && r.previousProof.None?
  }

  /** What the receipts of the operation, its hold and its driver have to say together. */
  ghost predicate ReceiptsHold(plan: ServingPlan, r: Receipts, f: Folder,
                               h: HoldFiles, basis: Option<Basis>)
  {
    && VerdictTrue(plan, r, CandidateVersion) && VerdictTrue(plan, r, PreviousVersion)
    && (h.releaseIntent.Some? ==> basis.Some?)
    && (basis.Some? ==> BasisHolds(plan, r, f, basis.value))
    && (r.result.Some? ==> Truthful(plan, r, f, h.releaseResult.Some?, r.result.value))
    && (r.intent.None? ==> basis.None? && r.result.None? && NothingJudged(r))
  }

  /** The attempt is under way: nothing justifies a release yet, and there is no result. */
  ghost predicate Underway(plan: ServingPlan, r: Receipts, h: HoldFiles, basis: Option<Basis>) {
    && r.intent.Some? && r.result.None? && basis.None? && h.releaseIntent.None?
    && VerdictTrue(plan, r, CandidateVersion) && VerdictTrue(plan, r, PreviousVersion)
  }

  /** The hold is released at most once, and only when the last check had established what serves:
      the untouched original, or exactly the version whose verdict passed and was recorded. */
  ghost predicate ReleaseJustified(plan: ServingPlan, r: Receipts, f: Folder, basis: Option<Basis>, issued: seq<Call>) {
    forall i :: 0 <= i < |issued| && issued[i].ReleaseCall? ==>
      && i == 1 && basis.Some?
      && var seen := basis.value.seen;
      && seen.container.running && seen.container.name == plan.profile.name
      && (basis.value.Unchanged? ==>
            && SignatureOf(seen) == plan.profile.before
            && seen.container.startedAt == plan.profile.startedAt && StopPrevious !in f.intents)
      && (basis.value.Qualified? ==>
            && Proves(r, basis.value.which, seen) && r.publishResult.Some? && r.publishIntent == Some(basis.value.which))
  }

  /** Why a failed operation does not hand the original back. */
  datatype Obstacle = StopWasIntended | HoldNotIdle(worker: Worker) | NotAsPlanned(world: Engine) | CallFailed

  ghost predicate Stands(why: Obstacle, profile: Plan, f: Folder, h: HoldFiles) {
    match why
    case StopWasIntended => StopPrevious in f.intents
    case HoldNotIdle(worker) => !Held(h, worker, true)
    case NotAsPlanned(world) => !AsThePlanSays(profile, world)
    case CallFailed => false
  }

  /** The planned container runs, with the identity, recipe, start time and name of the plan. */
  ghost predicate AsThePlanSays(profile: Plan, e: Engine) {
    && profile.before.id in e.containers
    && var c := e.containers[profile.before.id];
    && c.running && c.recipe == profile.before.recipe && c.startedAt == profile.startedAt && c.name == profile.name
  }

  lemma ReleasedOnceOnABasis(plan: ServingPlan, r: Receipts, f: Folder, h: HoldFiles,
                             basis: Option<Basis>, op: OperationId, baseline: seq<Event>, s: PlaneState)
    requires ReceiptsHold(plan, r, f, h, basis) && Lawful(op, h, baseline, s)
    ensures ReleaseJustified(plan, r, f, basis, s.issued)
  {
  }

  /** The result names what served when the hold was released; the two release paths exclude each other. */
  lemma ResultNamesWhatServes(plan: ServingPlan, r: Receipts, f: Folder, h: HoldFiles,
                              basis: Option<Basis>, op: OperationId)
    requires ReceiptsHold(plan, r, f, h, basis) && ReceiptsInOrder(op, h)
    requires r.result.Some? && !r.result.value.NeedsReconciliation?
    ensures basis.Some?
    ensures r.result.value.FailedUnchanged? <==> basis.value.Unchanged?
    ensures r.result.value.Completed? <==> basis.value.Qualified? && basis.value.which.CandidateVersion?
    ensures r.result.value.Restored? <==> basis.value.Qualified? && basis.value.which.PreviousVersion?
  {
  }

  /** A completed change was no trial, and its capacity is within the reviewed allowance. */
  lemma CompletedIsAccepted(plan: ServingPlan, r: Receipts, f: Folder, h: HoldFiles, basis: Option<Basis>)
    requires ReceiptsHold(plan, r, f, h, basis) && r.result.Some? && r.result.value.Completed?
    ensures !plan.trial && r.candidateReport.Some? && r.candidateReport.value.passed
    ensures forall c <- plan.required :: c in r.candidateReport.value.checks || c in RUNTIME_CHECKS
    ensures r.baseline.Some? && r.baseline.value.Observed? && r.candidateReport.value.after.Observed?
    ensures 100.0 * r.candidateReport.value.after.tokens as real
         >= (100.0 - plan.maxLossPercent) * r.baseline.value.tokens as real
  {
  }

  /** An operation that failed unchanged never sent a stop, a rename or a start. */
  lemma FailedUnchangedSentNothing(plan: ServingPlan, r: Receipts, f: Folder, h: HoldFiles,
                                   basis: Option<Basis>, job: Job, e: Engine)
    requires ReceiptsHold(plan, r, f, h, basis) && r.result.Some? && r.result.value.FailedUnchanged?
    requires Consistent(job, f, e)
    ensures forall m <- e.issued :: m.Create?
  {
    UntouchedBeforeStopIntent(job, f, e);
  }

  lemma MissingNone(required: set<Check>, checks: set<Check>)
    ensures required - (checks + RUNTIME_CHECKS) == {} <==> forall c <- required :: c in checks || c in RUNTIME_CHECKS
  {
    var missing := required - (checks + RUNTIME_CHECKS);
    if missing == {} {
      forall c <- required ensures c in checks || c in RUNTIME_CHECKS {
        assert c !in missing;
      }
    }
  }

  /** A candidate fails for its capacity exactly when it was not measured after the checks, or lies below
      the bound. */
  lemma JudgedByAllowance(which: Which, maxLossPercent: real, baseline: Option<Capacity>, report: Report)
    ensures Judge(which, maxLossPercent, baseline, report) != Failed <==>
              (which.CandidateVersion? ==>
                 && baseline.Some? && baseline.value.Observed? && report.after.Observed?
                 && 100.0 * report.after.tokens as real >= (100.0 - maxLossPercent) * baseline.value.tokens as real)
  {
    if which.CandidateVersion? && baseline.Some? && baseline.value.Observed? && report.after.Observed? {
      WithinAllowanceIffBound(baseline.value.tokens, report.after.tokens, maxLossPercent);
    }
  }

  /** The record library: the pinned record still holds, or an exception says it does not. */
  method CheckRecord() returns (o: Outcome<()>)
  {
    if * {
      o := Done(());
    } else {
      o := Lose(Refused);
    }
  }

  method QualifierReady() returns (o: Outcome<bool>)
  {
    var ready: bool := *;
    if * {
      o := Done(ready);
    } else {
      o := Lose(Unconfirmed);
    }
  }

  /** Runs the native checks, in an owned idle window. The report file is the qualifier's own and is compared afterwards. */
  method Verify(ghost h: HoldFiles, ghost w: Worker) returns (o: Outcome<Report>, file: Option<Report>)
    requires Held(h, w, true)
  {
    var report: Report, other: Report := *, *;
    file := None;
    if * {
      file := Some(report);
    } else if * {
      file := Some(other);
    }
    if * {
      o := Done(report);
    } else {
      o := Lose(Unconfirmed);
    }
  }

  /** The publisher, after its intent is saved: whether it reports the record as recorded. */
  method PublishRecord(which: Which, ghost intent: Option<Which>) returns (o: Outcome<bool>)
    requires intent == Some(which)
  {
    var recorded: bool := *;
    if * {
      o := Done(recorded);
    } else {
      o := Lose(Unconfirmed);
    }
  }

  method ObserveCache() returns (o: Outcome<Capacity>)
  {
    var tokens: Tokens :| true;
    if * {
      o := Done(Observed(tokens));
    } else if * {
      o := Done(Unobserved);
    } else {
      o := Lose(Unconfirmed);
    }
  }

  method SaveNote() returns (o: Outcome<()>)
  {
    if * {
      o := Done(());
    } else {
      o := Lose(Refused);
    }
  }

  class Operation {
    const plan: ServingPlan
    const driver: Driver
    const hold: Hold

    var r: Receipts
    ghost var basis: Option<Basis>

    constructor (plan: ServingPlan, driver: Driver)
      requires Steady(driver, driver.hold)
      requires driver.f == EMPTY && driver.hold.f.releaseIntent.None?
      ensures this.plan == plan && this.driver == driver && hold == driver.hold
      ensures ReceiptsHold(plan, r, driver.f, hold.f, basis) && r.intent.None?
    {
      this.plan, this.driver, this.hold := plan, driver, driver.hold;
      r := Receipts(None, None, None, None, None, None, None, None, None, None, None);
      basis := None;
    }

    method RequireOwnedIdle() returns (o: Outcome<()>)
      requires Lawful(hold.op, hold.f, hold.baseline, hold.plane.s)
      modifies hold.plane
      ensures Lawful(hold.op, hold.f, hold.baseline, hold.plane.s)
      ensures o.Done? ==> Held(hold.f, hold.plane.s.worker, true)
    {
      var owned :- hold.Owned(Some(hold.op), true);
      o := if owned then Done(()) else Raised(Refused);
    }

    /** Waits until the worker's work has ended; meanwhile the containers may change by themselves. */
    method WaitIdle(patience: nat) returns (o: Outcome<()>)
      requires Steady(driver, hold)
      modifies driver.daemon, hold.plane, driver.probe
      ensures Steady(driver, hold)
      ensures o.Done? ==> Held(hold.f, hold.plane.s.worker, true)
      ensures o.Done? ==> TwoIdleSamples(driver.probe.samples) && |driver.probe.samples| >= |old(driver.probe.samples)| + 2
    {
      driver.TimePasses();
      o := hold.WaitIdle(driver.probe, patience);
    }

    /** Looks at the same containers again while only the observation is unavailable. */
    method Observe(patience: nat) returns (o: Outcome<Observation>)
      requires Steady(driver, hold) && driver.f.planFile == Written(plan.profile)
      modifies driver.daemon, hold.plane
      ensures Steady(driver, hold)
      ensures o.Done? ==> Establishes(o.value, plan.profile, driver.f, driver.daemon.e)
      ensures o.Done? ==> Held(hold.f, hold.plane.s.worker, true)
    {
      for attempts := 0 to patience
        invariant Steady(driver, hold)
      {
        o := ObserveOnce();
        if o != Raised(Unavailable) {
          return;
        }
      }
      o := Died;
    }

    method ObserveOnce() returns (o: Outcome<Observation>)
      requires Steady(driver, hold) && driver.f.planFile == Written(plan.profile)
      modifies driver.daemon, hold.plane
      ensures Steady(driver, hold)
      ensures o.Done? ==> Establishes(o.value, plan.profile, driver.f, driver.daemon.e)
      ensures o.Done? ==> Held(hold.f, hold.plane.s.worker, true)
    {
      var _ :- RequireOwnedIdle();
      o := driver.Observe();
      if o.Done? {
        ObservationEstablishes(driver.job, driver.f, driver.daemon.e, plan.profile, o.value);
      }
    }

    method Current(which: Which, patience: nat) returns (o: Outcome<Seen>)
      requires Steady(driver, hold) && driver.f.planFile == Written(plan.profile)
      modifies driver.daemon, hold.plane
      ensures Steady(driver, hold)
      ensures o.Done? ==> ServesAs(which, o.value, plan.profile, driver.f, driver.daemon.e)
      ensures o.Done? ==> Held(hold.f, hold.plane.s.worker, true)
    {
      var seen :- Observe(patience);
      var container := if which.CandidateVersion? then seen.candidate else seen.previous;
      var state := if which.CandidateVersion? then StartedUnverified else RestoredUnverified;
      if seen.state != state || container.None? || !container.value.container.running {
        return Raised(Refused);
      }
      o := Done(container.value);
    }

    method SaveProof(which: Which, proof: Proof) returns (o: Outcome<()>)
      requires Underway(plan, r, hold.f, basis) && VerdictTrue(plan, WithProof(r, which, Some(proof)), which)
      modifies this`r
      ensures Underway(plan, r, hold.f, basis) && OnlyVerdicts(old(r), r, which)
      ensures o.Done? ==> ProofOf(r, which) == Some(proof)
    {
      var file, saved := Publish(ProofOf(r, which), proof);
      r := WithProof(r, which, file);
      o := saved;
    }

    method SaveReport(which: Which, report: Option<Report>)
      requires Underway(plan, r, hold.f, basis)
      modifies this`r
      ensures Underway(plan, r, hold.f, basis) && OnlyVerdicts(old(r), r, which)
      ensures ProofOf(r, which) == old(ProofOf(r, which))
      ensures old(ReportOf(r, which)).Some? ==> r == old(r)
      ensures old(ReportOf(r, which)).None? ==> ReportOf(r, which) == report
    {
      if ReportOf(r, which).None? {
        r := WithReport(r, which, report);
      }
    }

    /** Whether the version stopped by itself after its acknowledged start; if so that is its verdict. */
    method StoppedByItself(which: Which, patience: nat) returns (o: Outcome<bool>)
      requires Steady(driver, hold) && driver.f.planFile == Written(plan.profile) && Underway(plan, r, hold.f, basis)
      modifies driver.daemon, hold.plane, this`r
      ensures Steady(driver, hold) && Underway(plan, r, hold.f, basis)
      ensures OnlyVerdicts(old(r), r, which) && (o == Done(false) ==> r == old(r))
      ensures o == Done(true) ==>
        ProofOf(r, which) == Some(StoppedEarly) && HasStopped(which, plan.profile, driver.f, driver.daemon.e)
    {
      var seen :- Observe(patience);
      if seen.state != (if which.CandidateVersion? then CandidateStoppedUnverified else RestorationStoppedUnverified) {
        return Done(false);
      }
      var _ :- RequireOwnedIdle();
      var _ :- RecordStop(which);
      o := Done(true);
    }

    /** A failed report, unless there is one, and the failed verdict. */
    method RecordStop(which: Which) returns (o: Outcome<()>)
      requires Underway(plan, r, hold.f, basis)
      modifies this`r
      ensures Underway(plan, r, hold.f, basis) && OnlyVerdicts(old(r), r, which)
      ensures o.Done? ==> ProofOf(r, which) == Some(StoppedEarly)
    {
      var _ :- CheckRecord();
      if ReportOf(r, which).None? {
        var file, saved := Publish(None, Report(false, {}, Unobserved, Unobserved));
        SaveReport(which, file);
        var _ :- saved;
      }
      o := SaveProof(which, StoppedEarly);
    }

    /** Waits for the native API of one exact startup, and says which. None: the version stopped. */
    method AwaitReady(which: Which, patience: nat) returns (o: Outcome<Option<nat>>)
      requires Steady(driver, hold) && driver.f.planFile == Written(plan.profile) && Underway(plan, r, hold.f, basis)
      modifies driver.daemon, hold.plane, this`r
      ensures Steady(driver, hold) && Underway(plan, r, hold.f, basis)
      ensures OnlyVerdicts(old(r), r, which)
      ensures o == Done(None) ==> ProofOf(r, which) == Some(StoppedEarly)
      ensures o.Done? && o.value.Some? ==> r == old(r) && StartedAt(which, plan.profile, driver.daemon.e, o.value.value)
    {
      var stopped :- StoppedByItself(which, patience);
      if stopped {
        return Done(None);
      }
      var first :- Current(which, patience);
      o := AwaitStartup(which, first.container.startedAt, patience);
    }

    /** Polls until the native API of this startup answers. */
    method AwaitStartup(which: Which, startedAt: nat, patience: nat) returns (o: Outcome<Option<nat>>)
      requires Steady(driver, hold) && driver.f.planFile == Written(plan.profile) && Underway(plan, r, hold.f, basis)
      modifies driver.daemon, hold.plane, this`r
      ensures Steady(driver, hold) && Underway(plan, r, hold.f, basis)
      ensures OnlyVerdicts(old(r), r, which)
      ensures o == Done(None) ==> ProofOf(r, which) == Some(StoppedEarly)
      ensures o.Done? && o.value.Some? ==>
        r == old(r) && o.value.value == startedAt && StartedAt(which, plan.profile, driver.daemon.e, startedAt)
    {
      for polls := 0 to patience
        invariant Steady(driver, hold) && Underway(plan, r, hold.f, basis)
        invariant r == old(r)
      {
        var poll :- PollReady(which, startedAt, patience);
        if poll.Stopped? {
          return Done(None);
        }
        if poll.Ready? {
          return Done(Some(startedAt));
        }
      }
      o := Died;
    }

    /** One poll of the native API, after checking that the same startup still serves. */
    method PollReady(which: Which, startedAt: nat, patience: nat) returns (o: Outcome<Poll>)
      requires Steady(driver, hold) && driver.f.planFile == Written(plan.profile) && Underway(plan, r, hold.f, basis)
      modifies driver.daemon, hold.plane, this`r
      ensures Steady(driver, hold) && Underway(plan, r, hold.f, basis)
      ensures OnlyVerdicts(old(r), r, which) && (o.Done? && !o.value.Stopped? ==> r == old(r))
      ensures o == Done(Stopped) ==> ProofOf(r, which) == Some(StoppedEarly)
      ensures o == Done(Poll.Ready) ==> StartedAt(which, plan.profile, driver.daemon.e, startedAt)
    {
      var _ :- RequireOwnedIdle();
      var stopped :- StoppedByItself(which, patience);
      if stopped {
        return Done(Stopped);
      }
      var now :- Current(which, patience);
      if now.container.startedAt != startedAt {
        return Raised(Refused);
      }
      var ready := QualifierReady();
      o := if ready == Died then Died else Done(if ready == Done(true) then Poll.Ready else NotYet);
    }

    /** The verdict on the evidence of one exact startup. */
    method Conclude(which: Which, after: Seen, startedAt: nat, report: Report) returns (o: Outcome<bool>)
      requires Underway(plan, r, hold.f, basis) && ReportOf(r, which) == Some(report)
      modifies this`r
      ensures Underway(plan, r, hold.f, basis) && OnlyVerdicts(old(r), r, which)
      ensures o.Done? ==> ProofOf(r, which).Some? && ProofOf(r, which).value.Judged?
      ensures o.Done? ==> (o.value <==> PassedProof(r, which)) && (o.value <==> Deserves(plan, which, report, r.baseline))
      ensures o == Done(true) ==>
        && PassedProof(r, which) && ProofOf(r, which).value.signature == SignatureOf(after)
        && ProofOf(r, which).value.startedAt == startedAt
    {
      var _ :- CheckRecord();
      var acceptance := Judge(which, plan.maxLossPercent, r.baseline, report);
      var missing := plan.required - (report.checks + RUNTIME_CHECKS);
      var passed := report.passed && missing == {} && acceptance != Failed;
      var proof := Judged(passed, SignatureOf(after), startedAt, acceptance, missing);
      JudgedByAllowance(which, plan.maxLossPercent, r.baseline, report);
      MissingNone(plan.required, report.checks);
      var _ :- SaveProof(which, proof);
      o := Done(passed);
    }

    /** Native checks of one exact startup, and its verdict. A passed verdict names what runs now. */
    method Qualify(which: Which, patience: nat) returns (o: Outcome<bool>)
      requires Steady(driver, hold) && driver.f.planFile == Written(plan.profile) && Underway(plan, r, hold.f, basis)
      modifies driver.daemon, hold.plane, driver.probe, this`r
      ensures Steady(driver, hold) && Underway(plan, r, hold.f, basis)
      ensures OnlyVerdicts(old(r), r, which)
      ensures o == Done(false) ==> !PassedProof(r, which)
      ensures o == Done(true) ==>
        && PassedProof(r, which)
        && Startup(which, plan.profile, driver.daemon.e, ProofOf(r, which).value.signature, ProofOf(r, which).value.startedAt)
      ensures o == Done(true) ==> TwoIdleSamples(driver.probe.samples) && |driver.probe.samples| >= |old(driver.probe.samples)| + 2
    {
      var started :- AwaitReady(which, patience);
      if started.None? {
        return Done(false);
      }
      var before :- CheckNatively(which, patience);
      o := SettleVerdict(which, before, started.value, patience);
    }

    /** Runs the native checks on the version that serves; their report is on file afterwards. */
    method CheckNatively(which: Which, patience: nat) returns (o: Outcome<Seen>)
      requires Steady(driver, hold) && driver.f.planFile == Written(plan.profile) && Underway(plan, r, hold.f, basis)
      modifies driver.daemon, hold.plane, this`r
      ensures Steady(driver, hold) && Underway(plan, r, hold.f, basis)
      ensures OnlyVerdicts(old(r), r, which)
      ensures o.Done? ==> ReportOf(r, which).Some?
    {
      var _ :- CheckRecord();
      var _ :- RequireOwnedIdle();
      var before :- Current(which, patience);
      var _ :- SaveVerification(which);
      if r.baseline.Some? {
        var _ :- SaveNote();
      }
      o := Done(before);
    }

    method SaveVerification(which: Which) returns (o: Outcome<()>)
      requires Underway(plan, r, hold.f, basis)
      requires Held(hold.f, hold.plane.s.worker, true)
      modifies this`r
      ensures Underway(plan, r, hold.f, basis) && OnlyVerdicts(old(r), r, which)
      ensures o.Done? ==> ReportOf(r, which).Some?
    {
      var verified, file := Verify(hold.f, hold.plane.s.worker);
      SaveReport(which, file);
      var report :- verified;
      o := if ReportOf(r, which) == Some(report) then Done(()) else Raised(Refused);
    }

    /** The verdict, if the same startup was there before the checks, after them, and after an idle wait. */
    method SettleVerdict(which: Which, before: Seen, startedAt: nat, patience: nat) returns (o: Outcome<bool>)
      requires Steady(driver, hold) && driver.f.planFile == Written(plan.profile) && Underway(plan, r, hold.f, basis)
      requires ReportOf(r, which).Some?
      modifies driver.daemon, hold.plane, driver.probe, this`r
      ensures Steady(driver, hold) && Underway(plan, r, hold.f, basis)
      ensures OnlyVerdicts(old(r), r, which)
      ensures o == Done(false) ==> !PassedProof(r, which)
      ensures o == Done(true) ==>
        && PassedProof(r, which) && ProofOf(r, which).value.signature == SignatureOf(before)
        && ProofOf(r, which).value.startedAt == startedAt
        && Startup(which, plan.profile, driver.daemon.e, SignatureOf(before), startedAt)
      ensures o == Done(true) ==> TwoIdleSamples(driver.probe.samples) && |driver.probe.samples| >= |old(driver.probe.samples)| + 2
    {
      var report := ReportOf(r, which).value;
      var stopped :- StoppedByItself(which, patience);
      if stopped {
        return Done(false);
      }
      var after :- StayedTheSame(which, before, startedAt, patience);
      o := Conclude(which, after, startedAt, report);
    }

    /** The startup is the given one, before and after an idle wait. */
    method StayedTheSame(which: Which, before: Seen, startedAt: nat, patience: nat) returns (o: Outcome<Seen>)
      requires Steady(driver, hold) && driver.f.planFile == Written(plan.profile)
      modifies driver.daemon, hold.plane, driver.probe
      ensures Steady(driver, hold)
      ensures o.Done? ==>
        && SignatureOf(o.value) == SignatureOf(before) && o.value.container.startedAt == startedAt
        && Startup(which, plan.profile, driver.daemon.e, SignatureOf(before), startedAt)
      ensures o.Done? ==> TwoIdleSamples(driver.probe.samples) && |driver.probe.samples| >= |old(driver.probe.samples)| + 2
    {
      var after :- SameStartup(which, before, startedAt, patience);
      var _ :- WaitIdle(patience);
      var final :- SameStartup(which, after, startedAt, patience);
      o := Done(after);
    }

    method SameStartup(which: Which, seen: Seen, startedAt: nat, patience: nat) returns (o: Outcome<Seen>)
      requires Steady(driver, hold) && driver.f.planFile == Written(plan.profile)
      modifies driver.daemon, hold.plane
      ensures Steady(driver, hold)
      ensures o.Done? ==>
        && SignatureOf(o.value) == SignatureOf(seen) && o.value.container.startedAt == startedAt
        && Startup(which, plan.profile, driver.daemon.e, SignatureOf(seen), startedAt)
    {
      var now :- Current(which, patience);
      if SignatureOf(now) != SignatureOf(seen) || now.container.startedAt != startedAt {
        return Raised(Refused);
      }
      o := Done(now);
    }

    /** The version that serves now is exactly the one whose verdict passed. */
    method QualifiedCurrent(which: Which, patience: nat) returns (o: Outcome<Seen>)
      requires Steady(driver, hold) && driver.f.planFile == Written(plan.profile)
      modifies driver.daemon, hold.plane
      ensures Steady(driver, hold)
      ensures o.Done? ==>
        && ServesAs(which, o.value, plan.profile, driver.f, driver.daemon.e)
        && Proves(r, which, o.value)
      ensures o.Done? ==> Held(hold.f, hold.plane.s.worker, true)
    {
      var proof := ProofOf(r, which);
      var current :- Current(which, patience);
      if || proof.None? || !proof.value.Judged? || !proof.value.passed
         || proof.value.signature != SignatureOf(current) || proof.value.startedAt != current.container.startedAt {
        return Raised(Refused);
      }
      o := Done(current);
    }

    /** Publishes the qualified version: the intent, the publication and its confirmation. */
    method Record(which: Which, patience: nat) returns (o: Outcome<()>)
      requires Steady(driver, hold) && driver.f.planFile == Written(plan.profile) && Underway(plan, r, hold.f, basis)
      modifies driver.daemon, hold.plane, this`r
      ensures Steady(driver, hold) && Underway(plan, r, hold.f, basis)
      ensures r == old(r).(publishIntent := r.publishIntent, publishResult := r.publishResult)
      ensures o.Done? ==> r.publishIntent == Some(which) && r.publishResult.Some?
      ensures o.Done? ==> Held(hold.f, hold.plane.s.worker, true)
    {
      var _ :- RequireOwnedIdle();
      var _ :- CheckRecord();
      var current :- QualifiedCurrent(which, patience);
      o := SavePublication(which);
    }

    method SavePublication(which: Which) returns (o: Outcome<()>)
      requires Underway(plan, r, hold.f, basis)
      modifies this`r
      ensures Underway(plan, r, hold.f, basis)
      ensures r == old(r).(publishIntent := r.publishIntent, publishResult := r.publishResult)
      ensures o.Done? ==> r.publishIntent == Some(which) && r.publishResult.Some?
    {
      var intent, saved := Publish(r.publishIntent, which);
      r := r.(publishIntent := intent);
      var _ :- saved;
      var recorded :- PublishRecord(which, r.publishIntent);
      if !recorded {
        return Raised(Refused);
      }
      var result, kept := Publish(r.publishResult, ());
      r := r.(publishResult := result);
      o := kept;
    }

    /** The last look before the hold may go: idle, the same qualified version, and still owned. */
    method LastCheck(which: Which, patience: nat) returns (o: Outcome<()>)
      requires Steady(driver, hold) && driver.f.planFile == Written(plan.profile) && Underway(plan, r, hold.f, basis)
      requires r.publishIntent == Some(which) && r.publishResult.Some?
      modifies driver.daemon, hold.plane, driver.probe, this`basis
      ensures Steady(driver, hold)
      ensures ReceiptsHold(plan, r, driver.f, hold.f, basis)
      ensures basis.Some? ==> basis.value.Qualified? && basis.value.which == which
      ensures o.Done? ==> basis.Some? && Held(hold.f, hold.plane.s.worker, true)
      ensures o.Done? ==> which.PreviousVersion? ==> driver.f.recovery
      ensures o.Done? ==> TwoIdleSamples(driver.probe.samples) && |driver.probe.samples| >= |old(driver.probe.samples)| + 2
    {
      var seen :- SeeQualified(which, patience);
      basis := Some(Qualified(which, seen, driver.daemon.e));
      o := Done(());
    }

    method SeeQualified(which: Which, patience: nat) returns (o: Outcome<Seen>)
      requires Steady(driver, hold) && driver.f.planFile == Written(plan.profile)
      modifies driver.daemon, hold.plane, driver.probe
      ensures Steady(driver, hold)
      ensures o.Done? ==>
        && ServesAs(which, o.value, plan.profile, driver.f, driver.daemon.e) && Proves(r, which, o.value)
        && Held(hold.f, hold.plane.s.worker, true)
      ensures o.Done? ==> TwoIdleSamples(driver.probe.samples) && |driver.probe.samples| >= |old(driver.probe.samples)| + 2
    {
      var _ :- WaitIdle(patience);
      o := QualifiedAndOwned(which, patience);
    }

    method QualifiedAndOwned(which: Which, patience: nat) returns (o: Outcome<Seen>)
      requires Steady(driver, hold) && driver.f.planFile == Written(plan.profile)
      modifies driver.daemon, hold.plane
      ensures Steady(driver, hold)
      ensures o.Done? ==>
        && ServesAs(which, o.value, plan.profile, driver.f, driver.daemon.e) && Proves(r, which, o.value)
        && Held(hold.f, hold.plane.s.worker, true)
    {
      var seen :- QualifiedCurrent(which, patience);
      var _ :- RequireOwnedIdle();
      o := Done(seen);
    }

    /** Releases the hold on an established basis, then asks for readmission. */
    method HandBack() returns (o: Outcome<Readmission>)
      requires Lawful(hold.op, hold.f, hold.baseline, hold.plane.s) && basis.Some? && r.result.None?
      requires ReceiptsHold(plan, r, driver.f, hold.f, basis)
      modifies hold, hold.plane
      ensures Lawful(hold.op, hold.f, hold.baseline, hold.plane.s)
      ensures ReceiptsHold(plan, r, driver.f, hold.f, basis)
      ensures o.Done? ==> hold.f.releaseResult.Some? && hold.f.resumeResult == Some(o.value)
    {
      var _ :- hold.Release();
      ghost var seen;
      o, seen := hold.ResumeIfUnchanged();
    }

    /** Releases the hold of a qualified and recorded version, and asks for readmission. */
    method Finish(which: Which, patience: nat) returns (o: Outcome<Result>)
      requires Steady(driver, hold) && driver.f.planFile == Written(plan.profile) && Underway(plan, r, hold.f, basis)
      requires PassedProof(r, which) && if which.CandidateVersion? then !plan.trial else GoesBack(plan, r)
      modifies driver.daemon, hold, hold.plane, driver.probe, this
      ensures Steady(driver, hold) && r.intent.Some?
      ensures ReceiptsHold(plan, r, driver.f, hold.f, basis)
      ensures basis.Some? ==> basis.value.Qualified?
      ensures r.result.Some? ==> basis.Some?
      ensures o.Done? ==> r.result == Some(o.value)
      ensures r == old(r).(publishIntent := r.publishIntent, publishResult := r.publishResult, result := r.result)
      ensures o.Done? ==> if which.CandidateVersion? then o.value.Completed? else o.value.Restored?
    {
      var _ :- Record(which, patience);
      o := FinishRecorded(which, patience);
    }

    method FinishRecorded(which: Which, patience: nat) returns (o: Outcome<Result>)
      requires Steady(driver, hold) && driver.f.planFile == Written(plan.profile) && Underway(plan, r, hold.f, basis)
      requires r.publishIntent == Some(which) && r.publishResult.Some? && PassedProof(r, which)
      requires if which.CandidateVersion? then !plan.trial else GoesBack(plan, r)
      modifies driver.daemon, hold, hold.plane, driver.probe, this
      ensures Steady(driver, hold) && r.intent.Some?
      ensures ReceiptsHold(plan, r, driver.f, hold.f, basis)
      ensures basis.Some? ==> basis.value.Qualified?
      ensures r.result.Some? ==> basis.Some?
      ensures o.Done? ==> r.result == Some(o.value)
      ensures r == old(r).(result := r.result)
      ensures o.Done? ==> if which.CandidateVersion? then o.value.Completed? else o.value.Restored?
    {
      var _ :- LastCheck(which, patience);
      o := Close(which);
    }

    method Close(which: Which) returns (o: Outcome<Result>)
      requires Lawful(hold.op, hold.f, hold.baseline, hold.plane.s) && r.intent.Some? && r.result.None?
      requires ReceiptsHold(plan, r, driver.f, hold.f, basis) && basis.Some? && basis.value.Qualified? && basis.value.which == which
      requires if which.CandidateVersion? then !plan.trial else driver.f.recovery && GoesBack(plan, r)
      modifies hold, hold.plane, this`r
      ensures Lawful(hold.op, hold.f, hold.baseline, hold.plane.s) && r == old(r).(result := r.result)
      ensures ReceiptsHold(plan, r, driver.f, hold.f, basis)
      ensures o.Done? ==> r.result == Some(o.value)
      ensures o.Done? ==> if which.CandidateVersion? then o.value.Completed? else o.value.Restored?
    {
      var readmission :- HandBack();
      o := SaveResult(if which.CandidateVersion? then Completed(readmission) else Restored(readmission));
    }

    method SaveResult(result: Result) returns (o: Outcome<Result>)
      requires ReceiptsHold(plan, r, driver.f, hold.f, basis) && r.intent.Some?
      requires Truthful(plan, r, driver.f, hold.f.releaseResult.Some?, result)
      modifies this`r
      ensures ReceiptsHold(plan, r, driver.f, hold.f, basis)
      ensures r == old(r).(result := r.result)
      ensures o.Done? ==> o.value == result && r.result == Some(result)
    {
      var file, saved := Publish(r.result, result);
      r := r.(result := file);
      var _ :- saved;
      o := Done(result);
    }

    /** The original, seen twice around an idle wait, exactly as the plan recorded it. */
    method SeeUntouched(patience: nat) returns (o: Outcome<Option<Seen>>, ghost why: Obstacle)
      requires Steady(driver, hold)
      modifies driver.daemon, hold.plane, driver.probe
      ensures Steady(driver, hold)
      ensures o == Done(None) ==> Stands(why, plan.profile, driver.f, hold.f)
      ensures o.Done? && o.value.Some? ==>
        && driver.ServesAsPlanned(plan.profile, o.value) && o.value.value.id == plan.profile.before.id
        && o.value.value.id in driver.daemon.e.containers
        && o.value.value.container == driver.daemon.e.containers[o.value.value.id]
      ensures o.Done? && o.value.Some? ==>
        TwoIdleSamples(driver.probe.samples) && |driver.probe.samples| >= |old(driver.probe.samples)| + 2
    {
      why := CallFailed;
      var current :- driver.Inspect(plan.profile.before.id);
      why := NotAsPlanned(driver.daemon.e);
      if !driver.ServesAsPlanned(plan.profile, current) {
        o := Done(None);
        return;
      }
      var _ :- WaitIdle(patience);
      var latest :- driver.Inspect(plan.profile.before.id);
      why := NotAsPlanned(driver.daemon.e);
      if || latest.None? || !latest.value.container.running || SignatureOf(latest.value) != SignatureOf(current.value)
         || latest.value.container.startedAt != current.value.container.startedAt
         || latest.value.container.name != current.value.container.name {
        o := Done(None);
        return;
      }
      o := Done(latest);
    }

    method Untouched(patience: nat) returns (o: Outcome<Option<Seen>>, ghost why: Obstacle)
      requires Steady(driver, hold)
      modifies driver.daemon, hold.plane, driver.probe
      ensures Steady(driver, hold)
      ensures o == Done(None) ==> Stands(why, plan.profile, driver.f, hold.f)
      ensures o.Done? && o.value.Some? ==>
        && StopPrevious !in driver.f.intents
        && driver.ServesAsPlanned(plan.profile, o.value) && o.value.value.id == plan.profile.before.id
        && o.value.value.id in driver.daemon.e.containers
        && o.value.value.container == driver.daemon.e.containers[o.value.value.id]
      ensures o.Done? && o.value.Some? ==>
        TwoIdleSamples(driver.probe.samples) && |driver.probe.samples| >= |old(driver.probe.samples)| + 2
    {
      why := StopWasIntended;
      if StopPrevious in driver.f.intents {
        o := Done(None);
        return;
      }
      var owned :- hold.Owned(Some(hold.op), true);
      why := HoldNotIdle(hold.plane.s.worker);
      if !owned {
        o := Done(None);
        return;
      }
      var _ :- CheckRecord();
      var latest;
      latest, why :- SeeUntouched(patience);
      if latest.Some? {
        var _ :- CheckRecord();
      }
      o := Done(latest);
    }

    /** Before any stop was intended the serving process cannot have been changed by this operation:
        a demonstrably untouched server is handed back. */
    method UnchangedReturn(patience: nat) returns (o: Outcome<Option<Result>>, ghost why: Obstacle)
      requires Steady(driver, hold) && ReceiptsHold(plan, r, driver.f, hold.f, basis)
      requires r.intent.Some? && (r.result.Some? ==> basis.Some?) && (basis.Some? ==> basis.value.Qualified?)
      modifies driver.daemon, hold, hold.plane, driver.probe, this
      ensures Steady(driver, hold) && r == old(r).(untouched := r.untouched)
      ensures ReceiptsHold(plan, r, driver.f, hold.f, basis)
      ensures old(hold.f).releaseIntent.Some? ==> basis == old(basis)
      ensures o == Done(None) ==> Stands(why, plan.profile, driver.f, hold.f)
      ensures o.Done? && o.value.Some? ==>
        && o.value.value.FailedUnchanged?
        && Truthful(plan, r, driver.f, hold.f.releaseResult.Some?, o.value.value)
    {
      var seen;
      seen, why :- Untouched(patience);
      if seen.None? {
        o := Done(None);
        return;
      }
      var _ :- SaveUntouched(seen.value);
      o := HandUntouchedBack(seen.value);
    }

    method SaveUntouched(seen: Seen) returns (o: Outcome<()>)
      requires ReceiptsHold(plan, r, driver.f, hold.f, basis) && r.intent.Some? && basis.None?
      modifies this`r
      ensures ReceiptsHold(plan, r, driver.f, hold.f, basis) && r == old(r).(untouched := r.untouched)
      ensures o.Done? ==> r.untouched == Some(seen)
    {
      var file, saved := Publish(r.untouched, seen);
      r := r.(untouched := file);
      o := saved;
    }

    method HandUntouchedBack(seen: Seen) returns (o: Outcome<Option<Result>>)
      requires Steady(driver, hold) && ReceiptsHold(plan, r, driver.f, hold.f, basis)
      requires r.intent.Some? && r.result.None? && basis.None? && r.untouched == Some(seen)
      requires driver.ServesAsPlanned(plan.profile, Some(seen)) && StopPrevious !in driver.f.intents
      requires seen.id in driver.daemon.e.containers && seen.container == driver.daemon.e.containers[seen.id]
      modifies hold, hold.plane, this`basis
      ensures Steady(driver, hold) && ReceiptsHold(plan, r, driver.f, hold.f, basis)
      ensures o.Done? ==> o.value.Some?
      ensures o.Done? && o.value.Some? ==>
        && o.value.value.FailedUnchanged?
        && Truthful(plan, r, driver.f, hold.f.releaseResult.Some?, o.value.value)
    {
      basis := Some(Unchanged(seen, driver.daemon.e));
      var readmission :- HandBack();
      o := Done(Some(FailedUnchanged(readmission)));
    }

    /** The sequence itself, up to the first exception. */
    method Attempt(patience: nat) returns (o: Outcome<Result>)
      requires Steady(driver, hold) && Underway(plan, r, hold.f, basis) && driver.f == EMPTY && NothingJudged(r)
      modifies driver, driver.daemon, hold, hold.plane, driver.probe, this
      ensures Steady(driver, hold) && r.intent.Some?
      ensures ReceiptsHold(plan, r, driver.f, hold.f, basis)
      ensures basis.Some? ==> basis.value.Qualified?
      ensures o.Done? ==> r.result == Some(o.value) && (o.value.Completed? || o.value.Restored?)
      ensures o.Done? ==> (o.value.Completed? <==> !plan.trial && PassedProof(r, CandidateVersion))
      ensures r.result.Some? ==> basis.Some?
    {
      var _ :- Drain(patience);
      var _ :- driver.Apply(plan.profile, plan.profile);
      o := AdoptOrReturn(patience);
    }

    /** Adopts a qualified candidate, unless it was only tried; otherwise goes back to the original. */
    method AdoptOrReturn(patience: nat) returns (o: Outcome<Result>)
      requires Steady(driver, hold) && driver.f.planFile == Written(plan.profile) && Underway(plan, r, hold.f, basis)
      modifies driver, driver.daemon, hold, hold.plane, driver.probe, this
      ensures Steady(driver, hold) && r.intent.Some?
      ensures ReceiptsHold(plan, r, driver.f, hold.f, basis)
      ensures basis.Some? ==> basis.value.Qualified?
      ensures r.result.Some? ==> basis.Some?
      ensures o.Done? ==> r.result == Some(o.value) && (o.value.Completed? || o.value.Restored?)
      ensures o.Done? ==> (o.value.Completed? <==> !plan.trial && PassedProof(r, CandidateVersion))
    {
      var qualified :- Qualify(CandidateVersion, patience);
      if qualified && !plan.trial {
        o := Finish(CandidateVersion, patience);
        return;
      }
      if plan.trial {
        var _ :- RunTrial(qualified, patience);
      }
      assert qualified <==> PassedProof(r, CandidateVersion);
      o := BackToOriginal(patience);
    }

    /** Holds the worker, waits for its work to end, and measures the original's capacity. */
    method Drain(patience: nat) returns (o: Outcome<()>)
      requires Steady(driver, hold) && Underway(plan, r, hold.f, basis) && NothingJudged(r)
      modifies driver.daemon, hold, hold.plane, driver.probe, this`r
      ensures Steady(driver, hold) && Underway(plan, r, hold.f, basis)
      ensures o.Done? ==> r.baseline.Some? && r.baseline.value.Observed?
      ensures o.Done? ==> TwoIdleSamples(driver.probe.samples) && |driver.probe.samples| >= |old(driver.probe.samples)| + 2
      ensures o.Done? ==> Held(hold.f, hold.plane.s.worker, true)
    {
      var _ :- hold.Acquire();
      var _ :- WaitIdle(patience);
      var _ :- CheckRecord();
      o := MeasureBaseline();
    }

    method MeasureBaseline() returns (o: Outcome<()>)
      requires Underway(plan, r, hold.f, basis) && NothingJudged(r)
      modifies this`r
      ensures Underway(plan, r, hold.f, basis)
      ensures o.Done? ==> r.baseline.Some? && r.baseline.value.Observed?
    {
      if r.baseline.None? {
        var capacity :- ObserveCache();
        var file, saved := Publish(r.baseline, capacity);
        r := r.(baseline := file);
        var _ :- saved;
      }
      if r.baseline.None? || r.baseline.value.Unobserved? {
        var _ :- SaveNote();
        return Raised(Refused);
      }
      o := Done(());
    }

    /** Measures the qualified candidate; an unqualified one is not measured at all. */
    method RunTrial(qualified: bool, patience: nat) returns (o: Outcome<()>)
      requires Steady(driver, hold) && driver.f.planFile == Written(plan.profile) && Underway(plan, r, hold.f, basis)
      modifies driver.daemon, hold.plane, this`r
      ensures Steady(driver, hold) && Underway(plan, r, hold.f, basis)
      ensures r == old(r).(trialResult := r.trialResult)
      ensures o.Done? ==> r.trialResult == Some(if qualified then Measured else NotQualified)
    {
      var trial := NotQualified;
      if qualified {
        trial :- MeasureCandidate(patience);
      }
      o := SaveTrialResult(trial);
    }

    /** The measurement publishes and releases nothing. */
    method MeasureCandidate(patience: nat) returns (o: Outcome<TrialResult>)
      requires Steady(driver, hold) && driver.f.planFile == Written(plan.profile)
      modifies driver.daemon, hold.plane
      ensures Steady(driver, hold)
      ensures o.Done? ==> o.value.Measured?
    {
      var current :- Current(CandidateVersion, patience);
      var _ :- SaveNote();
      o := Done(Measured);
    }

    method SaveTrialResult(trial: TrialResult) returns (o: Outcome<()>)
      modifies this`r
      ensures r == old(r).(trialResult := r.trialResult)
      ensures o.Done? ==> r.trialResult == Some(trial)
    {
      var file, saved := Publish(r.trialResult, trial);
      r := r.(trialResult := file);
      o := saved;
    }

    /** Restores the retained original, qualifies it, and hands it back. */
    method BackToOriginal(patience: nat) returns (o: Outcome<Result>)
      requires Steady(driver, hold) && driver.f.planFile == Written(plan.profile) && Underway(plan, r, hold.f, basis)
      requires GoesBack(plan, r)
      modifies driver, driver.daemon, hold, hold.plane, driver.probe, this
      ensures Steady(driver, hold) && r.intent.Some?
      ensures ReceiptsHold(plan, r, driver.f, hold.f, basis)
      ensures basis.Some? ==> basis.value.Qualified?
      ensures o.Done? ==> r.result == Some(o.value) && o.value.Restored?
      ensures r.candidateProof == old(r).candidateProof
      ensures r.result.Some? ==> basis.Some?
    {
      var qualified :- BringBack(patience);
      if !qualified {
        return Raised(Refused);
      }
      o := Finish(PreviousVersion, patience);
    }

    /** Restores the original and qualifies it. */
    method BringBack(patience: nat) returns (o: Outcome<bool>)
      requires Steady(driver, hold) && driver.f.planFile == Written(plan.profile) && Underway(plan, r, hold.f, basis)
      modifies driver, driver.daemon, hold.plane, driver.probe, this`r
      ensures Steady(driver, hold) && Underway(plan, r, hold.f, basis)
      ensures driver.f.planFile == Written(plan.profile) && OnlyVerdicts(old(r), r, PreviousVersion)
      ensures o == Done(true) ==> PassedProof(r, PreviousVersion)
    {
      var _ :- CheckRecord();
      var _ :- driver.Restore(plan.profile);
      o := Qualify(PreviousVersion, patience);
    }

    /** One attempt per operation. Whatever happens, the result claims no more than the receipts show,
        and the hold is released only on an established basis. */
    method Run(supported: set<Check>, patience: nat) returns (o: Outcome<Result>)
      requires Steady(driver, hold) && ReceiptsHold(plan, r, driver.f, hold.f, basis)
      requires ValidPolicy(plan.maxLossPercent)
      requires r.intent.None? ==> driver.f == EMPTY && hold.f.releaseIntent.None?
      modifies driver, driver.daemon, hold, hold.plane, driver.probe, this
      ensures Steady(driver, hold)
      ensures ReceiptsHold(plan, r, driver.f, hold.f, basis)
      ensures r.intent.None? ==> driver.f == EMPTY && hold.f.releaseIntent.None?
      ensures old(r.intent).Some? ==>
        && r == old(r) && basis == old(basis) && driver.f == old(driver.f) && driver.daemon.e == old(driver.daemon.e)
        && hold.f == old(hold.f) && hold.plane.s == old(hold.plane.s)
      ensures o.Done? ==> Truthful(plan, r, driver.f, hold.f.releaseResult.Some?, o.value)
      ensures o.Done? && old(r.intent).None? ==> r.result == Some(o.value)
      ensures o.Done? && (o.value.Completed? || o.value.Restored?) ==>
        (o.value.Completed? <==> !plan.trial && PassedProof(r, CandidateVersion))
      ensures !(forall c <- plan.required :: c in supported || c in RUNTIME_CHECKS) ==>
        r == old(r) && driver.daemon.e == old(driver.daemon.e) && hold.plane.s == old(hold.plane.s)
      ensures old(hold.f).releaseIntent.Some? ==> basis == old(basis)
    {
      if r.result.Some? {
        return Done(r.result.value);
      }
      if r.intent.Some? {
        return Done(NeedsReconciliation);
      }
      var _ :- CheckRecord();
      MissingNone(plan.required, supported);
      if plan.required - (supported + RUNTIME_CHECKS) != {} {
        return Raised(Refused);
      }
      var _ :- SaveNote();   // the publisher's preflight
      var file, saved := Publish(r.intent, ());
      r := r.(intent := file);
      var _ :- saved;
      var attempt := Attempt(patience);
      if !attempt.Raised? {
        return attempt;
      }
      ghost var why;
      o, why := ConcludeFailure(patience);
    }

    /** However often an operation is run again, and wherever each run fails or dies: nothing was ever
        sent twice, and a hold that was released was released for a reason. */
    method AnyRun(supported: set<Check>, patience: nat)
      requires Steady(driver, hold) && ReceiptsHold(plan, r, driver.f, hold.f, basis)
      requires ValidPolicy(plan.maxLossPercent)
      requires r.intent.None? ==> driver.f == EMPTY && hold.f.releaseIntent.None?
      modifies driver, driver.daemon, hold, hold.plane, driver.probe, this
      ensures Steady(driver, hold) && ReceiptsHold(plan, r, driver.f, hold.f, basis)
      ensures ReleaseJustified(plan, r, driver.f, basis, hold.plane.s.issued)
      ensures r.result.Some? ==> Truthful(plan, r, driver.f, hold.f.releaseResult.Some?, r.result.value)
      ensures old(hold.f).releaseIntent.Some? ==> basis == old(basis)
    {
      var runs: nat :| 0 <= runs;
      for _ := 0 to runs
        invariant Steady(driver, hold) && ReceiptsHold(plan, r, driver.f, hold.f, basis)
        invariant r.intent.None? ==> driver.f == EMPTY && hold.f.releaseIntent.None?
        invariant old(hold.f).releaseIntent.Some? ==> r.intent.Some? && basis == old(basis)
      {
        var _ := Run(supported, patience);
      }
      ReleasedOnceOnABasis(plan, r, driver.f, hold.f, basis, hold.op, hold.baseline, hold.plane.s);
    }

    /** The exception path: hand back an untouched server, or keep the hold and say so. */
    method ConcludeFailure(patience: nat) returns (o: Outcome<Result>, ghost why: Obstacle)
      requires Steady(driver, hold) && ReceiptsHold(plan, r, driver.f, hold.f, basis)
      requires r.intent.Some? && (r.result.Some? ==> basis.Some?) && (basis.Some? ==> basis.value.Qualified?)
      modifies driver.daemon, hold, hold.plane, driver.probe, this
      ensures Steady(driver, hold) && r.intent.Some?
      ensures ReceiptsHold(plan, r, driver.f, hold.f, basis)
      ensures o.Done? ==> r.result == Some(o.value)
      ensures o.Done? ==> Truthful(plan, r, driver.f, hold.f.releaseResult.Some?, o.value)
      ensures o == Done(NeedsReconciliation) ==> why.CallFailed? || Stands(why, plan.profile, driver.f, hold.f)
      ensures old(hold.f).releaseIntent.Some? ==> basis == old(basis)
    {
      var back;
      back, why := UnchangedReturn(patience);
      if back.Died? {
        o := Died;
        return;
      }
      if back.Raised? {
        why := CallFailed;
      }
      o := SaveResult(if back.Done? && back.value.Some? then back.value.value else NeedsReconciliation);
    }
  }

  /** The driver and the hold it leases from keep what they keep. */
  ghost predicate Steady(driver: Driver, hold: Hold)
    reads driver, driver.daemon, hold, hold.plane
  {
    && driver.hold == hold && driver.op == hold.op
    && Orderly(driver.op, driver.job, driver.f, driver.acts, driver.daemon.e)
    && Lawful(hold.op, hold.f, hold.baseline, hold.plane.s)
  }

  /** The version runs under the planned name; since it was seen it can only have stopped. */
  ghost predicate ServesAs(which: Which, seen: Seen, profile: Plan, f: Folder, e: Engine) {
    && seen.container.running && seen.container.name == profile.name
    && seen.id == IdOf(which, profile, e)
    && seen.id in e.containers && Evolved(seen.id, seen.container, e.containers[seen.id], None)
    && StopPrevious in f.intents && f.recovery == which.PreviousVersion?
  }

  function IdOf(which: Which, profile: Plan, e: Engine): Id {
    if which.CandidateVersion? then Candidate(e) else profile.before.id
  }

  /** What a reported state says about the containers. */
  ghost predicate Establishes(seen: Observation, profile: Plan, f: Folder, e: Engine) {
    match seen.state
    case StartedUnverified => seen.candidate.Some? && ServesAs(CandidateVersion, seen.candidate.value, profile, f, e)
    case RestoredUnverified => seen.previous.Some? && ServesAs(PreviousVersion, seen.previous.value, profile, f, e)
    case CandidateStoppedUnverified => HasStopped(CandidateVersion, profile, f, e)
    case RestorationStoppedUnverified => HasStopped(PreviousVersion, profile, f, e)
    case RequiresReconciliation => true
  }

  lemma ObservationEstablishes(job: Job, f: Folder, e: Engine, profile: Plan, seen: Observation)
    requires Consistent(job, f, e) && f.planFile == Written(profile)
    requires |f.intents| <= 1 ==> seen.state == RequiresReconciliation
    requires |f.intents| > 1 ==>
      && seen.previous.Some? && seen.previous.value.id == e.original
      && seen.candidate == Some(Seen(Candidate(e), e.containers[Candidate(e)]))
      && seen.state == Expected(job, f, seen.previous.value.container.running, seen.candidate.value.container.running)
      && (|f.results| == |f.intents| ==>
            Evolved(e.original, seen.previous.value.container, e.containers[e.original], None))
    ensures Establishes(seen, profile, f, e)
  {
    StopIsSecond(job, f);
    AcknowledgedSteps(job.withStop, f.results);
  }

  /** The version was started, and does not run any more. */
  ghost predicate HasStopped(which: Which, profile: Plan, f: Folder, e: Engine) {
    && IdOf(which, profile, e) in e.containers && !e.containers[IdOf(which, profile, e)].running
    && f.recovery == which.PreviousVersion?
    && (if which.CandidateVersion? then StartCandidate in f.results else StartPrevious in f.results)
  }

  ghost predicate StartedAt(which: Which, profile: Plan, e: Engine, startedAt: nat) {
    IdOf(which, profile, e) in e.containers && e.containers[IdOf(which, profile, e)].startedAt == startedAt
  }

  /** The version has this identity and recipe, was started at this moment, and has the planned name. */
  ghost predicate Startup(which: Which, profile: Plan, e: Engine, signature: Signature, startedAt: nat) {
    && StartedAt(which, profile, e, startedAt)
    && var id := IdOf(which, profile, e);
       Signature(id, e.containers[id].recipe) == signature && e.containers[id].name == profile.name
  }

  function WithReport(r: Receipts, which: Which, report: Option<Report>): Receipts {
    if which.CandidateVersion? then r.(candidateReport := report) else r.(previousReport := report)
  }

  function WithProof(r: Receipts, which: Which, proof: Option<Proof>): Receipts {
    if which.CandidateVersion? then r.(candidateProof := proof) else r.(previousProof := proof)
  }

  /** Qualifying a version writes its report and its verdict, and nothing else. */
  predicate OnlyVerdicts(a: Receipts, b: Receipts, which: Which) {
    b == WithProof(WithReport(a, which, ReportOf(b, which)), which, ProofOf(b, which))
  }
}
