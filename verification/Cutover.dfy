/** The container cutover as data: the fixed script, the operation folder, and the invariant that ties
    the receipts to the requests that were sent and to the containers that resulted. */
module Cutover {
  import opened Effects
  import opened Docker

  datatype Plan = Plan(before: Signature, startedAt: nat, name: string, create: Recipe)

  datatype Step =
    | CreateCandidate | StopPrevious | RetainPrevious | ActivateName | StartCandidate
    | StopCandidate | RetainCandidate | RestoreName | StartPrevious

  /** One operation; `withStop` is whether its return to the original has to stop the candidate. */
  datatype Job = Job(plan: Plan, op: string, withStop: bool)

  /** The receipts of one operation. Step receipts are listed in the order of their creation. */
  datatype Folder = Folder(
    exists_: bool, planFile: File<Plan>, binding: File<Plan>,
    intents: seq<Step>, results: seq<Step>,
    createResult: File<Id>, candidateCreated: File<Signature>, recovery: bool)

  const EMPTY: Folder := Folder(false, Absent, Absent, [], [], Absent, Absent, false)

  /** The whole cutover and return, in the only order in which the driver performs it. */
  function Script(withStop: bool): (s: seq<Step>)
    ensures |s| == if withStop then 9 else 8
  {
    if withStop then
      [CreateCandidate, StopPrevious, RetainPrevious, ActivateName, StartCandidate,
       StopCandidate, RetainCandidate, RestoreName, StartPrevious]
    else
      [CreateCandidate, StopPrevious, RetainPrevious, ActivateName, StartCandidate,
       RetainCandidate, RestoreName, StartPrevious]
  }

  function ProfileName(op: string): string {
    "stargate-profile-" + op
  }

  function RetainedName(op: string): string {
    "stargate-retained-" + op
  }

  lemma NamesDiffer(op: string)
    ensures ProfileName(op) != RetainedName(op)
  {
    assert ProfileName(op)[9] == 'p' && RetainedName(op)[9] == 'r';
  }

  function MutationOf(step: Step, job: Job, candidate: Id): Mutation {
    match step
    case CreateCandidate => Create(ProfileName(job.op), job.plan.create)
    case StopPrevious => Stop(job.plan.before.id)
    case RetainPrevious => Rename(job.plan.before.id, RetainedName(job.op))
    case ActivateName => Rename(candidate, job.plan.name)
    case StartCandidate => Start(candidate)
    case StopCandidate => Stop(candidate)
    case RetainCandidate => Rename(candidate, ProfileName(job.op))
    case RestoreName => Rename(job.plan.before.id, job.plan.name)
    case StartPrevious => Start(job.plan.before.id)
  }

  function Candidate(e: Engine): Id {
    if |e.created| > 0 then e.created[0] else 0
  }

  /** The number of performed mutations after which the candidate has its own name again. */
  function RetainAt(job: Job): nat {
    if job.withStop then 7 else 6
  }

  /** The names that the driver's own renames give, after `n` mutations. */
  function OldName(job: Job, n: nat): string {
    if 3 <= n <= RetainAt(job) then RetainedName(job.op) else job.plan.name
  }

  function CandidateName(job: Job, n: nat): string {
    if 4 <= n < RetainAt(job) then job.plan.name else ProfileName(job.op)
  }

  /** Intents are an initial segment of the script; results are that segment or it minus its last step. */
  ghost predicate ReceiptsFollowScript(job: Job, f: Folder) {
    var s := Script(job.withStop);
    && |f.intents| <= |s| && f.intents == s[..|f.intents|]
    && |f.intents| <= |f.results| + 1 && |f.results| <= |f.intents| && f.results == s[..|f.results|]
    && (|f.intents| > 0 ==> f.planFile.Written?)
    && (!f.planFile.Absent? ==> f.exists_)
    && (f.planFile.Written? ==> f.planFile.value == job.plan)
    && (f.recovery ==> |f.results| >= 5)
    && (|f.intents| > 5 ==> f.recovery)
    && (f.createResult.Absent? <==> |f.results| == 0)
    && (!f.candidateCreated.Absent? ==> f.createResult.Written?)
    && (|f.intents| >= 2 ==> f.candidateCreated.Written?)
  }

  /** Requests follow intents: none is sent without one, none is sent twice, and while one is
      outstanding nothing else is sent. */
  ghost predicate RequestsFollowIntents(job: Job, f: Folder, e: Engine) {
    var n := |e.performed|;
    && |e.issued| <= |f.intents| <= |e.issued| + 1
    && |f.results| <= n <= |e.issued| <= n + 1
    && e.performed == e.issued[..n]
    && |e.issued| <= |Script(job.withStop)|
    && (forall i :: 0 <= i < |e.issued| ==>
          e.issued[i] == MutationOf(Script(job.withStop)[i], job, Candidate(e)))
    && (e.pending.Some? ==> |e.issued| == n + 1 && e.pending.value == e.issued[n])
    && |e.created| == (if n > 0 then 1 else 0)
  }

  /** Name, recipe, start time and running flag of the original are what the performed requests make
      them. A started container runs unless it has exited by itself since. */
  ghost predicate OriginalFollows(job: Job, f: Folder, e: Engine)
    requires EngineSound(e)
  {
    var n, original := |e.performed|, e.containers[e.original];
    && (|f.intents| > 0 ==>
          && job.plan.before.id == e.original
          && job.plan.name != ProfileName(job.op) && job.plan.name != RetainedName(job.op)
          && original.name == OldName(job, n))
    && (|f.intents| > 1 ==>
          && original.recipe == job.plan.before.recipe
          && (n < |Script(job.withStop)| ==> original.startedAt == job.plan.startedAt))
    && (original.running && n >= 2 ==> n == |Script(job.withStop)|)
    && (n == |Script(job.withStop)| ==> original.running || e.original in e.exited)
  }

  ghost predicate CandidateFollows(job: Job, f: Folder, e: Engine) {
    && Candidate(e) in e.containers
    && var n, candidate := |e.performed|, e.containers[Candidate(e)];
    && candidate.name == CandidateName(job, n)
    && (candidate.running ==> n >= 5 && (f.recovery ==> job.withStop && n < 6))
    && (n >= 5 && (n >= 6 ==> !job.withStop) ==> candidate.running || Candidate(e) in e.exited)
    && (f.createResult.Written? ==> f.createResult.value == Candidate(e))
    && (f.candidateCreated.Written? ==>
          && f.candidateCreated.value == Signature(Candidate(e), job.plan.create)
          && candidate.recipe == job.plan.create)
  }

  ghost predicate ContainersFollowRequests(job: Job, f: Folder, e: Engine)
    requires EngineSound(e)
  {
    && OriginalFollows(job, f, e)
    && (if |e.performed| > 0 then CandidateFollows(job, f, e) else !f.createResult.Written?)
  }

  ghost predicate Consistent(job: Job, f: Folder, e: Engine) {
    && EngineSound(e) && ReceiptsFollowScript(job, f) && RequestsFollowIntents(job, f, e)
    && ContainersFollowRequests(job, f, e)
  }

  // ---------------------------------------------------------------------------------------------
  // What every reachable state of the protocol keeps.

  /** Previous and candidate are never both running. */
  lemma NeverBothRunning(job: Job, f: Folder, e: Engine)
    requires Consistent(job, f, e) && |e.created| > 0
    ensures !(e.containers[e.original].running && e.containers[Candidate(e)].running)
  {
  }

  /** No mutation is ever sent twice. */
  lemma NoMutationTwice(job: Job, f: Folder, e: Engine, i: nat, j: nat)
    requires Consistent(job, f, e) && i < j < |e.issued|
    ensures e.issued[i] != e.issued[j]
  {
    NamesDiffer(job.op);
    assert e.issued[i] == MutationOf(Script(job.withStop)[i], job, Candidate(e));
    assert e.issued[j] == MutationOf(Script(job.withStop)[j], job, Candidate(e));
  }

  /** The names of the two containers never collide. */
  lemma NamesNeverCollide(job: Job, f: Folder, e: Engine)
    requires Consistent(job, f, e) && |e.created| > 0
    ensures e.containers[e.original].name != e.containers[Candidate(e)].name
  {
    NamesDiffer(job.op);
  }

  /** Everything acknowledged, the cutover and its return cancel out: the original has its name and
      its recipe again and runs, unless it has exited by itself since it was started, and what is left
      over is one stopped candidate under the operation's name. */
  lemma RoundTrip(job: Job, f: Folder, e: Engine)
    requires Consistent(job, f, e) && |f.results| == |Script(job.withStop)|
    ensures e.containers[e.original].name == job.plan.name
    ensures Signature(e.original, e.containers[e.original].recipe) == job.plan.before
    ensures e.containers[e.original].running || e.original in e.exited
    ensures |e.created| == 1 && e.pending.None?
    ensures var candidate := e.containers[Candidate(e)];
            candidate.name == ProfileName(job.op) && !candidate.running && candidate.recipe == job.plan.create
    ensures |e.performed| > 0 && e.performed[|e.performed| - 1] == Start(e.original)
  {
    var n := |e.issued|;
    assert e.issued[n - 1] == MutationOf(StartPrevious, job, Candidate(e));
  }

  /** The moment at which the start of the original is performed: it runs, under its own name and as the
      plan recorded it, and the candidate does not. */
  lemma OriginalRuns(job: Job, f: Folder, a: Engine, b: Engine)
    requires Consistent(job, f, a) && |a.issued| == |Script(job.withStop)| == |a.performed| + 1
    requires EngineSound(b) && b.issued == a.issued && Took(a, b, a.issued[|a.performed|])
    requires a.original !in b.exited
    ensures a.issued[|a.performed|] == Start(a.original)
    ensures b.containers[b.original].running && b.containers[b.original].name == job.plan.name
    ensures Signature(b.original, b.containers[b.original].recipe) == job.plan.before
    ensures !b.containers[Candidate(b)].running
  {
    PerformKeeps(job, f, a, b);
    assert a.issued[|a.performed|] == MutationOf(StartPrevious, job, Candidate(a));
  }

  lemma StopIsSecond(job: Job, f: Folder)
    requires ReceiptsFollowScript(job, f)
    ensures |f.intents| >= 2 ==> StopPrevious in f.intents
  {
    assert |f.intents| >= 2 ==> f.intents[1] == StopPrevious;
  }

  /** While no stop of the original was intended, it was neither stopped nor renamed nor started. */
  lemma UntouchedBeforeStopIntent(job: Job, f: Folder, e: Engine)
    requires Consistent(job, f, e) && StopPrevious !in f.intents
    ensures forall m <- e.issued :: m.Create?
  {
    StopIsSecond(job, f);
    forall m <- e.issued ensures m.Create? {
      var i :| 0 <= i < |e.issued| && e.issued[i] == m;
      assert e.issued[i] == MutationOf(Script(job.withStop)[i], job, Candidate(e));
    }
  }

  // ---------------------------------------------------------------------------------------------
  // Preservation, transition by transition.

  lemma PerformKeepsRequests(job: Job, f: Folder, a: Engine, b: Engine)
    requires RequestsFollowIntents(job, f, a) && |a.issued| == |a.performed| + 1
    requires b.issued == a.issued && Took(a, b, a.issued[|a.performed|])
    ensures RequestsFollowIntents(job, f, b)
  {
    var n := |a.performed|;
    assert a.issued[n] == MutationOf(Script(job.withStop)[n], job, Candidate(a));
    assert a.issued[n].Create? <==> n == 0;
    assert a.issued[..n + 1] == a.issued[..n] + [a.issued[n]];
  }

  lemma PerformKeepsOriginal(job: Job, f: Folder, a: Engine, b: Engine)
    requires Consistent(job, f, a) && EngineSound(b) && |a.issued| == |a.performed| + 1
    requires b.original == a.original && |b.created| > 0
    requires Took(a, b, MutationOf(Script(job.withStop)[|a.performed|], job, Candidate(a)))
    ensures OriginalFollows(job, f, b)
  {
    assert b.containers[b.original].recipe == a.containers[a.original].recipe;
    if |a.performed| > 0 {
      assert b.created[0] == a.created[0] != b.original;
    }
  }

  lemma PerformKeepsCandidate(job: Job, f: Folder, a: Engine, b: Engine)
    requires Consistent(job, f, a) && EngineSound(b) && |a.issued| == |a.performed| + 1
    requires b.original == a.original && |b.created| > 0
    requires Took(a, b, MutationOf(Script(job.withStop)[|a.performed|], job, Candidate(a)))
    ensures CandidateFollows(job, f, b)
  {
    if |a.performed| > 0 {
      assert b.created[0] == a.created[0] != b.original;
      assert OwnedEvolved(a.created[0], a, b, Some(MutationOf(Script(job.withStop)[|a.performed|], job, Candidate(a))));
    } else {
      assert b.created[0] != b.original;
    }
  }

  lemma PerformKeeps(job: Job, f: Folder, a: Engine, b: Engine)
    requires Consistent(job, f, a) && EngineSound(b) && |a.issued| == |a.performed| + 1
    requires b.original == a.original && b.issued == a.issued
    requires Took(a, b, a.issued[|a.performed|])
    ensures Consistent(job, f, b)
  {
    PerformKeepsRequests(job, f, a, b);
    PerformKeepsOriginal(job, f, a, b);
    PerformKeepsCandidate(job, f, a, b);
  }

  lemma DriftKeeps(job: Job, f: Folder, a: Engine, b: Engine)
    requires Consistent(job, f, a) && EngineSound(b) && EngineDrifted(a, b)
    ensures Consistent(job, f, b)
  {
    if a.pending.Some? && Took(a, b, a.pending.value) {
      PerformKeeps(job, f, a, b);
    }
  }

  /** A request may be sent only when all earlier steps are acknowledged and its intent is saved. */
  lemma IssueKeeps(job: Job, f: Folder, a: Engine, m: Mutation)
    requires Consistent(job, f, a)
    requires |f.intents| == |f.results| + 1 && |a.issued| == |f.results|
    requires m == MutationOf(Script(job.withStop)[|a.issued|], job, Candidate(a))
    ensures Consistent(job, f, a.(issued := a.issued + [m]))
  {
    var c := a.(issued := a.issued + [m]);
    IssueKeepsRequests(job, f, a, m);
    assert OriginalFollows(job, f, c) && (|c.performed| > 0 ==> CandidateFollows(job, f, c));
  }

  lemma IssueKeepsRequests(job: Job, f: Folder, a: Engine, m: Mutation)
    requires RequestsFollowIntents(job, f, a) && ReceiptsFollowScript(job, f)
    requires |f.intents| == |f.results| + 1 && |a.issued| == |f.results|
    requires m == MutationOf(Script(job.withStop)[|a.issued|], job, Candidate(a))
    ensures RequestsFollowIntents(job, f, a.(issued := a.issued + [m]))
  {
    var c := a.(issued := a.issued + [m]);
    assert c.performed == c.issued[..|a.performed|];
  }

  lemma SendKeeps(job: Job, f: Folder, a: Engine, b: Engine, m: Mutation)
    requires Consistent(job, f, a) && EngineSound(b)
    requires |f.intents| == |f.results| + 1 && |a.issued| == |f.results|
    requires m == MutationOf(Script(job.withStop)[|a.issued|], job, Candidate(a))
    requires Sending(a, b, m)
    ensures Consistent(job, f, b)
  {
    IssueKeeps(job, f, a, m);
    var c := a.(issued := a.issued + [m]);
    if Took(a, b, m) {
      assert Took(c, b, m);
      PerformKeeps(job, f, c, b);
    } else {
      UndisturbedKeeps(job, f, c, b);
    }
  }

  lemma UndisturbedKeeps(job: Job, f: Folder, a: Engine, b: Engine)
    requires Consistent(job, f, a) && EngineSound(b) && Undisturbed(a, b)
    requires b.pending in {a.pending, None} || (|a.issued| == |a.performed| + 1 && b.pending == Some(a.issued[|a.performed|]))
    ensures Consistent(job, f, b)
  {
  }

  /** What must have been established before a step's intent is saved. */
  ghost predicate MayIntend(job: Job, f: Folder, e: Engine)
    requires EngineSound(e)
  {
    && |f.intents| == |f.results| < |Script(job.withStop)|
    && f.planFile == Written(job.plan) && f.exists_
    && (|f.intents| >= 5 ==> f.recovery)
    && (|f.intents| == 0 ==>
          && job.plan.before.id == e.original
          && job.plan.name != ProfileName(job.op) && job.plan.name != RetainedName(job.op)
          && e.containers[e.original].name == job.plan.name)
    && (|f.intents| == 1 ==>
          && f.candidateCreated.Written?
          && e.containers[e.original].recipe == job.plan.before.recipe
          && e.containers[e.original].startedAt == job.plan.startedAt)
  }

  lemma IntentKeeps(job: Job, f: Folder, e: Engine)
    requires Consistent(job, f, e) && MayIntend(job, f, e)
    ensures Consistent(job, f.(intents := f.intents + [Script(job.withStop)[|f.intents|]]), e)
  {
    var s := Script(job.withStop);
    var k := |f.intents|;
    assert s[..k + 1] == s[..k] + [s[k]];
  }

  /** A result is recorded only for a request that was performed. */
  lemma ResultKeeps(job: Job, f: Folder, e: Engine, created: File<Id>)
    requires Consistent(job, f, e)
    requires |f.intents| == |f.results| + 1 && |e.performed| == |f.intents|
    requires created == if |f.results| == 0 then created else f.createResult
    requires |f.results| == 0 ==> created in {Torn, Written(Candidate(e))}
    ensures Consistent(job, f.(results := f.results + [Script(job.withStop)[|f.results|]], createResult := created), e)
  {
    var s := Script(job.withStop);
    var r := |f.results|;
    assert s[..r + 1] == s[..r] + [s[r]];
  }

  /** Until the return begins, whether it will have to stop the candidate is still open. */
  lemma ChooseReturn(job: Job, f: Folder, e: Engine, withStop: bool)
    requires Consistent(job, f, e) && !f.recovery && |f.results| == 5
    requires !withStop ==> !e.containers[Candidate(e)].running
    ensures Consistent(job.(withStop := withStop), f.(recovery := true), e)
  {
    assert Script(job.withStop)[..5] == Script(withStop)[..5];
    forall i | 0 <= i < |e.issued|
      ensures e.issued[i] == MutationOf(Script(withStop)[i], job.(withStop := withStop), Candidate(e))
    {
      assert e.issued[i] == MutationOf(Script(job.withStop)[i], job, Candidate(e));
    }
  }
}
