# Stargate: serving changes, measurements, recovery and their displays

A Dafny model of the parts of the gateway whose point is what stays true when a process dies between
any two lines, when an external call may have happened without being acknowledged, or when an input is
anything at all. `dafny verify dfyconfig.toml` checks the whole project.

## What is modelled

**The serving change.** One worker's container is replaced by another one under a gateway hold.
`Gateway` is the gateway as its clients can know it: holds looked up by request id, operator actions
with ids of their own at any moment, and a resume that is a compare-and-set. `Maintenance` takes,
proves, releases and gives back one hold. `Docker` is the container daemon, `Cutover` the fixed list of
mutations with the invariant that ties receipts, requests and containers together, `RetainedProfile`
the driver that applies, observes and restores. `ServingOperation` drains, measures the capacity,
applies, qualifies, publishes, releases and resumes, restores on failure, and hands an untouched server
back when something fails early. `CachePolicy` is the capacity allowance. `Runner` is the single-attempt
claim with its kernel lock and the owner-approved return.

Every external call and every durable write returns one of three things (`Effects`): confirmed, an
exception, or the end of the process. A method's postconditions hold at all its exits, so an invariant
in an `ensures` holds at every point at which the process may die. Requests may take effect later than
the call that sent them. Receipts are written once; files linked into place are complete, files written
in place may be left without content.

**Measurements.** `Hourglass` is the native benchmark: run, re-entered, reconciled, or run as a trial
inside a serving window. Any number of processes share the folder and the native controller. A process
moves only as `May` permits; between any two of its steps the others may make any number of permitted
moves. `Participant` is the code of one process, proved to make no other moves; `OneMeasurement` is about
all interleavings of permitted moves.

**Recovery.** `Recovery` is the write-ahead journal of the four adapters, with the differences between
them: what identifies an attempt, what is checked again after the durable intent, the capacity limit,
and oMLX's two commands per restart. Requests are serialised by a file lock; each may die anywhere.

**Records.** `Records` is the compare-and-set publication of approved records in a version-controlled
library. The owner may edit, stage and commit the record between any two publications and before each
look at, or change of, it that a publication makes. Every published version is tied to the publication
it came from and to what the owner did meanwhile. A digest is any injective function.

**Functions with exact specifications.** `Qwen3Arguments` (the argument converter and the two regular
expressions it uses), `Qwen3Grammar` (the transition table and the backward scan), `JsonPointer`
(RFC 6901), `Activity` (the interval history and its relabelling), `Rates` and `Chart` (trailing means,
scales and chart layout, over the reals).

## How to read it

The state of an object is one immutable value; the invariants are predicates on such values, and the
lemmas that say what each transition keeps are about values too. Classes carry the values and their
methods follow the original's statements. Polling loops take a parameter `patience`, the number of polls
before the process is stopped from outside; a publication takes the owner's acts before each of its steps
and the number of steps its process lives to make. Members named `AnyRun` put everything together: any number of
invocations, in any order, each failing or dying anywhere.

Where the code does less than a reader might expect, the model follows the code:

- The retained predecessor of a published record is copied from the file, not from the bytes that were
  compared, and the commit takes the file as it is. The last look and the final comparison do not see an
  edit that is undone in time, a version the owner commits between them, or an edit that is committed and
  followed by a commit of the right version (`Records.EditUndonePasses`, `Records.CommittedBetweenPasses`,
  `Records.EditCommittedPasses`). `Records.LinkedIffIntact` says exactly when a published version is linked
  to the one before it.
- A measured prefill interval is compared before it is clamped. If it begins in the future, the history
  keeps a row that ends before it begins; `Activity.OrderedIffNotFuture` says exactly when it does not.
- The end of reasoning is reported again for every tool call that is opened in content
  (`Qwen3Grammar.ReasoningEndCount`, with the condition for at most once in
  `Qwen3Grammar.ReasoningEndAtMostOnce`).
- A start receipt of the systemd adapter also records the instance of the stopped unit, so a restart is
  refused for an instance that only a start receipt names; the check is modelled as it is.

## Model

| member | source | states |
|---|---|---|
| `Effects.Publish` | ds4-gateway/operation_runner.py:46-68 | a receipt published by link is complete and never replaced; the caller may fail or die before or after the publication |
| `Effects.Write` | ds4-gateway/docker_profile.py:173-184 | a receipt created in place is never overwritten; a crash can leave it without content |
| `Gateway.SameActionMeansNobodyActed` | ds4-gateway/operation_maintenance.py:74-75 | if the last operator action is the same at two moments of one history, then neither the operator nor a readmission acted between them |
| `Gateway.ChangedIffActed` | ds4-gateway/operation_maintenance.py:74-75 | the last operator action differs from the baseline's exactly when somebody has acted since |
| `Gateway.Plane.Snapshot` | ds4-gateway/operation_maintenance.py:55-72 | one read-only observation of the worker; meanwhile the gateway may have changed only as its own rules allow |
| `Gateway.Plane.Lookup` | ds4-gateway/operation_maintenance.py:87-87 | looking a receipt up sends nothing and returns only the receipt recorded for that request |
| `Gateway.Plane.Post` | ds4-gateway/operation_maintenance.py:85-85 | a request is issued once, may take effect without being acknowledged or later, and a resume takes effect only as compare-and-set on the expected ids |
| `Maintenance.Hold.constructor` | ds4-gateway/operation_maintenance.py:42-53 | a new operation has no receipts and has sent nothing |
| `Maintenance.Hold.Submit` | ds4-gateway/operation_maintenance.py:83-85 | the durable intent precedes the only submission of a request |
| `Maintenance.Hold.Acknowledge` | ds4-gateway/operation_maintenance.py:88-92 | only a reply that names this request, action and lock becomes a receipt |
| `Maintenance.Hold.ReceiptOf` | ds4-gateway/operation_maintenance.py:77-93 | one submission per request; with an intent present, a repeated call sends nothing and only looks the receipt up |
| `Maintenance.Hold.Acquire` | ds4-gateway/operation_maintenance.py:95-112 | keeps the baseline once recorded, and records none under other maintenance; success means the hold is owned exactly as recorded |
| `Maintenance.Hold.Owned` | ds4-gateway/operation_maintenance.py:114-129 | true only when the one lock is this operation's, nobody has acted since the baseline, the pause is as recorded and, if asked, nothing is in progress; refused only when that is not so |
| `Maintenance.Hold.WaitIdle` | ds4-gateway/operation_maintenance.py:131-139 | returns only with the hold still owned and idle after two consecutive idle samples of the native server |
| `Maintenance.Hold.Release` | ds4-gateway/operation_maintenance.py:141-154 | the release is submitted at most once over all repetitions and only with an acquired lock |
| `Maintenance.Hold.ResumeIfUnchanged` | ds4-gateway/operation_maintenance.py:156-184 | the resume is submitted at most once, never again after an uncertain reply, and only when nothing speaks against it; left to the operator for a reason exactly when that reason's own condition holds and no earlier one does |
| `Maintenance.Hold.Judge` | ds4-gateway/operation_maintenance.py:164-172 | each of the four reasons is given exactly when it is the first that applies: paused at the baseline, paused before release, somebody acted since the baseline, other maintenance present; none is given exactly when none applies |
| `Maintenance.Hold.ResumeAsTheOperatorWishes` | ds4-gateway/operation_maintenance.py:156-184 | if the operator acted after the baseline or had paused the worker, nothing is asked for; if nothing speaks against it, nothing is left to the operator |
| `Maintenance.HeldMeansNobodyActed` | ds4-gateway/operation_maintenance.py:122-127 | while the hold is as recorded, nobody has acted since the baseline |
| `Maintenance.Hold.SubmitResume` | ds4-gateway/operation_maintenance.py:174-181 | the only submission of the resume, on the ids recorded before; success means the worker is observed back in routing |
| `Maintenance.OperatorAlwaysWins` | ds4-gateway/operation_maintenance.py:141-184 | at every readmission obtained, the operator had not acted since the baseline, had not paused the worker at the baseline or before release, and the last maintenance action was this operation's release |
| `Maintenance.ReadmittedAtMostOnce` | ds4-gateway/operation_maintenance.py:161-165 | however requests are delayed or calls repeated, readmission happens at most once |
| `Maintenance.AlwaysRespected` | ds4-gateway/operation_maintenance.py:156-184 | both of the above at every moment of every history the invariant allows |
| `Maintenance.Hold.AnyRun` | ds4-gateway/operation_maintenance.py:77-184 | over any sequence of calls, crashes and operator actions: lock, release and resume are each submitted at most once and the operator is respected |
| `Docker.Daemon.Inspect` | ds4-gateway/docker_profile.py:76-77 | one container as it is at one moment; containers may meanwhile exit by themselves or a pending request may take effect |
| `Docker.Daemon.Send` | ds4-gateway/docker_profile.py:82-94 | a mutation is issued once; it is done and confirmed, done without confirmation, done later, or not done |
| `Cutover.NeverBothRunning` | ds4-gateway/docker_profile.py:204-316 | previous and candidate are never both running |
| `Cutover.NoMutationTwice` | ds4-gateway/docker_profile.py:198-202 | no mutation is issued twice in one operation |
| `Cutover.NamesNeverCollide` | ds4-gateway/docker_profile.py:230-233 | original and candidate never have the same name |
| `Cutover.RoundTrip` | ds4-gateway/docker_profile.py:204-316 | a fully acknowledged apply and restore leave the original under its own name with its own signature, running unless it has exited by itself since its start, and one stopped candidate under the operation's name |
| `Cutover.OriginalRuns` | ds4-gateway/docker_profile.py:313-315 | when the start of the original is performed it runs, named and made as the plan recorded it, and the candidate does not run |
| `Cutover.UntouchedBeforeStopIntent` | ds4-gateway/docker_profile.py:235-256 | until the stop of the original is intended, nothing but a creation has been sent |
| `Cutover.PerformKeeps` | ds4-gateway/docker_profile.py:198-202 | an outstanding request that takes effect, now or late, keeps receipts, requests and containers consistent |
| `Cutover.DriftKeeps` | ds4-gateway/docker_profile.py:204-316 | so does everything containers may do by themselves between two steps |
| `Cutover.SendKeeps` | ds4-gateway/docker_profile.py:198-202 | so does sending the next request after its durable intent, in each of its four outcomes |
| `Cutover.IntentKeeps` | ds4-gateway/docker_profile.py:199-199 | so does recording the next intent, when all earlier steps are acknowledged |
| `Cutover.ResultKeeps` | ds4-gateway/docker_profile.py:201-201 | so does recording a result of a request that was performed, even if the file is left without content |
| `Cutover.ChooseReturn` | ds4-gateway/docker_profile.py:310-311 | whether the return has to stop the candidate is still open when it begins |
| `RetainedProfile.ClassifiedAsExpected` | ds4-gateway/docker_profile.py:262-289 | each of the four specific states is reported exactly when the acknowledged steps and the running flags are what it stands for, and every other reachable state yields requires_reconciliation, although the containers are inspected one after the other |
| `RetainedProfile.AcknowledgedSteps` | ds4-gateway/docker_profile.py:270-271 | an acknowledged start implies that every earlier step is acknowledged |
| `RetainedProfile.WindowClears` | ds4-gateway/docker_profile.py:186-196 | a lease check, two idle samples and another lease check make the window that a stop needs |
| `RetainedProfile.Driver.constructor` | ds4-gateway/docker_profile.py:144-149 | a new driver begins without receipts |
| `RetainedProfile.Driver.OwnedIdle` | ds4-gateway/docker_profile.py:186-196 | returns only with the gateway hold owned before and after two idle samples |
| `RetainedProfile.Driver.SaveIntent` | ds4-gateway/docker_profile.py:199-199 | adds the next step's intent or nothing |
| `RetainedProfile.Driver.SendStep` | ds4-gateway/docker_profile.py:200-200 | sends exactly the mutation of the next step; a creation and a stop only in a cleared window |
| `RetainedProfile.Driver.SaveResult` | ds4-gateway/docker_profile.py:201-201 | adds the acknowledged step's result or nothing |
| `RetainedProfile.Driver.Perform` | ds4-gateway/docker_profile.py:198-202 | intent, request, result: after success exactly one more step is intended and acknowledged |
| `RetainedProfile.Driver.Observe` | ds4-gateway/docker_profile.py:262-289 | read-only; once the cutover has begun it reports exactly the state the protocol is in |
| `RetainedProfile.Driver.CheckServing` | ds4-gateway/docker_profile.py:227-233 | proceeds only if the container runs and is exactly the planned one, its name is neither of the operation's names, and the retained name is free; a plan that names no such container is refused here |
| `RetainedProfile.Driver.VerifyCandidate` | ds4-gateway/docker_profile.py:239-247 | the created candidate has the reviewed recipe and name and is not running before its signature is recorded |
| `RetainedProfile.Driver.CreateBeside` | ds4-gateway/docker_profile.py:234-247 | the first half: one candidate is created beside the original in an owned idle window |
| `RetainedProfile.Driver.Recheck` | ds4-gateway/docker_profile.py:250-255 | immediately before the stop, the original runs and is once more exactly as planned, and the candidate is as reviewed and does not run |
| `RetainedProfile.Driver.CutOver` | ds4-gateway/docker_profile.py:248-259 | the second half ends with five acknowledged steps or at a consistent crash point |
| `RetainedProfile.Driver.Apply` | ds4-gateway/docker_profile.py:204-260 | nothing is created for a plan that was not approved, that changes settings, or whose original could not be retained; an operation that was ever begun is only observed; success ends in one of the two states after a start |
| `RetainedProfile.Driver.RecheckBeforeReturn` | ds4-gateway/docker_profile.py:307-309 | proceeds only if the original is stopped with its planned signature and the candidate has the same identity, recipe, start time and name as before |
| `RetainedProfile.Driver.PrepareReturn` | ds4-gateway/docker_profile.py:301-309 | a return begins only from the acknowledged cutover, with a cleared window if the candidate runs |
| `RetainedProfile.Driver.BeginReturn` | ds4-gateway/docker_profile.py:310-310 | the exclusive return folder fixes whether the candidate has to be stopped |
| `RetainedProfile.Driver.Return` | ds4-gateway/docker_profile.py:311-315 | the return's steps in order, ending fully acknowledged or at a consistent crash point |
| `RetainedProfile.Driver.Restore` | ds4-gateway/docker_profile.py:291-316 | a return that was ever begun is only observed; success ends in one of the two states after the original's start |
| `RetainedProfile.Driver.AnyRun` | ds4-gateway/docker_profile.py:204-316 | over any sequence of apply, observe and restore with any plans, each failing or dying anywhere: never both running, names never collide, no mutation twice, nothing sent for a plan that changes settings or cannot be retained, and once the cutover has begun the original is the planned container with its planned recipe |
| `CachePolicy.WithinAllowanceIffBound` | ds4-gateway/serving_qualification.py:194-201 | over the reals, the percentage comparison accepts exactly when 100 times the current capacity is at least (100 - max_loss) times the baseline |
| `ServingOperation.ReleasedOnceOnABasis` | ds4-gateway/serving_operation.py:208-260 | the hold is released at most once, and at the last check before it the running container under the plan's name is the original, untouched and never intended to be stopped, or exactly the one whose passed verdict was published |
| `ServingOperation.ResultNamesWhatServes` | ds4-gateway/serving_operation.py:208-312 | the recorded outcome says which of the two release paths was taken; they exclude each other |
| `ServingOperation.CompletedIsAccepted` | ds4-gateway/serving_operation.py:172-206 | completed implies no trial, every required check passed and the capacity measured after the checks within the reviewed allowance |
| `ServingOperation.FailedUnchangedSentNothing` | ds4-gateway/serving_operation.py:240-260 | failed_unchanged implies that no stop, rename or start was ever sent |
| `ServingOperation.Operation.constructor` | ds4-gateway/serving_operation.py:78-101 | a new operation has no receipts |
| `ServingOperation.Operation.Current` | ds4-gateway/serving_operation.py:123-129 | the version asked for runs under the planned name, fully started and owned |
| `ServingOperation.Operation.StoppedByItself` | ds4-gateway/serving_operation.py:138-150 | a container that stopped after its acknowledged start, and only such a one, fails qualification and gets only a failed verdict |
| `ServingOperation.Operation.AwaitReady` | ds4-gateway/serving_operation.py:150-163 | polls readiness without acting; the version that answers has the start time that is returned |
| `ServingOperation.Operation.Qualify` | ds4-gateway/serving_operation.py:135-206 | writes only this version's report and verdict; true only with a passed verdict that names the identity, recipe and start time of what now has the planned name, after two idle samples; false only without a passed verdict |
| `ServingOperation.Operation.SettleVerdict` | ds4-gateway/serving_operation.py:191-206 | a verdict passes only for the identity seen before the checks and the given start time, and that is what is there after the idle wait |
| `ServingOperation.Operation.Conclude` | ds4-gateway/serving_operation.py:182-206 | a verdict passes exactly when the native checks passed and cover every required one and, for a candidate, the capacity after them is within the allowance of the baseline |
| `ServingOperation.JudgedByAllowance` | ds4-gateway/serving_operation.py:172-181 | a candidate fails for its capacity exactly when it was not measured after the checks or lies below the bound; an original never does |
| `ServingOperation.Operation.QualifiedCurrent` | ds4-gateway/serving_operation.py:211-217 | what serves now is exactly what the passed verdict names |
| `ServingOperation.Operation.Record` | ds4-gateway/serving_operation.py:209-226 | the publication's intent and confirmed result precede any release |
| `ServingOperation.Operation.LastCheck` | ds4-gateway/serving_operation.py:227-229 | two idle samples, still qualified and still owned: what a release rests on |
| `ServingOperation.Operation.HandBack` | ds4-gateway/serving_operation.py:231-232 | releases on an established basis, then asks for readmission |
| `ServingOperation.Operation.Finish` | ds4-gateway/serving_operation.py:208-238 | completed for a candidate, restored for the original, and only after record, last check and release |
| `ServingOperation.Operation.Untouched` | ds4-gateway/serving_operation.py:244-254 | before any stop intent, the original is seen twice exactly as planned around an idle wait |
| `ServingOperation.Operation.UnchangedReturn` | ds4-gateway/serving_operation.py:240-260 | hands back only an untouched original; what a release that was already intended rests on does not change |
| `ServingOperation.Operation.AdoptOrReturn` | ds4-gateway/serving_operation.py:291-302 | completed exactly when the candidate's verdict passed and no trial is set; otherwise the original is restored, and a trial has measured its candidate exactly if that qualified |
| `ServingOperation.Operation.Drain` | ds4-gateway/serving_operation.py:279-289 | the baseline is measured, and anything is applied, only after two idle samples under an owned hold |
| `ServingOperation.Operation.BackToOriginal` | ds4-gateway/serving_operation.py:298-302 | restored only after the original was restored and qualified |
| `ServingOperation.Operation.Run` | ds4-gateway/serving_operation.py:262-312 | a second run replays nothing; nothing is done if the checks do not cover what is required; a new run ends completed rather than restored exactly when the candidate's verdict passed and no trial is set; on every exit path the result claims no more than the receipts show |
| `ServingOperation.Operation.ConcludeFailure` | ds4-gateway/serving_operation.py:303-312 | an exception ends in an untouched server handed back, or in an admission that inspection is needed: because a stop was intended, the hold is not owned and idle, the original is not as planned, or a call failed |
| `ServingOperation.Operation.AnyRun` | ds4-gateway/serving_operation.py:262-312 | over any number of runs, each failing or dying anywhere: released at most once and only on an established basis, which does not change once a release is intended; a recorded result is truthful, and none is restored that should have been completed |
| `Runner.SingleAttempt` | ds4-gateway/operation_runner.py:153-261 | over every interleaving of run, observe and reconciliation processes and crashes: execute is called at most once, reconcile at most once, and no execute step follows the start of a reconcile |
| `Runner.OneAtATime` | ds4-gateway/operation_runner.py:115-261 | never are two processes past the kernel lock at the same time |
| `Runner.OnlyAuthorised` | ds4-gateway/operation_runner.py:153-261 | over every interleaving: only a run executes, after it found the approval of its plan; only a reconciliation asked to return does so, after it found the approval of the plan and the owner's approval of the return |
| `Runner.StepKeepsInv` | ds4-gateway/operation_runner.py:115-261 | every step of every process, its death and its spawning keep the invariant that ties claims, lock and calls together |
| `Runner.ClaimLocks` | ds4-gateway/operation_runner.py:211-221 | whoever obtains the exclusive claim does so before anything was executed, saved or returned, also in the window before its lock; nobody claims after it |
| `Runner.CheckingOverKeeps` | ds4-gateway/operation_runner.py:160-169 | a return goes on only if the original run will never execute again; without a result, a live process with the claimant's process id blocks it, also one that got the id later |
| `Runner.ReturnClaimingKeeps` | ds4-gateway/operation_runner.py:185-185 | the exclusive return claim is taken by one process, after the original is over |
| `Runner.CallingKeeps` | ds4-gateway/operation_runner.py:193-244 | execute and reconcile are called once, by the holder of the claim |
| `Runner.LockingKeeps` | ds4-gateway/operation_runner.py:118-123 | a run waits for the lock; observers and returns give way at once |
| `Runner.ResultKeeps` | ds4-gateway/operation_runner.py:244-258 | a run's result is on file before it gives the lock back |
| `Hourglass.OneMeasurement` | ds4-gateway/hourglass_operation.py:30-98 | over every interleaving of runs, re-entries, reconciliations and trials: submitted, released and resumed at most once; from the start of readmission, or a trial's result on, the accepted job has ended, none of its requests is in flight, and neither changes |
| `Hourglass.DoKeepsInvariant` | ds4-gateway/hourglass_operation.py:30-98 | every permitted step of any process and of the native controller keeps the invariant and drops no receipt |
| `Hourglass.OverMeansEnded` | ds4-gateway/hourglass_operation.py:56-65 | a proven rejection, or the end of the one accepted job, leaves no job running |
| `Hourglass.OthersMove` | ds4-gateway/hourglass_operation.py:30-98 | what a process has claimed and done stays its own whatever the others do |
| `Hourglass.QuietOnceReadmitted` | ds4-gateway/hourglass_operation.py:87-97 | a readmission intent or a result implies that the measurement is over and its requests are finished |
| `Hourglass.Participant.AgreePlan` | ds4-gateway/hourglass_operation.py:31-35 | goes on only with the recorded plan |
| `Hourglass.Participant.Recorded` | ds4-gateway/hourglass_operation.py:43-46 | a start that is claimed and has no answer is refused; with an accepted job or a proved rejection on record it is not refused, whoever claimed the start; otherwise there was no claim |
| `Hourglass.Participant.ClaimTheStart` | ds4-gateway/hourglass_operation.py:55-55 | the exclusive start intent: whoever holds it is the first to submit |
| `Hourglass.Participant.Submission` | ds4-gateway/hourglass_operation.py:56-63 | one submission: accepted, proved rejected, or uncertain |
| `Hourglass.Participant.StartOnce` | ds4-gateway/hourglass_operation.py:55-64 | an accepted job, or a proven rejection and its receipt, is on record before anything goes on |
| `Hourglass.Participant.AwaitEnd` | ds4-gateway/hourglass_operation.py:66-86 | observes the same saved job until a terminal state that has really happened, seeing the hold owned each time |
| `Hourglass.Participant.WaitIdle` | ds4-gateway/operation_maintenance.py:131-139 | returns only after two more samples of an owned hold and an idle native server |
| `Hourglass.Participant.SampleTwice` | ds4-gateway/operation_maintenance.py:133-137 | both samples are taken in one go: the hold seen owned and then the server seen idle, twice |
| `Hourglass.Participant.ClaimTheReadmission` | ds4-gateway/hourglass_operation.py:92-92 | the exclusive readmission intent: nothing had been released before it |
| `Hourglass.Participant.HandBack` | ds4-gateway/hourglass_operation.py:93-94 | release, then resume, each once |
| `Hourglass.Participant.Run` | ds4-gateway/hourglass_operation.py:30-98 | an existing result is returned and nothing is begun again after a result or a readmission intent; otherwise the result on record is of the recorded plan, and about the job that was accepted before |
| `Hourglass.Participant.Inspect` | ds4-gateway/hourglass_executor.py:42-60 | refuses once readmission has begun; otherwise reports a saved job that has ended, after one sample of an owned, idle server |
| `Hourglass.Participant.Reconcile` | ds4-gateway/hourglass_executor.py:63-81 | returns only what the owner approved and both inspections reported, with four samples of an owned, idle server; refuses once readmission has begun |
| `Hourglass.Participant.Review` | ds4-gateway/hourglass_executor.py:66-73 | two equal inspections around an idle wait, both equal to the approved result |
| `Hourglass.Participant.RunTrial` | ds4-gateway/serving_trial.py:48-95 | a trial that was ever started is not started again; its result leaves the server without work of the measurement |
| `Recovery.OneCommandPerTarget` | ds4-gateway/recovery-launchd.py:738-783 | over everything an adapter ever issues: one restart per live instance, one start per stopped epoch, one bootstrap per removed instance; for oMLX one termination and one launch per identity |
| `Recovery.CommandsAreWarranted` | ds4-gateway/recovery-systemd.py:191-241 | every command that ever left an adapter is the one its request asks for, verb by verb: a restart for a restart, a start for a start, a bootstrap for a bootstrap, for oMLX a termination and a launch after it, each on the instance, epoch or removal it names and on evidence that permits it |
| `Recovery.PermittedIffWarranted` | ds4-gateway/recovery-launchd.py:709-783 | a request is enrolled and permitted on an observation exactly when its command is warranted by it |
| `Recovery.CommandsFollowChecks` | ds4-gateway/recovery-launchd.py:754-783 | a command comes after its durable intent and that after the observation it rests on, with launchd found enabled on both sides of the intent and oMLX inspected again, and to be restarted twice around an idle server |
| `Recovery.LaunchesFollowChecks` | ds4-gateway/recovery-omlx.py:147-160 | a launch comes after the port was found free and after the old process was asked to end and had gone |
| `Recovery.RecordKeeps` | ds4-gateway/recovery-systemd.py:220-237 | a new intent concerns nothing that an earlier receipt concerns |
| `Recovery.IssueKeeps` | ds4-gateway/recovery-systemd.py:237-238 | a command is covered by a durable intent of the same request |
| `Recovery.MarkKeeps` | ds4-gateway/recovery-systemd.py:239-240 | the acknowledgement changes only the receipt's state |
| `Recovery.Adapter.constructor` | ds4-gateway/recovery-launchd.py:689-691 | without a journal file the history is empty |
| `Recovery.Adapter.Record` | ds4-gateway/recovery-launchd.py:665-686 | after a crash the journal is the old one or the new one |
| `Recovery.Adapter.Issue` | ds4-gateway/recovery-docker.py:147-147 | a command leaves the adapter at most once, whether or not it is confirmed |
| `Recovery.Adapter.Recheck` | ds4-gateway/recovery-launchd.py:776-778 | after the durable intent launchd's enablement is checked again and oMLX is inspected again; a change vetoes the command |
| `Recovery.Adapter.LookAt` | ds4-gateway/recovery-omlx.py:133-138 | a restart of oMLX rests on two equal inspections around an idle server |
| `Recovery.Adapter.Terminate` | ds4-gateway/recovery-omlx.py:148-153 | the old process is asked to end once, after the checks; nothing is launched while it is still there |
| `Recovery.Adapter.Carry` | ds4-gateway/recovery-omlx.py:147-160 | after the durable intent the request's own commands follow, in order, as far as the last checks allow |
| `Recovery.Adapter.ServeRemoved` | ds4-gateway/recovery-launchd.py:359-394 | a bootstrap needs the one exactly observed removal and an exclusively staged definition; a staged copy is never staged again |
| `Recovery.Adapter.ServeCurrent` | ds4-gateway/recovery-omlx.py:133-142 | a restart or start rests on an inspection that matches the request |
| `Recovery.Adapter.Attempt` | ds4-gateway/recovery-launchd.py:754-783 | nothing is recorded or issued for a target that an earlier receipt names |
| `Recovery.Adapter.Handle` | ds4-gateway/recovery-launchd.py:709-783 | a repeated action id with the same request returns its receipt and issues nothing, with another request it is refused; otherwise every command issued is the request's own and warranted, all of them if it is answered; a full journal and a second staging issue nothing |
| `Recovery.Adapter.AnyRun` | ds4-gateway/recovery-systemd.py:191-241 | over any sequence of requests and crashes: receipts are kept, no two commands concern the same target, every command is warranted by its recorded request, and every intent and command came right after the checks it needs |
| `Records.LinkedIffIntact` | ds4-gateway/serving_records.py:125-253 | over every history of publications and owner acts: a published version is the one in its folder, names exactly the version before it and retains its bytes if and only if the file was the compared one at the copy, the last version the compared one at the commit, and the file the written one at the commit |
| `Records.OnePredecessor` | ds4-gateway/serving_records.py:237-253 | following the digests back through such publications gives one linear chain, each predecessor retained in the folder of the operation that replaced it |
| `Records.EvidenceIsComplete` | ds4-gateway/serving_records.py:88-125 | whatever the owner did, a published version has a folder with the record to be published, the passed check of exactly the container it names, and the file as it was at the copy; restoration authority does not grow |
| `Records.PublishedAsReviewed` | ds4-gateway/serving_records.py:97-119 | what is published is what the owner approved with the plan, with only the container, one piece of evidence and the operation filled in; a candidate names the reviewed recipe and claims no versions for an image that was not inspected |
| `Records.ReadyIsPublished` | ds4-gateway/serving_records.py:81-124 | nothing else is asked for before a publication |
| `Records.RetainedIff` | ds4-gateway/serving_records.py:125-126 | the folder retains the compared predecessor exactly when no other edit of the owner stands in the file at the copy |
| `Records.CommittedIsLastEdit` | ds4-gateway/serving_records.py:248-253 | the version committed is the owner's last edit between replacement and commit or, without one, the version written |
| `Records.IntactIff` | ds4-gateway/serving_records.py:246-253 | for an owner who commits nothing meanwhile, the link holds exactly when no other edit stands at the copy or at the commit |
| `Records.FinalComparison` | ds4-gateway/serving_records.py:254-260 | the final comparison finds out exactly whether the version written was committed, unless the owner committed after it |
| `Records.ChangedIsRefused` | ds4-gateway/serving_records.py:246-247 | a record whose file was changed by the time it is compared is left as the owner has it |
| `Records.UncommittedIsRefused` | ds4-gateway/serving_records.py:246-247 | so is one that git does not report as unchanged right after |
| `Records.LeftAlone` | ds4-gateway/serving_records.py:81-265 | for an owner who leaves the record alone, the publication is complete and the link holds |
| `Records.EditUndonePasses` | ds4-gateway/serving_records.py:125-126 | an edit that stands at the copy and is undone passes every comparison and leaves other bytes in the folder |
| `Records.CommittedBetweenPasses` | ds4-gateway/serving_records.py:246-260 | a version the owner commits between the last look and the commit passes every comparison, and the published version does not name it |
| `Records.EditCommittedPasses` | ds4-gateway/serving_records.py:252-260 | an edit that stands at the commit and is followed by a commit of the written version passes every comparison, and the published version is not the one in the folder |
| `Records.PublicationChanges` | ds4-gateway/serving_records.py:222-238 | the published record differs from its predecessor, unless that contained its own digest |
| `Records.ReplacedIsNotClean` | ds4-gateway/serving_records.py:246-253 | a replaced record that nobody has committed is not clean |
| `Records.OwnerKeeps` | ds4-gateway/serving_records.py:32-39 | anything the owner does short of rewriting history keeps every published version's provenance |
| `Records.CommitKeeps` | ds4-gateway/serving_records.py:252-253 | so does the commit of a publication |
| `Records.ArtifactKeeps` | ds4-gateway/serving_records.py:121-126 | so does filling a folder nobody has published from |
| `Records.NoFolderNoPublication` | ds4-gateway/serving_records.py:121-124 | an operation without a folder has published nothing, so none publishes twice |
| `Records.PlacedKeeps` | ds4-gateway/serving_records.py:81-265 | wherever a publication ends, and whatever the owner did between its steps, every published version's provenance is kept |
| `Records.Publisher.constructor` | ds4-gateway/serving_records.py:23-24 | a library whose records are all committed |
| `Records.Publisher.CopyPrevious` | ds4-gateway/serving_records.py:121-126 | the folder holds the record file as it is when it is copied |
| `Records.Publisher.Collect` | ds4-gateway/serving_records.py:121-242 | the evidence and the record to be published are in the operation's folder before the record changes |
| `Records.Publisher.LastLook` | ds4-gateway/serving_records.py:246-247 | goes on only if the file is the compared one and then git reports no change, and changes nothing |
| `Records.Publisher.CommitOnly` | ds4-gateway/serving_records.py:253-253 | commits the file as it is, after whatever versions the owner has committed |
| `Records.Publisher.ReplaceAndCommit` | ds4-gateway/serving_records.py:248-253 | the file, the index and the history after each of the three steps |
| `Records.Publisher.Confirm` | ds4-gateway/serving_records.py:254-260 | succeeds exactly when the last committed version and then the file are the record in the folder |
| `Records.Publisher.Publish` | ds4-gateway/serving_records.py:65-265 | refuses and changes nothing unless the record is committed, clean, of the planned revision, approved, described and exactly qualified, and the operation has not published before; a record that the owner changed by the last look is left as the owner has it and nothing is published; otherwise folder, file, index and history are exactly what the steps it made and the owner's acts between them leave, and it succeeds exactly when it lives through all of them and every comparison holds, with the reviewed record in the file |
| `Records.Publisher.RetainsAnEdit` | ds4-gateway/serving_records.py:125-126 | the failing input, through the publication's own steps: it succeeds, and its folder holds the edit |
| `Records.Publisher.UntilReconciled` | ds4-gateway/serving_records.py:32-39 | no publication touches a record that is not clean, however many are tried |
| `Records.Publisher.Interrupted` | ds4-gateway/serving_records.py:246-253 | a publication that ends between replacement and commit leaves a record that no later publication touches |
| `Records.Publisher.AnyRun` | ds4-gateway/serving_records.py:65-265 | any number of publications, cut short anywhere, with the owner at work between them and between their steps: every published version keeps its provenance |
| `Qwen3Arguments.MatchAtIff` | examples/spark-build/qwen38-repaired/repair/vllm/parser/qwen3.py:51-56 | the scanner finds exactly what the lazy, white-space-tolerant expression matches at a position |
| `Qwen3Arguments.UnfinishedAtIff` | examples/spark-build/qwen38-repaired/repair/vllm/parser/qwen3.py:57-57 | the same for the expression of an unfinished parameter |
| `Qwen3Arguments.SpellIff` | examples/spark-build/qwen38-repaired/repair/vllm/parser/qwen3.py:51-57 | words with any white space between them are recognised exactly |
| `Qwen3Arguments.Convert` | examples/spark-build/qwen38-repaired/repair/vllm/parser/qwen3.py:69-86 | the loop over all matches, and the unfinished one, computes the specified dictionary in its order |
| `Qwen3Arguments.NoCrossing` | examples/spark-build/qwen38-repaired/repair/vllm/parser/qwen3.py:51-56 | no tag crosses from a value into the closing tag that follows it |
| `Qwen3Arguments.ValueHasNoEnd` | examples/spark-build/qwen38-repaired/repair/vllm/parser/qwen3.py:51-56 | a value without tags is not ended before its own closing tag |
| `Qwen3Arguments.PrintedIsRead` | examples/spark-build/qwen38-repaired/repair/vllm/parser/qwen3.py:69-79 | printed parameters are all found, and taking them out leaves what separated them |
| `Qwen3Arguments.RoundTrip` | examples/spark-build/qwen38-repaired/repair/vllm/parser/qwen3.py:60-86 | converting the template's output gives back every list of parameters with values that contain neither tag, including empty ones and those with line breaks of their own, complete or partial, as a dictionary in which the last value of a key counts; distinct keys give back the list itself |
| `Qwen3Arguments.PutAllIs` | examples/spark-build/qwen38-repaired/repair/vllm/parser/qwen3.py:69-86 | a name that is written again keeps its place and takes the last value |
| `Qwen3Arguments.TrimIs` | examples/spark-build/qwen38-repaired/repair/vllm/parser/qwen3.py:60-66 | one line break is taken off at either end, if it is there, and nothing else |
| `Qwen3Arguments.PartialRoundTrip` | examples/spark-build/qwen38-repaired/repair/vllm/parser/qwen3.py:77-84 | while the last parameter is still being written, the complete ones and its beginning are shown, also if it repeats a key |
| `Qwen3Arguments.SurvivesIffUntagged` | examples/spark-build/qwen38-repaired/repair/vllm/parser/qwen3.py:51-74 | a single parameter survives exactly when its value contains neither tag |
| `Qwen3Grammar.CallsAlternate` | examples/spark-build/qwen38-repaired/repair/vllm/parser/qwen3.py:123-196 | over every terminal sequence, tool-call starts and ends strictly alternate and a call is open exactly in the preamble, name and argument states |
| `Qwen3Grammar.CallsAreRead` | examples/spark-build/qwen38-repaired/repair/vllm/parser/qwen3.py:127-193 | a written list of calls, with or without tags, names and parameters, is read as itself: every state it passes and every event it emits, with one start and one end for each call and two chunks for each parameter |
| `Qwen3Grammar.TextStaysText` | examples/spark-build/qwen38-repaired/repair/vllm/parser/qwen3.py:123-196 | any sequence of terminals that do not end a state is text of it: arguments, for one, go on until the end of the function |
| `Qwen3Grammar.ThinkingIsRead` | examples/spark-build/qwen38-repaired/repair/vllm/parser/qwen3.py:125-138 | thinking may be begun again, ends once, and a further end is dropped |
| `Qwen3Grammar.ReasoningOnce` | examples/spark-build/qwen38-repaired/repair/vllm/parser/qwen3.py:123-145 | from reasoning nothing precedes the end of reasoning, and reasoning is never entered again |
| `Qwen3Grammar.ReasoningEndCount` | examples/spark-build/qwen38-repaired/repair/vllm/parser/qwen3.py:127-153 | the end of reasoning is reported exactly once for the reasoning that ends and once more for each tool call opened in content |
| `Qwen3Grammar.ReasoningEndAtMostOnce` | examples/spark-build/qwen38-repaired/repair/vllm/parser/qwen3.py:127-153 | it is reported at most once if and only if no tool call is opened in content, or one is and there was no reasoning to end |
| `Qwen3Grammar.ReasoningEndIsRepeated` | examples/spark-build/qwen38-repaired/repair/vllm/parser/qwen3.py:127-153 | an example: it is reported twice by one tool call after the end of reasoning, and three times by two |
| `Qwen3Grammar.ForwardIff` | examples/spark-build/qwen38-repaired/repair/vllm/parser/qwen3.py:262-285 | a one-bit forward reading is true exactly when some opener has no later closer, reasoning start or turn boundary |
| `Qwen3Grammar.IsReasoningEnd` | examples/spark-build/qwen38-repaired/repair/vllm/parser/qwen3.py:262-285 | the backward loop returns exactly that, or the base answer |
| `JsonPointer.ReferenceAt` | ds4-gateway/genie_inspection.py:302-315 | the loop evaluates the pointer token by token |
| `JsonPointer.UnescapeUndoesEscape` | ds4-gateway/genie_inspection.py:308-308 | the two replacements undo the escaping of section 3 of RFC 6901 for every key |
| `JsonPointer.StandardEscapes` | ds4-gateway/genie_inspection.py:308-308 | the escapes are those of the examples in section 5 of RFC 6901 |
| `JsonPointer.OrderMatters` | ds4-gateway/genie_inspection.py:308-308 | in the other order the key ~1 would be read as a slash (section 4 of RFC 6901) |
| `JsonPointer.RoundTrip` | ds4-gateway/genie_inspection.py:302-315 | every object of a document is found by the pointer its path is written as |
| `JsonPointer.AcceptsExactlyObjects` | ds4-gateway/genie_inspection.py:302-315 | a pointer is accepted exactly when it is the written path of an object, which it then returns |
| `JsonPointer.DecimalIsIndex` | ds4-gateway/genie_inspection.py:310-311 | a written index is accepted and read back |
| `JsonPointer.IndexIsDecimal` | ds4-gateway/genie_inspection.py:310-311 | only the canonical writing of an index is accepted |
| `Activity.OnePhase` | ds4-gateway/ui/activity.js:27-50 | an ordered history shows at most one phase at a moment |
| `Activity.ObservedExact` | ds4-gateway/ui/activity.js:30-36 | an observation extends the last phase for at most six seconds, marks the rest unknown, and changes no earlier moment |
| `Activity.RelabelledExact` | ds4-gateway/ui/activity.js:42-49 | relabelling keeps order and end, shows prefill exactly inside the clamped interval and every other retained moment unchanged |
| `Activity.FutureIsBackwards` | ds4-gateway/ui/activity.js:41-49 | an interval that begins in the future leaves a row that ends before it begins |
| `Activity.OrderedIffNotFuture` | ds4-gateway/ui/activity.js:41-49 | relabelling keeps the rows in order exactly when the measured interval does not begin in the future |
| `Activity.CorrectedExact` | ds4-gateway/ui/activity.js:43-48 | cutting, inserting and sorting: the same before old rows are dropped |
| `Activity.CutShows` | ds4-gateway/ui/activity.js:43-47 | the pieces show exactly what the rows showed outside the interval |
| `Activity.KeepShows` | ds4-gateway/ui/activity.js:37-37 | dropping old rows changes no retained moment |
| `Activity.CorrectedBeforeWindow` | ds4-gateway/ui/activity.js:42-49 | an interval that ended before the window relabels nothing |
| `Activity.LatestInOrder` | ds4-gateway/ui/activity.js:27-50 | a history in order stays in order and ends at the observation |
| `Activity.AfterExact` | ds4-gateway/ui/activity.js:27-50 | one observation changes exactly the moments it says something about |
| `Activity.EveryMoment` | ds4-gateway/ui/activity.js:27-50 | over any sequence of observations, late ones among them, and stated without the rows: every moment still remembered shows what the last observation that says something about it says, be it a measured prefill, the phase of the observation before for six seconds, or that nothing is known |
| `Activity.ShownBetween` | ds4-gateway/ui/activity.js:27-50 | between two consecutive observations, where no prefill was measured, the phase of the earlier one is shown for six seconds and then that nothing is known |
| `Activity.AfterTail` | ds4-gateway/ui/activity.js:30-49 | after an observation the history ends now, with the phase observed, unless a prefill measured up to now takes over a phase that had begun before |
| `Activity.NothingElseForgotten` | ds4-gateway/ui/activity.js:37-37 | only what ended fifteen minutes ago is forgotten, and beyond 1024 rows the oldest |
| `Activity.History.constructor` | ds4-gateway/ui/activity.js:26-26 | a new history is empty |
| `Activity.History.Observe` | ds4-gateway/ui/activity.js:27-59 | an observation of the past changes nothing; otherwise the rows are the specified ones, in order, ending now with the phase observed; a report counts once, if it is recent, live and not from the future; no other worker's rows change |
| `Activity.History.AnyRun` | ds4-gateway/ui/activity.js:27-59 | the same as for every moment, for any sequence of updates of one worker; no other worker's rows change |
| `Activity.History.Relabel` | ds4-gateway/ui/activity.js:42-49 | relabels the worker's rows as specified |
| `Activity.History.CutOut` | ds4-gateway/ui/activity.js:43-47 | the loop over the rows computes the specified pieces |
| `Activity.History.Advance` | ds4-gateway/ui/activity.js:30-36 | the in-place changes compute the specified observation, whose last row has the phase observed |
| `Activity.History.Mark` | ds4-gateway/ui/activity.js:51-56 | only an engine that reports whole requests leaves a marker, and only for its own worker |
| `Activity.MarkersBounded` | ds4-gateway/ui/activity.js:55-55 | at most 512 markers are kept, all of the last fifteen minutes |
| `Activity.MarkersKept` | ds4-gateway/ui/activity.js:55-55 | below that number none of them is lost |
| `Activity.LatestMarkerKept` | ds4-gateway/ui/activity.js:55-55 | the latest marker is never lost |
| `Rates.SmoothRates` | ds4-gateway/ui/ui.js:50-58 | the running sum and the moving start compute, for every sample, the mean of the current scope run's samples of the last 20 seconds, and leave the samples unchanged |
| `Rates.MeanBounded` | ds4-gateway/ui/ui.js:56-56 | over nonnegative rates the clamp at zero never applies, and the mean never exceeds the highest rate |
| `Rates.WindowBegins` | ds4-gateway/ui/ui.js:53-55 | the samples that count begin where the moving start stops |
| `Rates.RateScale` | ds4-gateway/ui/ui.js:38-44 | the scale bounds every rate of its kind reported so far and is attained, or is 1 without any |
| `Rates.NoneExceeds` | ds4-gateway/ui/ui.js:38-44 | no rate of the kind measured by now exceeds the scale |
| `Rates.ScaleIsReached` | ds4-gateway/ui/ui.js:38-44 | a rate reaches it, if there is any that is positive; otherwise it is 1 |
| `Chart.GroupRuns` | ds4-gateway/ui/ui.js:62-62 | the runs are the samples, split exactly where more than 90 seconds are missing |
| `Chart.PickedIff` | ds4-gateway/ui/ui.js:60-60 | a sample is drawn exactly if a report of its kind has it, not negative, from the last fifteen minutes |
| `Chart.SortKeepsMoments` | ds4-gateway/ui/ui.js:60-60 | sorting keeps the samples of every moment and their order |
| `Chart.AtMostNineGaps` | ds4-gateway/ui/ui.js:63-64 | at most nine separators can occur |
| `Chart.SharesFill` | ds4-gateway/ui/ui.js:65-78 | the widths of the runs add up to the available space |
| `Chart.ShareOut` | ds4-gateway/ui/ui.js:65-78 | the runs share the space in proportion to their durations and use it up |
| `Chart.DrawRun` | ds4-gateway/ui/ui.js:76-82 | a run's points are placed by time from left to right inside its share, at the smoothed heights |
| `Chart.RunToScale` | ds4-gateway/ui/ui.js:76-82 | distances from the left end of a run's share are as the times from its first sample, a single sample is in the middle, and each is at the height of the mean of what counts for it |
| `Chart.HeightIsLinear` | ds4-gateway/ui/ui.js:79-79 | no rate is on the base line, the scale on the top line, and equal steps are equal heights |
| `Chart.DrawNext` | ds4-gateway/ui/ui.js:75-83 | one more run in its place, with one separator before it unless it is the first |
| `Chart.DrawRuns` | ds4-gateway/ui/ui.js:75-83 | every run is in its place, after every separator and every run before it |
| `Chart.Draw` | ds4-gateway/ui/ui.js:59-87 | over all sample lists: every part is in its exact place, at most nine separators, separators and proportional widths add up to exactly 294, every sample is drawn once at its smoothed height |
| `Chart.InsideTheBox` | ds4-gateway/ui/ui.js:59-87 | x is nondecreasing and in [3, 297]; y is in [8, 52] when no rate exceeds the scale |
| `Chart.ScaleBounds` | ds4-gateway/ui/ui.js:38-61 | the shared scale bounds every sample of every chart, so its condition is met |

## Left out

Assumptions about the environment:

- From the moment the planned container has been found as planned, only this driver creates, starts, renames or removes the two containers of an operation; either may exit by itself at any moment.
- The gateway's own code is not part of this model: its lock, release and receipt lookup are keyed by request id and its resume is a compare-and-set on the ids the client sends.
- Digests are injective and receipts are values: JSON text, encodings and hash functions are not modelled. Where a digest of a request, plan or result is compared, the model compares the request, plan or result.
- A process is stopped by a crash of the process. Receipts that were confirmed before it are there after it; the loss of confirmed writes by a failing disk is not modelled.

Not modelled:

- SSH, HTTP, the Docker socket, subprocesses, git, launchctl, systemctl and lsof: each call is an environment step that is done and confirmed, done without confirmation, done later, or not done.
- The wording of progress, reasons and scopes, heartbeats, file permissions, size limits and symbolic-link checks.
- The syntax of operation ids, container ids, image names and native addresses, and the normalisation of `OomKillDisable`; the container settings that the adapter must not change are one value.
- Liveness: that a polling loop ends. Only what holds when it does, or when the process is stopped while it runs.
- Runner.StepKeepsInv: `run`, `observe` and `reconciliation` are one step function over the places in their program, because the statement is about every interleaving of their steps; the heartbeat thread and the progress it shares are not modelled.
- What a process can conclude from another one being alive: `observe` in `operation_runner.py` is modelled for its effect on the lock, not for the state it reports.
- ServingOperation.Operation.Qualify: the native checks themselves are one environment call that returns a report; the trial measurement is one too. The measurement and the publication have their own modules.
- ServingOperation.Operation.Run: the record checks and the publisher's preflight are calls that succeed or fail; that each of them is made is not tracked.
- Hourglass.Participant.Run: acquiring, owning and idling are observations there; `Maintenance` models them in full.
- Recovery.Adapter.Handle: how an inspection is made, how fatal evidence is read from logs and how a removal is read from the native log; an inspection may return anything.
- Records.Publisher.Publish: the copied evidence files other than the predecessor, the proof, the container and the record, and the reviewed record's text; the checks before the folder is made are one moment, the owner leaves the operation's folder alone and does not rewrite history, and what the owner does to other records falls between publications.
- CachePolicy.WithinAllowanceIffBound: is over the reals; the code compares floating-point numbers, so a capacity just outside the bound can be accepted (from 9 to 8 with an allowance of 11.11111111111111).
- Chart.Draw: rounding of coordinates to one decimal, labels and colours.
- Qwen3Arguments.Convert: the JSON text of the resulting dictionary; `\s` is Unicode white space.
- Qwen3Grammar.CallsAlternate: the engine around the table, including its look-ahead after an opening tag; a terminal without a transition is text of the current state.
- Activity.History.Observe: which phase the gateway and the engine show now is an input; `capacity`, `phase` and `update` in `activity.js`.
- `cache_capacity` in `serving_qualification.py`, which parses a metrics page; only the comparison of capacities is modelled.
- Genie's tool registration and prompts, inspection collectors, media jobs, installation scripts and the rest of the user interface: plumbing, or weaker forms of the same patterns.
