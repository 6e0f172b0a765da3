/** Compare-and-set publication of approved serving records in a version-controlled library. */
module Records {
  import opened Effects

  type Worker = string
  type OperationId = string
  type Revision = string
  type Recipe = string
  type Contract = string

  datatype Version = Candidate | Previous

  datatype Container = Container(id: string, startedAt: string, signature: string, image: string)

  datatype Restoration = Restoration(previous: Option<Revision>, proven: bool)

  datatype Publication = Publication(op: OperationId, outcome: Version, previous: Revision)

  /** The parts of an approved record that publication reads or writes. */
  datatype Record = Record(
    worker: Worker, contract: Contract, recipe: Recipe, versions: Option<string>, restoration: Restoration,
    qualified: Option<Container>, evidence: seq<OperationId>, operation: Option<Publication>)

  datatype Qualification = Qualification(passed: bool, contract: Contract)

  /** The receipt of a passed check names the container it saw and the result it rests on. */
  datatype Proof = Proof(passed: bool, id: string, startedAt: string, signature: string, result: Qualification)

  datatype Plan = Plan(worker: Worker, recordRevision: Revision, candidate: Record, recipe: Recipe, image: string, approved: bool)

  /** What the operation's folder holds for the version to be published. */
  datatype Folder = Folder(op: OperationId, proof: Option<Proof>, result: Option<Qualification>)

  /** The archived evidence of one operation; copying it can stop anywhere. */
  datatype Artifact = Artifact(previous: Option<Record>, proof: Option<Proof>, container: Option<Container>, published: Option<Record>)

  /** A committed version, and the operation whose publication committed it, if any. */
  datatype Commit = Commit(record: Record, publisher: Option<OperationId>)

  /** One worker's record: the file, the index, and the committed versions, oldest first. */
  datatype Entry = Entry(work: Record, index: Record, commits: seq<Commit>)

  datatype Library = Library(entries: map<Worker, Entry>, artifacts: map<OperationId, Artifact>)

  datatype Receipt = Receipt(op: OperationId, revision: Revision, previous: Revision)

  type Digest = Record -> Revision

  predicate Clean(e: Entry) {
    |e.commits| > 0 && e.work == Head(e) == e.index
  }

  function Head(e: Entry): Record
    requires |e.commits| > 0
  {
    e.commits[|e.commits| - 1].record
  }

  // ---------------------------------------------------------------------------------------------
  // The record that is published

  predicate Matches(proof: Proof, current: Container) {
    proof.id == current.id && proof.startedAt == current.startedAt && proof.signature == current.signature
  }

  predicate Qualified(folder: Folder, current: Container) {
    && folder.proof.Some? && folder.proof.value.passed && folder.result.Some? && folder.result.value.passed
    && Matches(folder.proof.value, current) && folder.proof.value.result == folder.result.value
  }

  /** What the owner reviewed describes what was qualified, and claims no more than that. */
  predicate Describes(plan: Plan, which: Version, base: Record, folder: Folder, current: Container) {
    && folder.result.Some? && base.worker == plan.worker && base.contract == folder.result.value.contract
    && (which.Candidate? ==>
          && base.recipe == plan.recipe
          && (current.image != plan.image ==> base.versions.None?)
          && base.restoration == Restoration(Some(plan.recordRevision), false))
  }

  function Publishable(plan: Plan, which: Version, before: Record, op: OperationId, current: Container): Record {
    var base := if which.Candidate? then plan.candidate else before;
    base.(qualified := Some(current), evidence := base.evidence + [op],
          operation := Some(Publication(op, which, plan.recordRevision)))
  }

  // ---------------------------------------------------------------------------------------------
  // The owner

  /** What the owner does to a record with an editor and with git, short of rewriting its history. */
  datatype OwnerAct = Edit(record: Record) | Stage(record: Record) | CommitStaged

  function Act(e: Entry, act: OwnerAct): Entry {
    match act
    case Edit(record) => e.(work := record)
    case Stage(record) => e.(index := record)
    case CommitStaged => e.(commits := e.commits + [Commit(e.index, None)])
  }

  function Acts(e: Entry, acts: seq<OwnerAct>): Entry {
    if acts == [] then e else Act(Acts(e, acts[..|acts| - 1]), acts[|acts| - 1])
  }

  /** What the file holds after these acts: the last edit, if there is one. */
  function LastEdit(work: Record, acts: seq<OwnerAct>): Record {
    if acts == [] then work
    else if acts[|acts| - 1].Edit? then acts[|acts| - 1].record
    else LastEdit(work, acts[..|acts| - 1])
  }

  predicate NoCommit(acts: seq<OwnerAct>) {
    forall act <- acts :: !act.CommitStaged?
  }

  lemma {:induction false} FileAfter(e: Entry, acts: seq<OwnerAct>)
    ensures Acts(e, acts).work == LastEdit(e.work, acts)
    decreases |acts|
  {
    if acts != [] {
      FileAfter(e, acts[..|acts| - 1]);
    }
  }

  lemma {:induction false} HistoryStays(e: Entry, acts: seq<OwnerAct>)
    requires NoCommit(acts)
    ensures Acts(e, acts).commits == e.commits
    decreases |acts|
  {
    if acts != [] {
      HistoryStays(e, acts[..|acts| - 1]);
    }
  }

  /** `later` is `earlier` with versions of the owner added. */
  ghost predicate Grown(earlier: seq<Commit>, later: seq<Commit>) {
    && |earlier| <= |later| && later[..|earlier|] == earlier
    && forall k :: |earlier| <= k < |later| ==> later[k].publisher.None?
  }

  lemma GrownMore(a: seq<Commit>, b: seq<Commit>, c: Commit)
    requires Grown(a, b) && c.publisher.None?
    ensures Grown(a, b + [c])
  {
  }

  lemma GrownTwice(a: seq<Commit>, b: seq<Commit>, c: seq<Commit>)
    requires Grown(a, b) && Grown(b, c)
    ensures Grown(a, c)
  {
    assert c[..|a|] == b[..|a|] by {
      assert forall k :: 0 <= k < |a| ==> c[k] == c[..|b|][k];
    }
  }

  lemma {:induction false} HistoryGrows(e: Entry, acts: seq<OwnerAct>)
    ensures Grown(e.commits, Acts(e, acts).commits)
    decreases |acts|
  {
    if acts != [] {
      var most := Acts(e, acts[..|acts| - 1]);
      HistoryGrows(e, acts[..|acts| - 1]);
      GrownMore(e.commits, most.commits, Commit(most.index, None));
    }
  }

  // ---------------------------------------------------------------------------------------------
  // One publication among the owner's acts

  /** What is to be published, and what it rests on. */
  datatype Job = Job(
    op: OperationId, plan: Plan, which: Version, before: Record, after: Record, proof: Option<Proof>, container: Container)

  /** What the owner does just before each look at, or change of, the record. */
  datatype Schedule = Schedule(
    copy: seq<OwnerAct>, compare: seq<OwnerAct>, status: seq<OwnerAct>, replace: seq<OwnerAct>,
    stage: seq<OwnerAct>, commit: seq<OwnerAct>, show: seq<OwnerAct>, read: seq<OwnerAct>)

  /** A publication, what the owner did meanwhile, and the record as it was when the publication began. */
  datatype Run = Run(job: Job, owner: Schedule, start: Entry)
  {
    function AtCopy(): Entry {
      Acts(start, owner.copy)
    }

    function AtCompare(): Entry {
      Acts(AtCopy(), owner.compare)
    }

    function AtStatus(): Entry {
      Acts(AtCompare(), owner.status)
    }

    function AtReplace(): Entry {
      Acts(AtStatus(), owner.replace)
    }

    function AtStage(): Entry {
      Acts(AtReplace().(work := job.after), owner.stage)
    }

    function AtCommit(): Entry {
      Acts(AtStage().(index := AtStage().work), owner.commit)
    }

    /** `git commit --only` takes the file as it is, whatever is staged. */
    function Committed(): Entry {
      var e := AtCommit();
      e.(index := e.work, commits := e.commits + [Commit(e.work, Some(job.op))])
    }

    function AtShow(): Entry {
      Acts(Committed(), owner.show)
    }

    function AtRead(): Entry {
      Acts(AtShow(), owner.read)
    }

    /** The record after so many steps of the publication. */
    function EntryAfter(steps: nat): Entry {
      if steps < 2 then start
      else if steps < 6 then AtCopy()
      else if steps == 6 then AtCompare()
      else if steps == 7 then AtStatus()
      else if steps == 8 then AtReplace().(work := job.after)
      else if steps == 9 then AtStage().(index := AtStage().work)
      else if steps == 10 then Committed()
      else if steps == 11 then AtShow()
      else AtRead()
    }

    /** The operation's folder after so many steps: the predecessor is copied from the file. */
    function FolderAfter(steps: nat): Artifact {
      Artifact(
        if steps < 2 then None else Some(AtCopy().work),
        if steps < 3 then None else job.proof,
        if steps < 4 then None else Some(job.container),
        if steps < 5 then None else Some(job.after))
    }

    /** The first step whose comparison fails, or the receipt. */
    function LastStep(): nat {
      if AtCompare().work != job.before then 6
      else if !Clean(AtStatus()) then 7
      else if |AtShow().commits| == 0 || Head(AtShow()) != job.after then 11
      else if AtRead().work != job.after then 12
      else 13
    }

    function Steps(life: nat): nat {
      if life < LastStep() then life else LastStep()
    }

    /** At three moments the record is what the publication takes it to be: the file when the
        predecessor is copied, the last version and the file when the new version is committed. */
    predicate Intact() {
      && AtCopy().work == job.before && AtCommit().work == job.after
      && |AtCommit().commits| > 0 && Head(AtCommit()) == job.before
    }
  }

  /** The library after so many steps of a publication. */
  function Placed(lib: Library, w: Worker, run: Run, steps: nat): Library {
    Library(
      lib.entries[w := run.EntryAfter(steps)],
      if steps == 0 then lib.artifacts else lib.artifacts[run.job.op := run.FolderAfter(steps)])
  }

  /** The job rests on a passed check of exactly this container and claims no more than allowed. */
  predicate Warranted(digest: Digest, w: Worker, job: Job) {
    && job.after.worker == w
    && job.after.operation == Some(Publication(job.op, job.which, digest(job.before)))
    && job.after.qualified == Some(job.container) && job.op in job.after.evidence
    && job.proof.Some? && job.proof.value.passed && Matches(job.proof.value, job.container)
    && job.proof.value.result.passed && job.proof.value.result.contract == job.after.contract
    && job.after.restoration ==
         (if job.which.Candidate? then Restoration(Some(digest(job.before)), false) else job.before.restoration)
    && job.plan.approved && job.plan.recordRevision == digest(job.before)
    && job.after == Reviewed(job.plan, job.which, job.before).(
                      qualified := job.after.qualified, operation := job.after.operation,
                      evidence := Reviewed(job.plan, job.which, job.before).evidence + [job.op])
    && (job.which.Candidate? ==>
          job.after.recipe == job.plan.recipe && (job.container.image != job.plan.image ==> job.after.versions.None?))
  }

  /** The record the owner has reviewed with the plan: the prepared candidate, or the original's own. */
  function Reviewed(plan: Plan, which: Version, before: Record): Record {
    if which.Candidate? then plan.candidate else before
  }

  /** The history from the beginning of a publication to its commit. */
  lemma CommitGrows(run: Run)
    ensures Grown(run.start.commits, run.AtCommit().commits)
    ensures Grown(run.start.commits, run.AtReplace().commits) && Grown(run.AtReplace().commits, run.AtStage().commits)
    ensures Grown(run.AtStage().commits, run.AtCommit().commits)
    ensures Grown(run.start.commits, run.AtStatus().commits) && Grown(run.start.commits, run.AtCompare().commits)
    ensures Grown(run.start.commits, run.AtCopy().commits) && Grown(run.start.commits, run.AtStage().commits)
  {
    var o := run.owner;
    HistoryGrows(run.start, o.copy);
    HistoryGrows(run.AtCopy(), o.compare);
    HistoryGrows(run.AtCompare(), o.status);
    HistoryGrows(run.AtStatus(), o.replace);
    HistoryGrows(run.AtReplace().(work := run.job.after), o.stage);
    HistoryGrows(run.AtStage().(index := run.AtStage().work), o.commit);
    GrownTwice(run.start.commits, run.AtCopy().commits, run.AtCompare().commits);
    GrownTwice(run.start.commits, run.AtCompare().commits, run.AtStatus().commits);
    GrownTwice(run.start.commits, run.AtStatus().commits, run.AtReplace().commits);
    GrownTwice(run.start.commits, run.AtReplace().commits, run.AtStage().commits);
    GrownTwice(run.start.commits, run.AtStage().commits, run.AtCommit().commits);
  }

  /** Until the commit the owner alone adds versions. */
  lemma EntryGrows(run: Run, steps: nat)
    ensures steps < 10 ==> Grown(run.start.commits, run.EntryAfter(steps).commits)
    ensures steps >= 10 ==> Grown(run.Committed().commits, run.EntryAfter(steps).commits)
  {
    CommitGrows(run);
    HistoryGrows(run.Committed(), run.owner.show);
    HistoryGrows(run.AtShow(), run.owner.read);
    GrownTwice(run.Committed().commits, run.AtShow().commits, run.AtRead().commits);
  }

  // ---------------------------------------------------------------------------------------------
  // The chain

  /** A published version is the one its operation's folder holds, names its predecessor by digest, and
      the folder retains that predecessor. */
  ghost predicate Linked(digest: Digest, artifacts: map<OperationId, Artifact>, before: Record, c: Commit) {
    && c.publisher.Some? && c.publisher.value in artifacts
    && artifacts[c.publisher.value].published == Some(c.record)
    && artifacts[c.publisher.value].previous == Some(before)
    && c.record.operation.Some? && c.record.operation.value.previous == digest(before)
  }

  /** A published version is what some run from a clean record committed, after exactly the versions
      that run met, and the run's folder is complete. */
  ghost predicate FromRun(digest: Digest, artifacts: map<OperationId, Artifact>, runs: map<OperationId, Run>, w: Worker, commits: seq<Commit>, k: nat)
    requires k < |commits|
  {
    commits[k].publisher.Some? ==>
      var op := commits[k].publisher.value;
      && op in runs && op in artifacts
      && runs[op].job.op == op && Warranted(digest, w, runs[op].job)
      && Clean(runs[op].start) && runs[op].start.work == runs[op].job.before
      && commits[..k] == runs[op].AtCommit().commits && commits[k].record == runs[op].AtCommit().work
      && artifacts[op] == runs[op].FolderAfter(5)
  }

  ghost predicate History(digest: Digest, artifacts: map<OperationId, Artifact>, runs: map<OperationId, Run>, w: Worker, commits: seq<Commit>) {
    |commits| > 0 && forall k: nat :: k < |commits| ==> FromRun(digest, artifacts, runs, w, commits, k)
  }

  /** No operation has published twice, under one worker or under two. */
  ghost predicate PublishedOnce(entries: map<Worker, Entry>) {
    forall v <- entries, w <- entries, i: nat, k: nat ::
      i < |entries[v].commits| && k < |entries[w].commits| && entries[v].commits[i].publisher.Some? ==>
        entries[v].commits[i].publisher == entries[w].commits[k].publisher ==> v == w && i == k
  }

  /** `runs` remembers the publications; what the library holds can be read off it. */
  ghost predicate Sound(digest: Digest, lib: Library, runs: map<OperationId, Run>) {
    && (forall w <- lib.entries :: History(digest, lib.artifacts, runs, w, lib.entries[w].commits))
    && PublishedOnce(lib.entries)
  }

  ghost predicate Injective(digest: Digest) {
    forall a, b :: digest(a) == digest(b) ==> a == b
  }

  /** A published version is linked to the version before it exactly when the record was intact at the
      three moments that matter. */
  lemma LinkedIffIntact(digest: Digest, lib: Library, runs: map<OperationId, Run>, w: Worker, k: nat)
    requires Sound(digest, lib, runs) && Injective(digest) && w in lib.entries && k < |lib.entries[w].commits|
    requires lib.entries[w].commits[k].publisher.Some?
    ensures lib.entries[w].commits[k].publisher.value in runs && k > 0
    ensures runs[lib.entries[w].commits[k].publisher.value].Intact() <==>
              Linked(digest, lib.artifacts, lib.entries[w].commits[k - 1].record, lib.entries[w].commits[k])
  {
    var commits := lib.entries[w].commits;
    assert FromRun(digest, lib.artifacts, runs, w, commits, k);
    var run := runs[commits[k].publisher.value];
    CommitGrows(run);
    assert k == |run.AtCommit().commits| && commits[..k][k - 1] == commits[k - 1];
  }

  /** Whatever the owner did, a published version has a folder with the record that was to be published
      and with the passed check of the container this record names. */
  lemma EvidenceIsComplete(digest: Digest, lib: Library, runs: map<OperationId, Run>, w: Worker, k: nat)
    requires Sound(digest, lib, runs) && w in lib.entries && k < |lib.entries[w].commits|
    requires lib.entries[w].commits[k].publisher.Some?
    ensures
      var op := lib.entries[w].commits[k].publisher.value;
      && op in lib.artifacts && op in runs && lib.artifacts[op].published.Some?
      && var a, after := lib.artifacts[op], lib.artifacts[op].published.value;
         && after.qualified.Some? && a.container == after.qualified
         && a.proof.Some? && a.proof.value.passed && a.proof.value.id == after.qualified.value.id
         && a.proof.value.startedAt == after.qualified.value.startedAt
         && a.proof.value.signature == after.qualified.value.signature
         && a.proof.value.result.passed && a.proof.value.result.contract == after.contract
         && after.operation.Some? && after.operation.value.op == op && op in after.evidence
         && after.restoration == (if after.operation.value.outcome.Candidate?
                                  then Restoration(Some(after.operation.value.previous), false)
                                  else runs[op].start.work.restoration)
         && a.previous == Some(LastEdit(runs[op].start.work, runs[op].owner.copy))
         && after.operation.value.previous == runs[op].job.plan.recordRevision == digest(runs[op].start.work)
  {
    assert FromRun(digest, lib.artifacts, runs, w, lib.entries[w].commits, k);
    var run := runs[lib.entries[w].commits[k].publisher.value];
    FileAfter(run.start, run.owner.copy);
  }

  /** What is published is what the owner has approved with the plan, and nothing else: only the qualified
      container, one more piece of evidence and the operation are filled in. A candidate names the
      reviewed recipe, and claims no versions for an image that was not inspected. */
  lemma PublishedAsReviewed(digest: Digest, lib: Library, runs: map<OperationId, Run>, w: Worker, k: nat)
    requires Sound(digest, lib, runs) && w in lib.entries && k < |lib.entries[w].commits|
    requires lib.entries[w].commits[k].publisher.Some?
    ensures
      var op := lib.entries[w].commits[k].publisher.value;
      && op in lib.artifacts && op in runs && lib.artifacts[op].published.Some?
      && var after, plan := lib.artifacts[op].published.value, runs[op].job.plan;
         && plan.approved && after.operation.Some? && after.qualified.Some?
         && (after.operation.value.outcome.Candidate? ==>
               && after == plan.candidate.(qualified := after.qualified, operation := after.operation,
                                           evidence := plan.candidate.evidence + [op])
               && after.recipe == plan.recipe && (after.qualified.value.image != plan.image ==> after.versions.None?))
         && (after.operation.value.outcome.Previous? ==>
               after == runs[op].start.work.(qualified := after.qualified, operation := after.operation,
                                             evidence := runs[op].start.work.evidence + [op]))
  {
    assert FromRun(digest, lib.artifacts, runs, w, lib.entries[w].commits, k);
  }

  /** Following the digests back through intact publications gives one linear chain: the version a
      publication names can be nothing but the version before it, and its bytes are in the folder of the
      operation that replaced it. */
  lemma OnePredecessor(digest: Digest, lib: Library, runs: map<OperationId, Run>, w: Worker, k: nat, r: Record)
    requires Sound(digest, lib, runs) && Injective(digest) && w in lib.entries && k < |lib.entries[w].commits|
    requires
      var c := lib.entries[w].commits[k];
      && c.publisher.Some? && (c.publisher.value in runs ==> runs[c.publisher.value].Intact())
      && c.record.operation.Some? && c.record.operation.value.previous == digest(r)
    ensures k > 0 && r == lib.entries[w].commits[k - 1].record
    ensures
      var op := lib.entries[w].commits[k].publisher.value;
      op in lib.artifacts && lib.artifacts[op].previous == Some(r)
  {
    LinkedIffIntact(digest, lib, runs, w, k);
  }

  /** The folder retains the compared predecessor exactly when the owner's last edit before the copy, if
      any, put it there. */
  lemma RetainedIff(run: Run)
    requires run.start.work == run.job.before
    ensures run.FolderAfter(5).previous == Some(run.job.before) <==> LastEdit(run.job.before, run.owner.copy) == run.job.before
  {
    FileAfter(run.start, run.owner.copy);
  }

  /** The version that is committed is the owner's last edit between replacement and commit or, if there
      is none, the one that was written. */
  lemma CommittedIsLastEdit(run: Run)
    ensures run.AtCommit().work == LastEdit(LastEdit(run.job.after, run.owner.stage), run.owner.commit)
  {
    var written := run.AtReplace().(work := run.job.after);
    FileAfter(written, run.owner.stage);
    FileAfter(run.AtStage().(index := run.AtStage().work), run.owner.commit);
  }

  /** The owner has committed nothing from the beginning of the publication to its commit. */
  predicate CommittedNothing(o: Schedule) {
    && NoCommit(o.copy) && NoCommit(o.compare) && NoCommit(o.status) && NoCommit(o.replace)
    && NoCommit(o.stage) && NoCommit(o.commit)
  }

  lemma HistoryMet(run: Run)
    requires NoCommit(run.owner.copy) && NoCommit(run.owner.compare) && NoCommit(run.owner.status) && NoCommit(run.owner.replace)
    ensures run.AtReplace().commits == run.start.commits && run.AtStatus().commits == run.start.commits
    ensures NoCommit(run.owner.stage) ==> run.AtStage().commits == run.start.commits
    ensures CommittedNothing(run.owner) ==> run.AtCommit().commits == run.start.commits
  {
    HistoryStays(run.start, run.owner.copy);
    HistoryStays(run.AtCopy(), run.owner.compare);
    HistoryStays(run.AtCompare(), run.owner.status);
    HistoryStays(run.AtStatus(), run.owner.replace);
    if NoCommit(run.owner.stage) {
      HistoryStays(run.AtReplace().(work := run.job.after), run.owner.stage);
    }
    if CommittedNothing(run.owner) {
      HistoryStays(run.AtStage().(index := run.AtStage().work), run.owner.commit);
    }
  }

  /** For an owner who only edits and stages, it is a matter of the edits that stand at the copy and at
      the commit. */
  lemma IntactIff(run: Run)
    requires Clean(run.start) && run.start.work == run.job.before && CommittedNothing(run.owner)
    ensures run.Intact() <==>
              && LastEdit(run.job.before, run.owner.copy) == run.job.before
              && LastEdit(LastEdit(run.job.after, run.owner.stage), run.owner.commit) == run.job.after
  {
    HistoryMet(run);
    CommittedIsLastEdit(run);
    FileAfter(run.start, run.owner.copy);
  }

  /** The comparison with the committed bytes finds out exactly whether the version written was
      committed, unless the owner has committed after the publication. */
  lemma FinalComparison(run: Run)
    requires NoCommit(run.owner.show)
    ensures |run.AtShow().commits| > 0 && (Head(run.AtShow()) == run.job.after <==> run.AtCommit().work == run.job.after)
  {
    HistoryStays(run.Committed(), run.owner.show);
  }

  lemma NoActs(e: Entry)
    ensures Acts(e, []) == e
  {
  }

  lemma OneAct(e: Entry, act: OwnerAct)
    ensures Acts(e, [act]) == Act(e, act)
  {
    assert [act][..0] == [];
  }

  lemma MoreActs(e: Entry, acts: seq<OwnerAct>, act: OwnerAct)
    ensures Acts(e, acts + [act]) == Act(Acts(e, acts), act)
  {
    assert (acts + [act])[..|acts|] == acts;
  }

  /** An owner who leaves the record alone: it is published, and intact. */
  lemma LeftAlone(run: Run)
    requires run.owner == Schedule([], [], [], [], [], [], [], [])
    requires Clean(run.start) && run.start.work == run.job.before
    ensures run.Intact() && run.LastStep() == 13
    ensures run.EntryAfter(13) == Entry(run.job.after, run.job.after, run.start.commits + [Commit(run.job.after, Some(run.job.op))])
  {
    NoActs(run.start);
    NoActs(run.AtReplace().(work := run.job.after));
    NoActs(run.AtStage().(index := run.job.after));
    NoActs(run.Committed());
  }

  /** An edit that is there for the copy and undone before the last look. */
  function EditUndone(before: Record, other: Record): Schedule {
    Schedule([Edit(other)], [Edit(before)], [], [], [], [], [], [])
  }

  /** It passes every comparison, and the folder does not hold the predecessor. */
  lemma EditUndonePasses(run: Run, other: Record)
    requires run.owner == EditUndone(run.job.before, other) && other != run.job.before
    requires Clean(run.start) && run.start.work == run.job.before
    ensures run.LastStep() == 13 && !run.Intact() && run.FolderAfter(13).previous == Some(other)
    ensures run.EntryAfter(13) == Entry(run.job.after, run.job.after, run.start.commits + [Commit(run.job.after, Some(run.job.op))])
  {
    OneAct(run.start, Edit(other));
    OneAct(run.AtCopy(), Edit(run.job.before));
    assert run.AtCompare() == run.start;
    NoActs(run.start);
    NoActs(run.AtReplace().(work := run.job.after));
    NoActs(run.AtStage().(index := run.job.after));
    NoActs(run.Committed());
  }

  /** A version of the owner's own between the last look and the commit. */
  function CommittedBetween(other: Record): Schedule {
    Schedule([], [], [], [], [], [Stage(other), CommitStaged], [], [])
  }

  /** It passes every comparison, and the published version names another one than the last. */
  lemma CommittedBetweenPasses(run: Run, other: Record)
    requires run.owner == CommittedBetween(other) && other != run.job.before
    requires Clean(run.start) && run.start.work == run.job.before
    ensures run.LastStep() == 13 && !run.Intact()
    ensures run.EntryAfter(13) == Entry(run.job.after, run.job.after,
                                        run.start.commits + [Commit(other, None)] + [Commit(run.job.after, Some(run.job.op))])
  {
    var staged := run.AtStage().(index := run.job.after);
    NoActs(run.start);
    NoActs(run.AtReplace().(work := run.job.after));
    assert [Stage(other), CommitStaged] == [Stage(other)] + [CommitStaged];
    MoreActs(staged, [Stage(other)], CommitStaged);
    OneAct(staged, Stage(other));
    NoActs(run.Committed());
  }

  /** An edit that is there for the commit, and a later commit of what had been written. */
  function EditCommitted(after: Record, other: Record): Schedule {
    Schedule([], [], [], [], [], [Edit(other)], [Stage(after), CommitStaged] + [Edit(after)], [])
  }

  /** It passes every comparison, and the published version is not the one in the folder. */
  lemma EditCommittedPasses(run: Run, other: Record)
    requires run.owner == EditCommitted(run.job.after, other) && other != run.job.after
    requires Clean(run.start) && run.start.work == run.job.before
    ensures run.LastStep() == 13 && !run.Intact() && run.FolderAfter(13).published == Some(run.job.after)
    ensures run.EntryAfter(13) == Entry(run.job.after, run.job.after,
                                        run.start.commits + [Commit(other, Some(run.job.op))] + [Commit(run.job.after, None)])
  {
    var after := run.job.after;
    NoActs(run.start);
    NoActs(run.AtReplace().(work := after));
    OneAct(run.AtStage().(index := after), Edit(other));
    assert [Stage(after), CommitStaged] == [Stage(after)] + [CommitStaged];
    MoreActs(run.Committed(), [Stage(after), CommitStaged], Edit(after));
    MoreActs(run.Committed(), [Stage(after)], CommitStaged);
    OneAct(run.Committed(), Stage(after));
    NoActs(run.AtShow());
  }

  /** A record that is changed when the file is compared is left as the owner has it. */
  lemma ChangedIsRefused(run: Run, life: nat)
    requires run.start.work == run.job.before
    requires LastEdit(LastEdit(run.job.before, run.owner.copy), run.owner.compare) != run.job.before
    ensures run.Steps(life) <= 6
    ensures
      var copied := Acts(run.start, run.owner.copy);
      run.EntryAfter(run.Steps(life)) in {run.start, copied, Acts(copied, run.owner.compare)}
    ensures Grown(run.start.commits, run.EntryAfter(run.Steps(life)).commits)
  {
    FileAfter(run.start, run.owner.copy);
    FileAfter(run.AtCopy(), run.owner.compare);
    EntryGrows(run, run.Steps(life));
  }

  /** So is one that git does not report as unchanged right after. */
  lemma UncommittedIsRefused(run: Run, life: nat)
    requires
      var e := Acts(Acts(Acts(run.start, run.owner.copy), run.owner.compare), run.owner.status);
      e.work != e.index || |e.commits| == 0 || e.index != e.commits[|e.commits| - 1].record
    ensures run.Steps(life) <= 7
    ensures
      var compared := Acts(Acts(run.start, run.owner.copy), run.owner.compare);
      run.EntryAfter(run.Steps(life)) in {run.start, Acts(run.start, run.owner.copy), compared, Acts(compared, run.owner.status)}
    ensures Grown(run.start.commits, run.EntryAfter(run.Steps(life)).commits)
  {
    EntryGrows(run, run.Steps(life));
  }

  /** A publication changes the record, unless the record contained its own digest. */
  lemma PublicationChanges(plan: Plan, which: Version, before: Record, folder: Folder, current: Container, digest: Digest)
    requires Describes(plan, which, if which.Candidate? then plan.candidate else before, folder, current)
    requires plan.recordRevision == digest(before) && before.restoration.previous != Some(digest(before))
    ensures Publishable(plan, which, before, folder.op, current) != before
  {
    if which.Previous? {
      assert |Publishable(plan, which, before, folder.op, current).evidence| == |before.evidence| + 1;
    }
  }

  /** A replaced record whose version nobody has committed is not clean. */
  lemma ReplacedIsNotClean(run: Run, steps: nat)
    requires steps == 8 || (steps == 9 && run.owner.stage == [])
    requires NoCommit(run.owner.copy) && NoCommit(run.owner.compare) && NoCommit(run.owner.status) && NoCommit(run.owner.replace)
    requires Clean(run.start) && run.start.work == run.job.before && run.job.after != run.job.before
    ensures !Clean(run.EntryAfter(steps)) && run.EntryAfter(steps).work == run.job.after
    ensures run.EntryAfter(steps).commits == run.start.commits
    ensures steps == 9 ==> run.EntryAfter(steps).index == run.job.after
  {
    HistoryMet(run);
    NoActs(run.AtReplace().(work := run.job.after));
  }

  // ---------------------------------------------------------------------------------------------
  // What keeps the chain

  ghost predicate Unpublished(lib: Library, op: OperationId) {
    forall w <- lib.entries, k: nat :: k < |lib.entries[w].commits| ==> lib.entries[w].commits[k].publisher != Some(op)
  }

  /** Without a folder there is no publication. */
  lemma NoFolderNoPublication(digest: Digest, lib: Library, runs: map<OperationId, Run>, op: OperationId)
    requires Sound(digest, lib, runs) && op !in lib.artifacts
    ensures Unpublished(lib, op)
  {
    forall w <- lib.entries, k: nat | k < |lib.entries[w].commits|
      ensures lib.entries[w].commits[k].publisher != Some(op)
    {
      assert FromRun(digest, lib.artifacts, runs, w, lib.entries[w].commits, k);
    }
  }

  /** A folder nobody has published from may change freely. */
  lemma ArtifactKeeps(digest: Digest, lib: Library, runs: map<OperationId, Run>, op: OperationId, a: Artifact)
    requires Sound(digest, lib, runs) && Unpublished(lib, op)
    ensures Sound(digest, lib.(artifacts := lib.artifacts[op := a]), runs)
  {
    var t := lib.artifacts[op := a];
    forall w <- lib.entries ensures History(digest, t, runs, w, lib.entries[w].commits) {
      var commits := lib.entries[w].commits;
      assert History(digest, lib.artifacts, runs, w, commits);
      forall k: nat | k < |commits| ensures FromRun(digest, t, runs, w, commits, k) {
        assert FromRun(digest, lib.artifacts, runs, w, commits, k);
      }
    }
  }

  lemma RunKeeps(digest: Digest, lib: Library, runs: map<OperationId, Run>, run: Run)
    requires Sound(digest, lib, runs) && Unpublished(lib, run.job.op)
    ensures Sound(digest, lib, runs[run.job.op := run])
  {
    var t := runs[run.job.op := run];
    forall w <- lib.entries ensures History(digest, lib.artifacts, t, w, lib.entries[w].commits) {
      var commits := lib.entries[w].commits;
      assert History(digest, lib.artifacts, runs, w, commits);
      forall k: nat | k < |commits| ensures FromRun(digest, lib.artifacts, t, w, commits, k) {
        assert FromRun(digest, lib.artifacts, runs, w, commits, k);
      }
    }
  }

  lemma SamePrefix(a: seq<Commit>, b: seq<Commit>, k: nat)
    requires k <= |a| <= |b| && b[..|a|] == a
    ensures b[..k] == a[..k]
  {
    assert forall j :: 0 <= j < k ==> b[j] == b[..|a|][j];
  }

  lemma GrownHistory(digest: Digest, artifacts: map<OperationId, Artifact>, runs: map<OperationId, Run>, w: Worker, a: seq<Commit>, b: seq<Commit>)
    requires History(digest, artifacts, runs, w, a) && Grown(a, b)
    ensures History(digest, artifacts, runs, w, b)
  {
    forall k: nat | k < |b| ensures FromRun(digest, artifacts, runs, w, b, k) {
      if k < |a| {
        assert FromRun(digest, artifacts, runs, w, a, k);
        SamePrefix(a, b, k);
        assert b[k] == b[..|a|][k];
      }
    }
  }

  lemma GrownOnce(entries: map<Worker, Entry>, w: Worker, e: Entry)
    requires PublishedOnce(entries) && w in entries && Grown(entries[w].commits, e.commits)
    ensures PublishedOnce(entries[w := e])
  {
    var t := entries[w := e];
    forall i: nat | i < |e.commits| && e.commits[i].publisher.Some?
      ensures i < |entries[w].commits| && entries[w].commits[i] == e.commits[i]
    {
      assert i < |entries[w].commits| && e.commits[i] == e.commits[..|entries[w].commits|][i];
    }
    assert forall u <- t :: u != w ==> t[u] == entries[u];
  }

  /** The owner may do anything to a record short of rewriting its history. */
  lemma OwnerKeeps(digest: Digest, lib: Library, runs: map<OperationId, Run>, w: Worker, e: Entry)
    requires Sound(digest, lib, runs) && w in lib.entries && Grown(lib.entries[w].commits, e.commits)
    ensures Sound(digest, lib.(entries := lib.entries[w := e]), runs)
  {
    var t := lib.entries[w := e];
    GrownOnce(lib.entries, w, e);
    forall v <- t ensures History(digest, lib.artifacts, runs, v, t[v].commits) {
      assert History(digest, lib.artifacts, runs, v, lib.entries[v].commits);
      if v == w {
        GrownHistory(digest, lib.artifacts, runs, w, lib.entries[w].commits, e.commits);
      }
    }
  }

  lemma OneMoreOnce(entries: map<Worker, Entry>, w: Worker, e: Entry, c: Commit)
    requires PublishedOnce(entries) && w in entries && e.commits == entries[w].commits + [c]
    requires c.publisher.Some? ==> forall v <- entries, k: nat :: k < |entries[v].commits| ==> entries[v].commits[k].publisher != c.publisher
    ensures PublishedOnce(entries[w := e])
  {
  }

  lemma OneMoreHistory(digest: Digest, artifacts: map<OperationId, Artifact>, runs: map<OperationId, Run>, w: Worker, a: seq<Commit>, c: Commit)
    requires History(digest, artifacts, runs, w, a) && FromRun(digest, artifacts, runs, w, a + [c], |a|)
    ensures History(digest, artifacts, runs, w, a + [c])
  {
    forall k: nat | k < |a| + 1 ensures FromRun(digest, artifacts, runs, w, a + [c], k) {
      if k < |a| {
        assert FromRun(digest, artifacts, runs, w, a, k);
        SamePrefix(a, a + [c], k);
      }
    }
  }

  /** The commit of a publication adds one version, which is its run's. */
  lemma CommitKeeps(digest: Digest, lib: Library, runs: map<OperationId, Run>, w: Worker, run: Run)
    requires Sound(digest, lib, runs) && w in lib.entries && Unpublished(lib, run.job.op)
    requires run.job.op in lib.artifacts && lib.artifacts[run.job.op] == run.FolderAfter(5)
    requires run.job.op in runs && runs[run.job.op] == run && Warranted(digest, w, run.job)
    requires Clean(run.start) && run.start.work == run.job.before && lib.entries[w].commits == run.AtCommit().commits
    ensures Sound(digest, lib.(entries := lib.entries[w := run.Committed()]), runs)
  {
    var a, c := run.AtCommit().commits, Commit(run.AtCommit().work, Some(run.job.op));
    var t := lib.entries[w := run.Committed()];
    OneMoreOnce(lib.entries, w, run.Committed(), c);
    assert (a + [c])[..|a|] == a;
    forall v <- t ensures History(digest, lib.artifacts, runs, v, t[v].commits) {
      assert History(digest, lib.artifacts, runs, v, lib.entries[v].commits);
      if v == w {
        OneMoreHistory(digest, lib.artifacts, runs, w, a, c);
      }
    }
  }

  lemma LastOfMany(m: map<Worker, Entry>, w: Worker, a: Entry, b: Entry)
    ensures m[w := a][w := b] == m[w := b]
  {
  }

  lemma StillUnpublished(lib: Library, w: Worker, e: Entry, op: OperationId)
    requires Unpublished(lib, op) && w in lib.entries && Grown(lib.entries[w].commits, e.commits)
    ensures Unpublished(lib.(entries := lib.entries[w := e]), op)
  {
    forall k: nat | k < |e.commits| ensures e.commits[k].publisher != Some(op) {
      assert k < |lib.entries[w].commits| ==> e.commits[k] == e.commits[..|lib.entries[w].commits|][k];
    }
  }

  /** Once the folder is complete, only the record moves on. */
  lemma PlacedOn(lib: Library, w: Worker, run: Run, steps: nat, then': nat)
    requires steps >= 5 && then' >= 5
    ensures var t := Placed(lib, w, run, steps);
      w in t.entries && t.entries[w] == run.EntryAfter(steps)
      && t.(entries := t.entries[w := run.EntryAfter(then')]) == Placed(lib, w, run, then')
  {
    LastOfMany(lib.entries, w, run.EntryAfter(steps), run.EntryAfter(then'));
  }

  /** Wherever a publication ends, the chain holds. */
  lemma PlacedKeeps(digest: Digest, lib: Library, runs: map<OperationId, Run>, w: Worker, run: Run, steps: nat)
    requires Sound(digest, lib, runs) && w in lib.entries && lib.entries[w] == run.start && Clean(run.start)
    requires run.job.op !in lib.artifacts && run.start.work == run.job.before && Warranted(digest, w, run.job)
    ensures Sound(digest, Placed(lib, w, run, steps), runs[run.job.op := run])
  {
    var op, rs := run.job.op, runs[run.job.op := run];
    NoFolderNoPublication(digest, lib, runs, op);
    RunKeeps(digest, lib, runs, run);
    ArtifactKeeps(digest, lib, rs, op, run.FolderAfter(steps));
    var l := if steps == 0 then lib else lib.(artifacts := lib.artifacts[op := run.FolderAfter(steps)]);
    EntryGrows(run, steps);
    if steps < 10 {
      OwnerKeeps(digest, l, rs, w, run.EntryAfter(steps));
    } else {
      CommitGrows(run);
      OwnerKeeps(digest, l, rs, w, run.AtCommit());
      StillUnpublished(l, w, run.AtCommit(), op);
      var m := l.(entries := l.entries[w := run.AtCommit()]);
      CommitKeeps(digest, m, rs, w, run);
      OwnerKeeps(digest, m.(entries := m.entries[w := run.Committed()]), rs, w, run.EntryAfter(steps));
      LastOfMany(l.entries, w, run.AtCommit(), run.Committed());
      LastOfMany(l.entries, w, run.Committed(), run.EntryAfter(steps));
    }
  }

  // ---------------------------------------------------------------------------------------------
  // The publisher

  predicate Approved(plan: Plan, lib: Library, digest: Digest) {
    && plan.worker in lib.entries && digest(lib.entries[plan.worker].work) == plan.recordRevision
    && Clean(lib.entries[plan.worker])
  }

  /** Everything that is established before anything is written. */
  predicate Publishing(plan: Plan, folder: Folder, which: Version, current: Container, lib: Library, digest: Digest) {
    && Approved(plan, lib, digest) && folder.op !in lib.artifacts && plan.approved && Qualified(folder, current)
    && Describes(plan, which, if which.Candidate? then plan.candidate else lib.entries[plan.worker].work, folder, current)
  }

  /** Nothing else is asked for: a clean record of the planned revision, a plan the owner has approved, a
      folder of its own, a passed check of exactly this container, and a record that describes it. */
  lemma ReadyIsPublished(plan: Plan, folder: Folder, which: Version, current: Container, lib: Library, digest: Digest)
    requires plan.worker in lib.entries && !Unready(lib.entries[plan.worker], plan.recordRevision, digest)
    requires plan.approved && folder.op !in lib.artifacts
    requires
      && folder.proof.Some? && folder.proof.value.passed && folder.result == Some(folder.proof.value.result)
      && folder.proof.value.result.passed && folder.proof.value.id == current.id
      && folder.proof.value.startedAt == current.startedAt && folder.proof.value.signature == current.signature
    requires
      var reviewed := Reviewed(plan, which, lib.entries[plan.worker].work);
      && reviewed.worker == plan.worker && reviewed.contract == folder.proof.value.result.contract
      && (which.Candidate? ==>
            && reviewed.recipe == plan.recipe && (reviewed.versions.None? || current.image == plan.image)
            && reviewed.restoration == Restoration(Some(plan.recordRevision), false))
    ensures Publishing(plan, folder, which, current, lib, digest)
  {
  }

  function JobOf(plan: Plan, folder: Folder, which: Version, current: Container, before: Record): Job {
    Job(folder.op, plan, which, before, Publishable(plan, which, before, folder.op, current), folder.proof, current)
  }

  lemma JobIsWarranted(plan: Plan, folder: Folder, which: Version, current: Container, lib: Library, digest: Digest)
    requires Publishing(plan, folder, which, current, lib, digest)
    ensures Warranted(digest, plan.worker, JobOf(plan, folder, which, current, lib.entries[plan.worker].work))
  {
  }

  /** The record is not committed, is edited or staged, or is not the planned revision. */
  predicate Unready(e: Entry, revision: Revision, digest: Digest) {
    || e.commits == [] || e.work != e.commits[|e.commits| - 1].record || e.index != e.work || digest(e.work) != revision
  }

  /** What the owner does until the last look leaves another record in the file, or something that git
      reports. */
  predicate ChangedMeanwhile(e: Entry, o: Schedule) {
    || LastEdit(LastEdit(e.work, o.copy), o.compare) != e.work
    || var t := Acts(Acts(Acts(e, o.copy), o.compare), o.status);
       t.commits == [] || t.work != t.index || t.index != t.commits[|t.commits| - 1].record
  }

  /** What the owner's acts alone make of the record, up to the last look. */
  function LeftByOwner(e: Entry, o: Schedule): set<Entry> {
    var copied := Acts(e, o.copy);
    var compared := Acts(copied, o.compare);
    {e, copied, compared, Acts(compared, o.status)}
  }

  /** Whatever the owner changed by the last look stays as it is, and nothing is published. */
  lemma SeenInTime(lib: Library, w: Worker, run: Run, life: nat)
    requires w in lib.entries && lib.entries[w] == run.start && run.start.work == run.job.before && Unpublished(lib, run.job.op)
    ensures ChangedMeanwhile(run.start, run.owner) ==>
              && run.Steps(life) <= 7 && run.EntryAfter(run.Steps(life)) in LeftByOwner(run.start, run.owner)
              && Unpublished(Placed(lib, w, run, run.Steps(life)), run.job.op)
  {
    if ChangedMeanwhile(run.start, run.owner) {
      if LastEdit(LastEdit(run.job.before, run.owner.copy), run.owner.compare) != run.job.before {
        ChangedIsRefused(run, life);
      } else {
        UncommittedIsRefused(run, life);
      }
      StillUnpublished(lib, w, run.EntryAfter(run.Steps(life)), run.job.op);
    }
  }

  lemma DoneMeansCommitted(run: Run)
    ensures run.LastStep() == 13 ==> run.EntryAfter(13).work == run.job.after
    ensures run.LastStep() == 13 && NoCommit(run.owner.read) ==>
              var commits := run.EntryAfter(13).commits;
              |commits| > 0 && commits[|commits| - 1].record == run.job.after
  {
    if NoCommit(run.owner.read) {
      HistoryStays(run.AtShow(), run.owner.read);
    }
  }

  class Publisher {
    const digest: Digest
    var lib: Library
    ghost var runs: map<OperationId, Run>

    constructor (digest: Digest, records: map<Worker, Record>)
      ensures this.digest == digest && Sound(digest, lib, runs) && lib.artifacts == map[]
      ensures forall w :: w in records <==> w in lib.entries
      ensures forall w <- records :: Clean(lib.entries[w]) && lib.entries[w].work == records[w]
    {
      this.digest := digest;
      lib := Library(map w | w in records :: Entry(records[w], records[w], [Commit(records[w], None)]), map[]);
      runs := map[];
    }

    /** The owner edits, stages and commits a record in any way. */
    method Owner(w: Worker, acts: seq<OwnerAct>)
      requires w in lib.entries
      modifies this`lib
      ensures lib == old(lib).(entries := old(lib.entries)[w := Acts(old(lib.entries)[w], acts)])
    {
      var e := lib.entries[w];
      for i := 0 to |acts|
        invariant e == Acts(lib.entries[w], acts[..i])
      {
        assert acts[..i + 1][..i] == acts[..i];
        e := Act(e, acts[i]);
      }
      assert acts[..|acts|] == acts;
      lib := lib.(entries := lib.entries[w := e]);
    }

    /** Fill in one more part of the operation's own folder. */
    method Archive(op: OperationId, a: Artifact)
      modifies this`lib
      ensures lib == old(lib).(artifacts := old(lib.artifacts)[op := a])
    {
      lib := lib.(artifacts := lib.artifacts[op := a]);
    }

    /** Make the operation's folder and copy the record file into it. The process lives to make `life`
        steps of the publication. */
    method CopyPrevious(w: Worker, job: Job, owner: Schedule, life: nat) returns (o: Outcome<()>)
      requires w in lib.entries
      modifies this`lib
      ensures
        var run := Run(job, owner, old(lib.entries)[w]);
        lib == Placed(old(lib), w, run, if life < 2 then life else 2)
      ensures o.Done? <==> life >= 2
    {
      if life == 0 {
        o := Lose(Unconfirmed);
        return;
      }
      Archive(job.op, Artifact(None, None, None, None));
      if life == 1 {
        o := Lose(Unconfirmed);
        return;
      }
      Owner(w, owner.copy);
      Archive(job.op, Artifact(Some(lib.entries[w].work), None, None, None));
      o := Done(());
    }

    /** Copy the evidence into the folder, and write down the record to be published. */
    method Collect(w: Worker, job: Job, owner: Schedule, life: nat) returns (o: Outcome<()>)
      requires w in lib.entries
      modifies this`lib
      ensures
        var run := Run(job, owner, old(lib.entries)[w]);
        lib == Placed(old(lib), w, run, if life < 5 then life else 5)
      ensures o.Done? <==> life >= 5
    {
      var _ :- CopyPrevious(w, job, owner, life);
      var a := lib.artifacts[job.op];
      if life == 2 {
        o := Lose(Unconfirmed);
        return;
      }
      a := a.(proof := job.proof);
      Archive(job.op, a);
      if life == 3 {
        o := Lose(Unconfirmed);
        return;
      }
      a := a.(container := Some(job.container));
      Archive(job.op, a);
      if life == 4 {
        o := Lose(Unconfirmed);
        return;
      }
      a := a.(published := Some(job.after));
      Archive(job.op, a);
      o := Done(());
    }

    /** The last look at the record before it is replaced: the file, then what git says about it. */
    method LastLook(w: Worker, job: Job, owner: Schedule, life: nat, ghost first: Library, ghost run: Run) returns (o: Outcome<()>)
      requires run.job == job && run.owner == owner && life >= 5 && lib == Placed(first, w, run, 5)
      modifies this`lib
      ensures lib == Placed(first, w, run, if run.Steps(life) < 7 then run.Steps(life) else 7)
      ensures o.Done? <==> life >= 7 && run.LastStep() > 7
    {
      PlacedOn(first, w, run, 5, 6);
      PlacedOn(first, w, run, 6, 7);
      if life == 5 {
        o := Lose(Unconfirmed);
        return;
      }
      Owner(w, owner.compare);
      if lib.entries[w].work != job.before {
        o := Lose(Refused);
        return;
      }
      if life == 6 {
        o := Lose(Unconfirmed);
        return;
      }
      Owner(w, owner.status);
      if Clean(lib.entries[w]) {
        o := Done(());
      } else {
        o := Lose(Refused);
      }
    }

    /** Write the record over the file. */
    method Replace(w: Worker, job: Job, owner: Schedule, ghost first: Library, ghost run: Run)
      requires run.job == job && run.owner == owner && lib == Placed(first, w, run, 7)
      modifies this`lib
      ensures lib == Placed(first, w, run, 8)
    {
      PlacedOn(first, w, run, 7, 8);
      Owner(w, owner.replace);
      var e := lib.entries[w].(work := job.after);
      LastOfMany(first.entries, w, run.AtReplace(), e);
      LastOfMany(first.entries, w, run.AtStatus(), run.AtReplace());
      lib := lib.(entries := lib.entries[w := e]);
    }

    /** `git add` of the file. */
    method Add(w: Worker, job: Job, owner: Schedule, ghost first: Library, ghost run: Run)
      requires run.job == job && run.owner == owner && lib == Placed(first, w, run, 8)
      modifies this`lib
      ensures lib == Placed(first, w, run, 9)
    {
      PlacedOn(first, w, run, 8, 9);
      Owner(w, owner.stage);
      var e := lib.entries[w];
      e := e.(index := e.work);
      LastOfMany(first.entries, w, run.AtStage(), e);
      LastOfMany(first.entries, w, run.EntryAfter(8), run.AtStage());
      lib := lib.(entries := lib.entries[w := e]);
    }

    /** `git commit --only` of the file, as it is. */
    method CommitOnly(w: Worker, job: Job, owner: Schedule, ghost first: Library, ghost run: Run)
      requires run.job == job && run.owner == owner && lib == Placed(first, w, run, 9)
      modifies this`lib
      ensures lib == Placed(first, w, run, 10)
    {
      PlacedOn(first, w, run, 9, 10);
      Owner(w, owner.commit);
      var e := lib.entries[w];
      e := e.(index := e.work, commits := e.commits + [Commit(e.work, Some(job.op))]);
      LastOfMany(first.entries, w, run.AtCommit(), e);
      LastOfMany(first.entries, w, run.EntryAfter(9), run.AtCommit());
      lib := lib.(entries := lib.entries[w := e]);
    }

    /** Replace the file, stage it, commit it. */
    method ReplaceAndCommit(w: Worker, job: Job, owner: Schedule, life: nat, ghost first: Library, ghost run: Run) returns (o: Outcome<()>)
      requires run.job == job && run.owner == owner && lib == Placed(first, w, run, 7)
      requires life >= 7 && run.LastStep() > 7
      modifies this`lib
      ensures lib == Placed(first, w, run, if life < 10 then life else 10)
      ensures o.Done? <==> life >= 10
    {
      if life == 7 {
        o := Lose(Unconfirmed);
        return;
      }
      Replace(w, job, owner, first, run);
      if life == 8 {
        o := Lose(Unconfirmed);
        return;
      }
      Add(w, job, owner, first, run);
      if life == 9 {
        o := Lose(Unconfirmed);
        return;
      }
      CommitOnly(w, job, owner, first, run);
      o := Done(());
    }

    /** Compare what is now committed with what was to be published, then the file. */
    method Confirm(w: Worker, job: Job, owner: Schedule, life: nat, ghost first: Library, ghost run: Run) returns (o: Outcome<()>)
      requires run.job == job && run.owner == owner && lib == Placed(first, w, run, 10)
      requires life >= 10 && run.LastStep() > 7
      modifies this`lib
      ensures lib == Placed(first, w, run, run.Steps(life))
      ensures o.Done? <==> run.Steps(life) == 13
    {
      if life == 10 {
        o := Lose(Unconfirmed);
        return;
      }
      PlacedOn(first, w, run, 10, 11);
      Owner(w, owner.show);
      if |lib.entries[w].commits| == 0 || Head(lib.entries[w]) != job.after || life == 11 {
        o := Lose(Unconfirmed);
        return;
      }
      o := ReadBack(w, job, owner, life, first, run);
    }

    method ReadBack(w: Worker, job: Job, owner: Schedule, life: nat, ghost first: Library, ghost run: Run) returns (o: Outcome<()>)
      requires run.job == job && run.owner == owner && lib == Placed(first, w, run, 11)
      requires life >= 12 && run.LastStep() > 11
      modifies this`lib
      ensures lib == Placed(first, w, run, run.Steps(life))
      ensures o.Done? <==> run.Steps(life) == 13
    {
      PlacedOn(first, w, run, 11, 12);
      Owner(w, owner.read);
      if lib.entries[w].work != job.after || life == 12 {
        o := Lose(Unconfirmed);
      } else {
        o := Done(());
      }
    }

    /** The steps of `publish` that change something. */
    method Carry(w: Worker, job: Job, owner: Schedule, life: nat) returns (o: Outcome<()>)
      requires w in lib.entries
      modifies this`lib
      ensures
        var run := Run(job, owner, old(lib.entries)[w]);
        lib == Placed(old(lib), w, run, run.Steps(life)) && (o.Done? <==> run.Steps(life) == 13)
    {
      ghost var first, run := lib, Run(job, owner, lib.entries[w]);
      var _ :- Collect(w, job, owner, life);
      var _ :- LastLook(w, job, owner, life, first, run);
      var _ :- ReplaceAndCommit(w, job, owner, life, first, run);
      o := Confirm(w, job, owner, life, first, run);
    }

    /** `publish`, under the library's publication lock, with the owner's acts between its steps. The
        process lives to make `life` steps. */
    method Publish(plan: Plan, folder: Folder, which: Version, current: Container, owner: Schedule, life: nat)
      returns (o: Outcome<Receipt>)
      requires Sound(digest, lib, runs)
      modifies this
      ensures Sound(digest, lib, runs)
      ensures !Publishing(plan, folder, which, current, old(lib), digest) ==> !o.Done? && lib == old(lib)
      ensures Publishing(plan, folder, which, current, old(lib), digest) ==>
                var e := old(lib.entries)[plan.worker];
                var job := JobOf(plan, folder, which, current, e.work);
                var run := Run(job, owner, e);
                && lib == Placed(old(lib), plan.worker, run, run.Steps(life))
                && runs == old(runs)[folder.op := run]
                && (o.Done? <==> run.Steps(life) == 13)
                && (o.Done? ==> o.value == Receipt(folder.op, digest(job.after), plan.recordRevision))
      ensures plan.worker in old(lib.entries) && Unready(old(lib.entries)[plan.worker], plan.recordRevision, digest) ==>
                !o.Done? && lib == old(lib)
      ensures plan.worker in old(lib.entries) && ChangedMeanwhile(old(lib.entries)[plan.worker], owner) ==>
                && !o.Done? && plan.worker in lib.entries
                && lib.entries[plan.worker] in LeftByOwner(old(lib.entries)[plan.worker], owner)
                && (folder.op !in old(lib.artifacts) ==> Unpublished(lib, folder.op))
      ensures o.Done? ==>
                && plan.worker in old(lib.entries) && plan.worker in lib.entries
                && var e, t := old(lib.entries)[plan.worker], lib.entries[plan.worker];
                && t.work == Publishable(plan, which, e.work, folder.op, current)
                && (NoCommit(owner.read) ==> |t.commits| > 0 && t.commits[|t.commits| - 1].record == t.work)
    {
      if folder.op !in lib.artifacts {
        NoFolderNoPublication(digest, lib, runs, folder.op);
      }
      if !Approved(plan, lib, digest) {
        o := Lose(Refused);
        return;
      }
      var before := lib.entries[plan.worker].work;
      ghost var run := Run(JobOf(plan, folder, which, current, before), owner, lib.entries[plan.worker]);
      var base := if which.Candidate? then plan.candidate else before;
      if !Qualified(folder, current) || !Describes(plan, which, base, folder, current) || !plan.approved {
        o := Lose(Refused);
        return;
      }
      if folder.op in lib.artifacts {
        o := Lose(Refused);
        return;
      }
      SeenInTime(lib, plan.worker, run, life);
      DoneMeansCommitted(run);
      o := PublishReviewed(plan, folder, which, current, owner, life);
    }

    /** After everything that is checked before anything is written. */
    method PublishReviewed(plan: Plan, folder: Folder, which: Version, current: Container, owner: Schedule, life: nat)
      returns (o: Outcome<Receipt>)
      requires Sound(digest, lib, runs) && Publishing(plan, folder, which, current, lib, digest)
      modifies this
      ensures Sound(digest, lib, runs)
      ensures
        var e := old(lib.entries)[plan.worker];
        var job := JobOf(plan, folder, which, current, e.work);
        var run := Run(job, owner, e);
        && lib == Placed(old(lib), plan.worker, run, run.Steps(life))
        && runs == old(runs)[folder.op := run]
        && (o.Done? <==> run.Steps(life) == 13)
        && (o.Done? ==> o.value == Receipt(folder.op, digest(job.after), plan.recordRevision))
    {
      var before := lib.entries[plan.worker].work;
      var job := JobOf(plan, folder, which, current, before);
      ghost var run := Run(job, owner, lib.entries[plan.worker]);
      JobIsWarranted(plan, folder, which, current, lib, digest);
      PlacedKeeps(digest, lib, runs, plan.worker, run, run.Steps(life));
      runs := runs[folder.op := run];
      var _ :- Carry(plan.worker, job, owner, life);
      o := Done(Receipt(folder.op, digest(job.after), plan.recordRevision));
    }

    /** An owner's edit that is undone in time: the publication succeeds without its predecessor. */
    method RetainsAnEdit(plan: Plan, folder: Folder, which: Version, current: Container, other: Record)
      returns (o: Outcome<Receipt>)
      requires Sound(digest, lib, runs) && Publishing(plan, folder, which, current, lib, digest)
      requires other != lib.entries[plan.worker].work
      modifies this
      ensures Sound(digest, lib, runs) && o.Done? && plan.worker in lib.entries && folder.op in lib.artifacts
      ensures
        var before := old(lib.entries)[plan.worker].work;
        var after := Publishable(plan, which, before, folder.op, current);
        && lib.entries[plan.worker].commits == old(lib.entries)[plan.worker].commits + [Commit(after, Some(folder.op))]
        && lib.artifacts[folder.op].previous == Some(other)
    {
      var before := lib.entries[plan.worker].work;
      EditUndonePasses(Run(JobOf(plan, folder, which, current, before), EditUndone(before, other), lib.entries[plan.worker]), other);
      o := Publish(plan, folder, which, current, EditUndone(before, other), 13);
    }

    /** After a replacement that was not committed, or any other edit, no publication touches the
        worker's record, however many are tried, until the owner has reconciled it. */
    method UntilReconciled(w: Worker)
      requires Sound(digest, lib, runs) && w in lib.entries && !Clean(lib.entries[w])
      modifies this
      ensures Sound(digest, lib, runs) && w in lib.entries && lib.entries[w] == old(lib.entries)[w]
    {
      var attempts: nat :| 0 <= attempts;
      for _ := 0 to attempts
        invariant Sound(digest, lib, runs) && w in lib.entries && lib.entries[w] == old(lib.entries)[w]
      {
        var plan: Plan, folder: Folder, which: Version, current: Container := *, *, *, *;
        var owner: Schedule, life: nat := *, *;
        var _ := Publish(plan, folder, which, current, owner, life);
      }
    }

    /** A publication that ends between replacement and commit, and everything that is tried after it:
        the record stays as it was written, and nothing is committed. */
    method Interrupted(plan: Plan, folder: Folder, which: Version, current: Container, owner: Schedule, life: nat)
      requires Sound(digest, lib, runs) && Publishing(plan, folder, which, current, lib, digest)
      requires life == 8 || (life == 9 && owner.stage == [])
      requires NoCommit(owner.copy) && NoCommit(owner.compare) && NoCommit(owner.status) && NoCommit(owner.replace)
      requires
        var e := lib.entries[plan.worker];
        && e.work.restoration.previous != Some(digest(e.work))
        && Run(JobOf(plan, folder, which, current, e.work), owner, e).LastStep() > 7
      modifies this
      ensures Sound(digest, lib, runs) && plan.worker in lib.entries && !Clean(lib.entries[plan.worker])
      ensures
        var e := old(lib.entries)[plan.worker];
        && lib.entries[plan.worker].work == Publishable(plan, which, e.work, folder.op, current)
        && lib.entries[plan.worker].commits == e.commits
    {
      var e := lib.entries[plan.worker];
      ghost var run := Run(JobOf(plan, folder, which, current, e.work), owner, e);
      PublicationChanges(plan, which, e.work, folder, current, digest);
      ReplacedIsNotClean(run, life);
      var _ := Publish(plan, folder, which, current, owner, life);
      UntilReconciled(plan.worker);
    }

    /** Any number of publications, cut short anywhere, with the owner at work between them and between
        their steps. */
    method AnyRun()
      requires Sound(digest, lib, runs)
      modifies this
      ensures Sound(digest, lib, runs) && lib.entries.Keys == old(lib.entries.Keys)
    {
      var steps: nat :| 0 <= steps;
      for _ := 0 to steps
        invariant Sound(digest, lib, runs) && lib.entries.Keys == old(lib.entries.Keys)
      {
        if * {
          var w: Worker, acts: seq<OwnerAct> := *, *;
          if w in lib.entries {
            HistoryGrows(lib.entries[w], acts);
            OwnerKeeps(digest, lib, runs, w, Acts(lib.entries[w], acts));
            Owner(w, acts);
          }
        } else {
          var plan: Plan, folder: Folder, which: Version, current: Container := *, *, *, *;
          var owner: Schedule, life: nat := *, *;
          var _ := Publish(plan, folder, which, current, owner, life);
        }
      }
    }
  }
}
