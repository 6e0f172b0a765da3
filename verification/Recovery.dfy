/** The write-ahead journal shared by the four recovery adapters.

    A request is served under an exclusive file lock, so requests are handled one after another, but
    each of them may die at any point. The journal file is replaced atomically; a command leaves the
    adapter only after the receipt of its intent is in the file. */
module Recovery {
  import opened Effects

  type ActionId = string
  type Id = string
  type Digest = string

  datatype Kind = Docker | Systemd | Launchd | Omlx

  datatype Caller = Loginwindow | Runningboardd | Launchctl | Other(name: string)

  datatype Config = Config(
    kind: Kind, startStopped: bool, bootstrapRemoved: bool, retained: Option<Digest>, callers: set<Caller>)

  datatype Operation = Restart | Start | Bootstrap

  datatype Request =
    | RestartRequest(action: ActionId, instance: Option<Id>, machine: Id, profile: Digest, canary: bool, faultAfter: int)
    | StartRequest(action: ActionId, stoppedEpoch: Option<Id>, machine: Id, serviceProfile: Digest)
    | BootstrapRequest(action: ActionId, prior: Id, definition: Digest, canary: bool)
  {
    function Operation(): Operation {
      if RestartRequest? then Restart else if StartRequest? then Start else Bootstrap
    }
  }

  /** One native inspection of the service. */
  datatype Observation = Observation(
    active: bool, listener: bool, loaded: bool, stopped: bool,
    instance: Option<Id>, stoppedEpoch: Option<Id>,
    machine: Id, profile: Digest, serviceProfile: Digest, fault: Option<int>)

  datatype Status = ExactRemoval | ExactStop | Unestablished

  /** What the native log says about how a service went away. */
  datatype Removal = Removal(status: Status, complete: bool, omitted: nat, callers: seq<Caller>)

  datatype Basis = Seen(o: Observation) | Removed(r: Removal)

  datatype Receipt = Receipt(
    request: Request, operation: Operation,
    instance: Option<Id>, stoppedEpoch: Option<Id>, identity: Option<Id>, issued: bool)

  type History = map<ActionId, Receipt>

  /** The oMLX launcher has no restart of its own: it terminates the process and launches a new one. */
  datatype Verb = RestartIt | StartIt | BootstrapIt | TerminateIt | LaunchIt

  /** A command that left the adapter, with the observation it rests on. */
  datatype Command = Command(action: ActionId, verb: Verb, key: Option<Id>, basis: Basis)

  const CAPACITY: nat := 10000

  // ---------------------------------------------------------------------------------------------
  // When a request may be served

  predicate Enrolled(config: Config, request: Request) {
    match request
    case RestartRequest(_, _, _, _, canary, _) => config.kind.Omlx? ==> canary
    case StartRequest(_, _, _, _) => !config.kind.Docker? && (config.kind.Omlx? ==> config.startStopped)
    case BootstrapRequest(_, _, definition, _) =>
      config.kind.Launchd? && config.bootstrapRemoved && config.retained == Some(definition)
  }

  predicate FatalEvidence(request: Request, o: Observation)
    requires request.RestartRequest?
  {
    request.canary || (o.fault.Some? && o.fault.value >= request.faultAfter)
  }

  predicate CallerAllowed(config: Config, request: Request, r: Removal)
    requires request.BootstrapRequest? && |r.callers| == 1
  {
    var drill := request.canary && r.callers[0].Launchctl?;
    (r.status.ExactStop? ==> drill) && (r.callers[0] in config.callers || drill)
  }

  /** The observation is exactly the one the request was made for, and permits it. */
  predicate Permits(config: Config, request: Request, basis: Basis) {
    match request
    case RestartRequest(_, instance, machine, profile, _, _) =>
      && basis.Seen? && basis.o.active && basis.o.listener
      && basis.o.instance == instance && basis.o.machine == machine && basis.o.profile == profile
      && (config.kind.Omlx? || FatalEvidence(request, basis.o))
    case StartRequest(_, epoch, machine, serviceProfile) =>
      && basis.Seen? && !basis.o.active && !basis.o.listener && basis.o.stopped
      && (config.kind.Omlx? || basis.o.loaded)
      && basis.o.stoppedEpoch == epoch && basis.o.machine == machine && basis.o.serviceProfile == serviceProfile
    case BootstrapRequest(_, _, _, _) =>
      && basis.Removed? && !basis.r.status.Unestablished? && basis.r.complete && basis.r.omitted == 0
      && |basis.r.callers| == 1 && CallerAllowed(config, request, basis.r)
  }

  /** What identifies the thing a request acts on. */
  function Target(request: Request): Option<Id> {
    match request
    case RestartRequest(_, instance, _, _, _, _) => instance
    case StartRequest(_, epoch, _, _) => epoch
    case BootstrapRequest(_, prior, _, _) => Some(prior)
  }

  /** What a receipt says it acted on. */
  function Key(kind: Kind, receipt: Receipt): Option<Id> {
    if kind.Omlx? then receipt.identity
    else if receipt.operation.Start? then receipt.stoppedEpoch
    else receipt.instance
  }

  /** The check against earlier receipts, as each adapter makes it. */
  predicate AlreadyAttempted(kind: Kind, request: Request, history: History) {
    exists a <- history ::
      if kind.Omlx? then history[a].identity == Target(request)
      else match request.Operation()
        case Restart => history[a].instance == Target(request)
        case Start => history[a].operation.Start? && history[a].stoppedEpoch == Target(request)
        case Bootstrap => history[a].operation.Bootstrap? && history[a].instance == Target(request)
  }

  function Intent(kind: Kind, request: Request, basis: Basis): Receipt {
    match basis
    case Removed(_) => Receipt(request, request.Operation(), Target(request), None, None, false)
    case Seen(o) =>
      if kind.Omlx? then Receipt(request, request.Operation(), None, None, Target(request), false)
      else if kind.Docker? then Receipt(request, request.Operation(), o.instance, None, None, false)
      else Receipt(request, request.Operation(), o.instance, o.stoppedEpoch, None, false)
  }

  /** oMLX ends the old process first. */
  function Lead(kind: Kind, request: Request, basis: Basis): seq<Command> {
    if kind.Omlx? && request.RestartRequest? then [Command(request.action, TerminateIt, Target(request), basis)] else []
  }

  function Last(kind: Kind, request: Request, basis: Basis): Command {
    var verb :=
      match request.Operation()
      case Restart => if kind.Omlx? then LaunchIt else RestartIt
      case Start => if kind.Omlx? then LaunchIt else StartIt
      case Bootstrap => BootstrapIt;
    Command(request.action, verb, Target(request), basis)
  }

  /** The commands that serve a request, in order. */
  function Commands(kind: Kind, request: Request, basis: Basis): seq<Command> {
    Lead(kind, request, basis) + [Last(kind, request, basis)]
  }

  // ---------------------------------------------------------------------------------------------
  // What the journal and the commands have to do with each other

  /** A receipt that belongs to the request it was written for. */
  ghost predicate Recorded(config: Config, a: ActionId, receipt: Receipt) {
    && receipt.request.action == a && receipt.operation == receipt.request.Operation()
    && Enrolled(config, receipt.request) && Key(config.kind, receipt) == Target(receipt.request)
  }

  /** A command with a durable receipt, issued on an observation that permits it. */
  ghost predicate Covered(config: Config, history: History, c: Command) {
    && c.action in history
    && c in Commands(config.kind, history[c.action].request, c.basis)
    && Permits(config, history[c.action].request, c.basis)
  }

  /** Two receipts never concern the same thing: for oMLX under any operation, otherwise under the
      same one. */
  predicate Distinct(kind: Kind, r: Receipt, other: Receipt) {
    Key(kind, r) == Key(kind, other) ==> !kind.Omlx? && r.operation != other.operation
  }

  ghost predicate Sound(config: Config, history: History, issued: seq<Command>) {
    && (forall a <- history :: Recorded(config, a, history[a]))
    && (forall a <- history, b <- history :: a != b ==> Distinct(config.kind, history[a], history[b]))
    && (forall c <- issued :: Covered(config, history, c))
    && NoneTwice(issued)
    && (forall a <- history :: history[a].issued ==> exists c <- issued :: c.action == a && !c.verb.TerminateIt?)
    && InTurn(history, issued)
  }

  ghost predicate NoneTwice(issued: seq<Command>) {
    forall i, j :: 0 <= i < j < |issued| ==> issued[i].action != issued[j].action || issued[i].verb != issued[j].verb
  }

  predicate Relaunches(history: History, c: Command) {
    c.verb.LaunchIt? && c.action in history && history[c.action].request.RestartRequest?
  }

  ghost predicate Ended(issued: seq<Command>, action: ActionId) {
    exists c <- issued :: c.action == action && c.verb.TerminateIt?
  }

  /** Before a process is launched again, the old one was asked to end. */
  ghost predicate InTurn(history: History, issued: seq<Command>) {
    forall j :: 0 <= j < |issued| && Relaunches(history, issued[j]) ==> Ended(issued[..j], issued[j].action)
  }

  /** Receipts are never dropped, and change only from intended to issued. */
  ghost predicate Kept(before: History, after: History) {
    forall a <- before :: a in after && after[a] in {before[a], before[a].(issued := true)}
  }

  /** Over everything an adapter ever issues, there is one restart per live instance, one start per
      stopped epoch and one bootstrap per removed instance; oMLX terminates and launches at most once
      per instance or epoch. */
  lemma OneCommandPerTarget(config: Config, history: History, issued: seq<Command>, i: nat, j: nat)
    requires Sound(config, history, issued)
    requires i < j < |issued|
    ensures issued[i].verb != issued[j].verb || issued[i].key != issued[j].key
  {
    var c, d := issued[i], issued[j];
    assert Covered(config, history, c) && Covered(config, history, d);
    var r, s := history[c.action], history[d.action];
    assert Recorded(config, c.action, r) && Recorded(config, d.action, s);
    assert c.action != d.action ==> Distinct(config.kind, r, s);
  }

  // ---------------------------------------------------------------------------------------------
  // What a command may be, stated for each verb

  /** A restart of the live instance the request names, which was inspected as the request describes it,
      on a canary's word or on fatal evidence. */
  predicate RestartsRightly(config: Config, request: Request, c: Command) {
    && request.RestartRequest? && c.key == request.instance && c.basis.Seen?
    && var o := c.basis.o;
    && o.active && o.listener && o.instance == request.instance
    && o.machine == request.machine && o.profile == request.profile
    && (request.canary || (!config.kind.Omlx? && o.fault.Some? && o.fault.value >= request.faultAfter))
  }

  /** A start after the stop the request names, of a service that does not run. */
  predicate StartsRightly(config: Config, request: Request, c: Command) {
    && request.StartRequest? && c.key == request.stoppedEpoch && c.basis.Seen?
    && var o := c.basis.o;
    && !o.active && !o.listener && o.stopped && o.stoppedEpoch == request.stoppedEpoch
    && o.machine == request.machine && o.serviceProfile == request.serviceProfile
    && (if config.kind.Omlx? then config.startStopped else o.loaded)
  }

  /** A bootstrap of the removed service the request names, from the enrolled definition, when the native
      log shows one allowed caller and nothing else. */
  predicate BootstrapsRightly(config: Config, request: Request, c: Command) {
    && request.BootstrapRequest? && c.key == Some(request.prior) && c.basis.Removed?
    && config.bootstrapRemoved && config.retained == Some(request.definition)
    && var r := c.basis.r;
    && (r.status.ExactRemoval? || r.status.ExactStop?) && r.complete && r.omitted == 0 && |r.callers| == 1
    && var drill := request.canary && r.callers[0].Launchctl?;
    && (drill || (r.status.ExactRemoval? && r.callers[0] in config.callers))
  }

  predicate Warranted(config: Config, request: Request, c: Command) {
    match c.verb
    case RestartIt => !config.kind.Omlx? && RestartsRightly(config, request, c)
    case StartIt => !config.kind.Omlx? && !config.kind.Docker? && StartsRightly(config, request, c)
    case BootstrapIt => config.kind.Launchd? && BootstrapsRightly(config, request, c)
    case TerminateIt => config.kind.Omlx? && RestartsRightly(config, request, c)
    case LaunchIt => config.kind.Omlx? && (RestartsRightly(config, request, c) || StartsRightly(config, request, c))
  }

  /** The adapter asks for neither more nor less than that. */
  lemma PermittedIffWarranted(config: Config, request: Request, basis: Basis)
    ensures Enrolled(config, request) && Permits(config, request, basis) <==>
              Warranted(config, request, Last(config.kind, request, basis))
  {
  }

  /** Every command that ever left an adapter is the one its request asks for, on evidence that permits it;
      a relaunch follows its termination. */
  lemma CommandsAreWarranted(config: Config, history: History, issued: seq<Command>, j: nat)
    requires Sound(config, history, issued) && j < |issued|
    ensures issued[j].action in history
    ensures
      var c, request := issued[j], history[issued[j].action].request;
      && Warranted(config, request, c)
      && (c.verb.RestartIt? <==> request.RestartRequest? && !config.kind.Omlx?)
      && (c.verb.StartIt? <==> request.StartRequest? && !config.kind.Omlx?)
      && (c.verb.BootstrapIt? <==> request.BootstrapRequest?)
      && (c.verb.LaunchIt? && request.RestartRequest? ==>
            exists i :: 0 <= i < j && issued[i].action == c.action && issued[i].verb.TerminateIt?)
  {
    var c := issued[j];
    assert Covered(config, history, c);
    assert Recorded(config, c.action, history[c.action]);
    if Relaunches(history, c) {
      var d :| d in issued[..j] && d.action == c.action && d.verb.TerminateIt?;
      var i :| 0 <= i < j && issued[..j][i] == d;
      assert issued[i] == d;
    }
  }

  /** What one request adds: commands of its own, all of them when it is answered. */
  lemma HandledIssues(config: Config, request: Request, before: History, after: History,
                      sent: seq<Command>, issued: seq<Command>, o: Outcome<Receipt>)
    requires Handled(config, request, before, after, sent, issued, o)
    ensures sent <= issued
    ensures forall j :: |sent| <= j < |issued| ==> issued[j].action == request.action && Warranted(config, request, issued[j])
    ensures o.Done? && request.action !in before ==>
              |issued| == |sent| + (if config.kind.Omlx? && request.RestartRequest? then 2 else 1)
  {
    forall j | |sent| <= j < |issued|
      ensures issued[j].action == request.action && Warranted(config, request, issued[j])
    {
      var basis :| Permits(config, request, basis) && Issued(sent, issued, Commands(config.kind, request, basis));
      NewOnesAreItsOwn(config.kind, request, basis, sent, issued, j);
      CommandsAreWarranted(config, after, issued, j);
    }
  }

  lemma NewOnesAreItsOwn(kind: Kind, request: Request, basis: Basis, sent: seq<Command>, issued: seq<Command>, j: nat)
    requires Issued(sent, issued, Commands(kind, request, basis)) && |sent| <= j < |issued|
    ensures issued[j].action == request.action
  {
    var more := issued[|sent|..];
    assert more[j - |sent|] == issued[j] == Commands(kind, request, basis)[j - |sent|];
  }

  /** A receipt for something no earlier receipt is about. */
  lemma RecordKeeps(config: Config, history: History, issued: seq<Command>, request: Request, basis: Basis)
    requires Sound(config, history, issued)
    requires request.action !in history && !AlreadyAttempted(config.kind, request, history)
    requires Enrolled(config, request) && Permits(config, request, basis)
    ensures var t := history[request.action := Intent(config.kind, request, basis)];
      Sound(config, t, issued) && Kept(history, t) && forall c <- issued :: c.action != request.action
  {
    var a, r := request.action, Intent(config.kind, request, basis);
    var t := history[a := r];
    forall c <- issued ensures Covered(config, t, c) && c.action != a {
      assert Covered(config, history, c);
    }
    forall b <- history ensures Distinct(config.kind, r, history[b]) && Distinct(config.kind, history[b], r) {
      assert Recorded(config, b, history[b]);
    }
    assert forall b <- t :: b != a ==> t[b] == history[b];
    assert Recorded(config, a, r);
  }

  lemma TurnKept(history: History, issued: seq<Command>, c: Command)
    requires InTurn(history, issued) && (Relaunches(history, c) ==> Ended(issued, c.action))
    ensures InTurn(history, issued + [c])
  {
    var t := issued + [c];
    forall j | 0 <= j < |t| && Relaunches(history, t[j]) ensures Ended(t[..j], t[j].action) {
      assert t[..j] == issued[..j];
      assert issued[..|issued|] == issued;
    }
  }

  lemma OnceMore(issued: seq<Command>, c: Command)
    requires NoneTwice(issued) && forall d <- issued :: d.action != c.action || d.verb != c.verb
    ensures NoneTwice(issued + [c]) && forall d :: d in issued + [c] <==> d in issued || d == c
  {
    var t := issued + [c];
    assert forall i :: 0 <= i < |issued| ==> t[i] == issued[i] && issued[i] in issued;
  }

  lemma IssueKeeps(config: Config, history: History, issued: seq<Command>, c: Command)
    requires Sound(config, history, issued) && Covered(config, history, c)
    requires forall d <- issued :: d.action != c.action || d.verb != c.verb
    requires Relaunches(history, c) ==> Ended(issued, c.action)
    ensures Sound(config, history, issued + [c])
  {
    var t := issued + [c];
    TurnKept(history, issued, c);
    OnceMore(issued, c);
    forall d <- t ensures Covered(config, history, d) {
      assert d == c || d in issued;
    }
  }

  lemma MarkKeeps(config: Config, history: History, issued: seq<Command>, c: Command)
    requires Sound(config, history, issued) && c in issued && !c.verb.TerminateIt?
    ensures c.action in history
    ensures var t := history[c.action := history[c.action].(issued := true)];
      Sound(config, t, issued) && Kept(history, t)
  {
    assert Covered(config, history, c);
    var t := history[c.action := history[c.action].(issued := true)];
    forall a <- t ensures Recorded(config, a, t[a]) {
      assert Recorded(config, a, history[a]);
    }
    forall a <- t, b <- t | a != b ensures Distinct(config.kind, t[a], t[b]) {
      assert Distinct(config.kind, history[a], history[b]);
    }
    forall d <- issued ensures Covered(config, t, d) {
      assert Covered(config, history, d);
    }
  }

  // ---------------------------------------------------------------------------------------------
  // What an adapter checks, and when

  datatype Act =
    | Looked(o: Observation) | Explained(r: Removal) | Enabled | Quiet | Gone | Free
    | Intended(request: Request, basis: Basis) | Sent(c: Command)

  /** What an adapter has seen and done, the latest last. */
  datatype Trail = Nothing | Then(before: Trail, act: Act)

  predicate Last1(t: Trail, a: Act) {
    t.Then? && t.act == a
  }

  predicate Last2(t: Trail, a: Act, b: Act) {
    Last1(t, b) && Last1(t.before, a)
  }

  predicate Last3(t: Trail, a: Act, b: Act, c: Act) {
    Last1(t, c) && Last2(t.before, a, b)
  }

  /** The checks right before the durable intent. */
  predicate MayIntend(kind: Kind, t: Trail, request: Request, basis: Basis) {
    match basis
    case Removed(r) => Last2(t, Explained(r), Enabled)
    case Seen(o) =>
      if kind.Launchd? then Last2(t, Looked(o), Enabled)
      else if kind.Omlx? && request.RestartRequest? then Last3(t, Looked(o), Quiet, Looked(o))
      else Last1(t, Looked(o))
  }

  /** The checks between the durable intent and the first command. */
  predicate Rechecked(kind: Kind, t: Trail, request: Request, basis: Basis) {
    if kind.Launchd? then Last2(t, Intended(request, basis), Enabled)
    else if kind.Omlx? then basis.Seen? && Last2(t, Intended(request, basis), Looked(basis.o))
    else Last1(t, Intended(request, basis))
  }

  /** What a launch of oMLX follows, besides the last check of all. */
  predicate MayLaunch(t: Trail, request: Request, basis: Basis) {
    if request.RestartRequest? then Last2(t, Sent(Command(request.action, TerminateIt, Target(request), basis)), Gone)
    else Rechecked(Omlx, t, request, basis)
  }

  /** The checks right before a command, back to the durable intent or to the command it follows. */
  predicate MaySend(kind: Kind, t: Trail, request: Request, c: Command) {
    if c.verb.LaunchIt? then Last1(t, Free) && MayLaunch(t.before, request, c.basis)
    else Rechecked(kind, t, request, c.basis)
  }

  /** Every intent and every command came right after the checks that it needs. */
  ghost predicate Guarded(kind: Kind, t: Trail) {
    t.Then? ==>
      && Guarded(kind, t.before)
      && match t.act
         case Intended(request, basis) => MayIntend(kind, t.before, request, basis)
         case Sent(c) => exists request: Request :: request.action == c.action && MaySend(kind, t.before, request, c)
         case _ => true
  }

  /** The acts before a command that is no launch, back to the first look. */
  predicate Checked(kind: Kind, t: Trail, request: Request, basis: Basis) {
    match kind
    case Docker => basis.Seen? ==> Last2(t, Looked(basis.o), Intended(request, basis))
    case Systemd => basis.Seen? ==> Last2(t, Looked(basis.o), Intended(request, basis))
    case Launchd =>
      && Last3(t, Enabled, Intended(request, basis), Enabled)
      && Last1(t.before.before.before, if basis.Seen? then Looked(basis.o) else Explained(basis.r))
    case Omlx =>
      && basis.Seen? && Last2(t, Intended(request, basis), Looked(basis.o))
      && if request.RestartRequest? then Last3(t.before.before, Looked(basis.o), Quiet, Looked(basis.o))
         else Last1(t.before.before, Looked(basis.o))
  }

  lemma GuardedBefore(kind: Kind, t: Trail)
    requires Guarded(kind, t) && t.Then?
    ensures Guarded(kind, t.before)
  {
  }

  lemma IntendedRightly(kind: Kind, t: Trail, request: Request, basis: Basis)
    requires Guarded(kind, t) && Last1(t, Intended(request, basis))
    ensures MayIntend(kind, t.before, request, basis)
  {
  }

  /** Every command but a launch comes after its durable intent, and that after the observation it rests
      on: launchd is found enabled on both sides of the intent, oMLX is looked at again after it and, to
      be restarted, twice around an idle server before it. */
  lemma CommandsFollowChecks(kind: Kind, t: Trail, c: Command)
    requires Guarded(kind, t) && Last1(t, Sent(c)) && !c.verb.LaunchIt?
    ensures exists request: Request :: request.action == c.action && Checked(kind, t.before, request, c.basis)
  {
    var request: Request :| request.action == c.action && MaySend(kind, t.before, request, c);
    GuardedBefore(kind, t);
    if kind.Launchd? || kind.Omlx? {
      GuardedBefore(kind, t.before);
      IntendedRightly(kind, t.before.before, request, c.basis);
    } else {
      IntendedRightly(kind, t.before, request, c.basis);
    }
    assert Checked(kind, t.before, request, c.basis);
  }

  /** A launch comes last of all after the port was found free, and that after the old process was asked
      to end and had gone or, of a stopped service, after the same checks. */
  lemma LaunchesFollowChecks(t: Trail, c: Command)
    requires Guarded(Omlx, t) && Last1(t, Sent(c)) && c.verb.LaunchIt?
    ensures Last1(t.before, Free)
    ensures exists request: Request :: request.action == c.action &&
              if request.RestartRequest? then
                Last2(t.before.before, Sent(Command(c.action, TerminateIt, request.instance, c.basis)), Gone)
              else Checked(Omlx, t.before.before, request, c.basis)
  {
    var request: Request :| request.action == c.action && MaySend(Omlx, t.before, request, c);
    var checked := t.before.before;
    if !request.RestartRequest? {
      GuardedBefore(Omlx, t);
      GuardedBefore(Omlx, t.before);
      GuardedBefore(Omlx, checked);
      IntendedRightly(Omlx, checked.before, request, c.basis);
      assert Checked(Omlx, checked, request, c.basis);
    }
  }

  class Adapter {
    const config: Config
    var history: History
    var staged: set<ActionId>
    var issued: seq<Command>
    ghost var acts: Trail

    constructor (config: Config)
      ensures Sound(config, history, issued) && this.config == config && history == map[] && issued == []
      ensures Guarded(config.kind, acts)
    {
      this.config, history, staged, issued := config, map[], {}, [];
      acts := Nothing;
    }

    /** An outside call; it may fail, and the process may die. */
    method Call() returns (o: Outcome<()>)
    {
      if * {
        o := Done(());
      } else {
        o := Lose(Unavailable);
      }
    }

    /** An outside check that succeeds, or an exception. */
    method Confirm(ghost a: Act) returns (o: Outcome<()>)
      requires Guarded(config.kind, acts) && !a.Intended? && !a.Sent?
      modifies this`acts
      ensures Guarded(config.kind, acts) && acts == if o.Done? then Then(old(acts), a) else old(acts)
    {
      var _ :- Call();
      acts := Then(acts, a);
      o := Done(());
    }

    method Inspect() returns (o: Outcome<Observation>)
      requires Guarded(config.kind, acts)
      modifies this`acts
      ensures Guarded(config.kind, acts) && acts == if o.Done? then Then(old(acts), Looked(o.value)) else old(acts)
    {
      var current: Observation := *;
      var _ :- Confirm(Looked(current));
      o := Done(current);
    }

    method InspectRemoval() returns (o: Outcome<Removal>)
      requires Guarded(config.kind, acts)
      modifies this`acts
      ensures Guarded(config.kind, acts) && acts == if o.Done? then Then(old(acts), Explained(o.value)) else old(acts)
    {
      var removal: Removal := *;
      var _ :- Confirm(Explained(removal));
      o := Done(removal);
    }

    /** `atomic_save` with a new intent: the old journal or the new one, never anything between. */
    method Record(request: Request, basis: Basis) returns (o: Outcome<()>)
      requires Sound(config, history, issued)
      requires request.action !in history && !AlreadyAttempted(config.kind, request, history)
      requires Enrolled(config, request) && Permits(config, request, basis)
      requires Guarded(config.kind, acts) && MayIntend(config.kind, acts, request, basis)
      modifies this`history, this`acts
      ensures Guarded(config.kind, acts) && (o.Done? ==> Last1(acts, Intended(request, basis)))
      ensures Sound(config, history, issued) && Kept(old(history), history)
      ensures history in {old(history), old(history)[request.action := Intent(config.kind, request, basis)]}
      ensures o.Done? ==> history == old(history)[request.action := Intent(config.kind, request, basis)]
      ensures o.Done? ==> forall c <- issued :: c.action != request.action
    {
      if * {
        return Died;
      }
      RecordKeeps(config, history, issued, request, basis);
      history := history[request.action := Intent(config.kind, request, basis)];
      acts := Then(acts, Intended(request, basis));
      o := Call();
    }

    /** The command may be carried out whether or not its caller learns of it. */
    method Issue(request: Request, c: Command) returns (o: Outcome<()>)
      requires Sound(config, history, issued) && Covered(config, history, c)
      requires forall d <- issued :: d.action != c.action || d.verb != c.verb
      requires Guarded(config.kind, acts) && request.action == c.action
      requires MaySend(config.kind, acts, request, c)
      requires Relaunches(history, c) ==> Ended(issued, c.action)
      modifies this`issued, this`acts
      ensures Guarded(config.kind, acts) && (o.Done? ==> acts == Then(old(acts), Sent(c)))
      ensures Sound(config, history, issued)
      ensures issued in {old(issued), old(issued) + [c]}
      ensures o.Done? ==> issued == old(issued) + [c]
    {
      if * {
        o := Lose(Unavailable);
        return;
      }
      IssueKeeps(config, history, issued, c);
      issued := issued + [c];
      acts := Then(acts, Sent(c));
      o := Call();
    }

    method Mark(c: Command) returns (o: Outcome<Receipt>)
      requires Sound(config, history, issued) && c in issued && !c.verb.TerminateIt?
      modifies this`history
      ensures Sound(config, history, issued) && Kept(old(history), history)
      ensures history.Keys == old(history.Keys) && c.action in old(history)
      ensures o.Done? ==> o.value == history[c.action] == old(history)[c.action].(issued := true)
    {
      MarkKeeps(config, history, issued, c);
      if * {
        return Died;
      }
      history := history[c.action := history[c.action].(issued := true)];
      var _ :- Call();
      o := Done(history[c.action]);
    }

    /** What an adapter checks once more between the durable intent and the first command. */
    method Recheck(request: Request, basis: Basis) returns (o: Outcome<()>)
      requires Guarded(config.kind, acts) && Last1(acts, Intended(request, basis))
      requires config.kind.Omlx? ==> basis.Seen?
      modifies this`acts
      ensures Guarded(config.kind, acts)
      ensures o.Done? ==> Rechecked(config.kind, acts, request, basis)
    {
      if config.kind.Launchd? {
        o := Confirm(Enabled);
      } else if config.kind.Omlx? {
        var current :- Inspect();
        o := if basis == Seen(current) then Done(()) else Raised(Refused);
      } else {
        o := Done(());
      }
    }

    /** oMLX only: end the old process and wait until it is gone. */
    method Terminate(request: Request, basis: Basis, patience: nat) returns (o: Outcome<()>)
      requires Sound(config, history, issued) && Guarded(config.kind, acts)
      requires config.kind.Omlx? && request.RestartRequest? && Permits(config, request, basis)
      requires request.action in history && history[request.action] == Intent(config.kind, request, basis)
      requires forall c <- issued :: c.action != request.action
      requires Rechecked(config.kind, acts, request, basis)
      modifies this`issued, this`acts
      ensures Sound(config, history, issued) && Guarded(config.kind, acts)
      ensures issued in {old(issued), old(issued) + Lead(config.kind, request, basis)}
      ensures o.Done? ==> issued == old(issued) + Lead(config.kind, request, basis)
      ensures o.Done? ==> Last2(acts, Sent(Lead(config.kind, request, basis)[0]), Gone)
    {
      ghost var before := acts;
      var c := Lead(config.kind, request, basis)[0];
      var _ :- Issue(request, c);
      for polls := 0 to patience
        invariant acts == Then(before, Sent(c))
      {
        var gone: bool := *;
        if gone {
          acts := Then(acts, Gone);
          return Done(());
        }
      }
      o := Raised(Refused);
    }

    /** The last command of a request, and the acknowledgement in the journal. */
    method Complete(request: Request, basis: Basis) returns (o: Outcome<Receipt>)
      requires Sound(config, history, issued) && Guarded(config.kind, acts)
      requires request.action in history && history[request.action] == Intent(config.kind, request, basis)
      requires Permits(config, request, basis)
      requires forall c <- issued :: c.action != request.action || c.verb != Last(config.kind, request, basis).verb
      requires MaySend(config.kind, acts, request, Last(config.kind, request, basis))
      requires config.kind.Omlx? && request.RestartRequest? ==> Ended(issued, request.action)
      modifies this`history, this`issued, this`acts
      ensures Sound(config, history, issued) && Kept(old(history), history) && history.Keys == old(history.Keys)
      ensures Guarded(config.kind, acts)
      ensures
        && issued in {old(issued), old(issued) + [Last(config.kind, request, basis)]}
        && (o.Done? ==> issued == old(issued) + [Last(config.kind, request, basis)])
      ensures o.Done? ==> o.value == history[request.action] == Intent(config.kind, request, basis).(issued := true)
    {
      var last := Last(config.kind, request, basis);
      var _ :- Issue(request, last);
      o := Mark(last);
    }

    /** Everything between the durable intent and the last command. */
    method Prepare(request: Request, basis: Basis, patience: nat) returns (o: Outcome<()>)
      requires Sound(config, history, issued) && Guarded(config.kind, acts)
      requires request.action in history && history[request.action] == Intent(config.kind, request, basis)
      requires Permits(config, request, basis) && Enrolled(config, request)
      requires forall c <- issued :: c.action != request.action
      requires Last1(acts, Intended(request, basis))
      modifies this`issued, this`acts
      ensures Sound(config, history, issued) && Guarded(config.kind, acts)
      ensures
        && issued in {old(issued), old(issued) + Lead(config.kind, request, basis)}
        && (o.Done? ==> issued == old(issued) + Lead(config.kind, request, basis))
      ensures o.Done? ==> MaySend(config.kind, acts, request, Last(config.kind, request, basis))
    {
      var _ :- Recheck(request, basis);
      if config.kind.Omlx? {
        o := MakeRoom(request, basis, patience);
      } else {
        o := Done(());
      }
    }

    /** oMLX only: the old process is gone, and its port is free. */
    method MakeRoom(request: Request, basis: Basis, patience: nat) returns (o: Outcome<()>)
      requires Sound(config, history, issued) && Guarded(config.kind, acts)
      requires config.kind.Omlx? && Permits(config, request, basis)
      requires request.action in history && history[request.action] == Intent(config.kind, request, basis)
      requires forall c <- issued :: c.action != request.action
      requires Rechecked(config.kind, acts, request, basis)
      modifies this`issued, this`acts
      ensures Sound(config, history, issued) && Guarded(config.kind, acts)
      ensures issued in {old(issued), old(issued) + Lead(config.kind, request, basis)}
      ensures o.Done? ==> issued == old(issued) + Lead(config.kind, request, basis)
      ensures o.Done? ==> MaySend(config.kind, acts, request, Last(config.kind, request, basis))
    {
      if request.RestartRequest? {
        var _ :- Terminate(request, basis, patience);
      }
      o := Confirm(Free);
    }

    /** What follows the durable intent. */
    method Carry(request: Request, basis: Basis, patience: nat) returns (o: Outcome<Receipt>)
      requires Sound(config, history, issued) && Guarded(config.kind, acts)
      requires request.action in history && history[request.action] == Intent(config.kind, request, basis)
      requires Permits(config, request, basis) && Enrolled(config, request)
      requires forall c <- issued :: c.action != request.action
      requires Last1(acts, Intended(request, basis))
      modifies this`history, this`issued, this`acts
      ensures Sound(config, history, issued) && Kept(old(history), history) && history.Keys == old(history.Keys)
      ensures Guarded(config.kind, acts)
      ensures Issued(old(issued), issued, Commands(config.kind, request, basis))
      ensures o.Done? ==> issued == old(issued) + Commands(config.kind, request, basis)
      ensures o.Done? ==> o.value == history[request.action] == Intent(config.kind, request, basis).(issued := true)
    {
      ghost var lead, last := Lead(config.kind, request, basis), Last(config.kind, request, basis);
      ghost var sent := issued;
      InOrder(sent, lead, last);
      var _ :- Prepare(request, basis, patience);
      assert forall c <- lead :: c.verb != last.verb;
      assert lead != [] ==> lead[0] in issued;
      o := Complete(request, basis);
    }

    /** A live or stopped service, as it is now. */
    method ServeCurrent(request: Request, patience: nat) returns (o: Outcome<Receipt>)
      requires Sound(config, history, issued) && Guarded(config.kind, acts)
      requires request.action !in history && Enrolled(config, request) && !request.BootstrapRequest?
      modifies this`history, this`issued, this`acts
      ensures Handled(config, request, old(history), history, old(issued), issued, o) && Guarded(config.kind, acts)
    {
      var current :- LookAt(request);
      if !Permits(config, request, Seen(current)) || AlreadyAttempted(config.kind, request, history) {
        o := Lose(Refused);
        return;
      }
      if config.kind.Launchd? {
        var _ :- Confirm(Enabled);
      }
      o := Attempt(request, Seen(current), patience);
    }

    /** One inspection, or for a restart of oMLX two equal ones around an idle server. */
    method LookAt(request: Request) returns (o: Outcome<Observation>)
      requires Guarded(config.kind, acts)
      modifies this`acts
      ensures Guarded(config.kind, acts)
      ensures o.Done? ==> (if config.kind.Omlx? && request.RestartRequest? then Last3(acts, Looked(o.value), Quiet, Looked(o.value)) else Last1(acts, Looked(o.value)))
    {
      var current :- Inspect();
      if config.kind.Omlx? && request.RestartRequest? {
        if !Permits(config, request, Seen(current)) {
          return Raised(Refused);
        }
        var _ :- Confirm(Quiet);
        var again :- Inspect();
        if again != current {
          return Raised(Refused);
        }
      }
      o := Done(current);
    }

    /** A service that is gone, and whose removal the native log explains. */
    method ServeRemoved(request: Request, patience: nat) returns (o: Outcome<Receipt>)
      requires Sound(config, history, issued) && Guarded(config.kind, acts)
      requires request.action !in history && request.BootstrapRequest? && config.kind.Launchd?
      modifies this
      ensures Handled(config, request, old(history), history, old(issued), issued, o) && Guarded(config.kind, acts)
      ensures staged in {old(staged), old(staged) + {request.action}}
      ensures issued != old(issued) ==> request.action in staged && request.action !in old(staged)
    {
      if !Enrolled(config, request) {
        o := Lose(Refused);
        return;
      }
      var removal :- InspectRemoval();
      if !Permits(config, request, Removed(removal)) || AlreadyAttempted(config.kind, request, history) {
        o := Lose(Refused);
        return;
      }
      o := StageAndAttempt(request, removal, patience);
    }

    /** The identity of what was removed, the staged definition, and the attempt. */
    method StageAndAttempt(request: Request, removal: Removal, patience: nat) returns (o: Outcome<Receipt>)
      requires Sound(config, history, issued) && Guarded(config.kind, acts)
      requires request.action !in history && request.BootstrapRequest? && Enrolled(config, request)
      requires Permits(config, request, Removed(removal)) && !AlreadyAttempted(config.kind, request, history)
      requires Last1(acts, Explained(removal))
      modifies this
      ensures Handled(config, request, old(history), history, old(issued), issued, o) && Guarded(config.kind, acts)
      ensures staged in {old(staged), old(staged) + {request.action}}
      ensures issued != old(issued) ==> request.action in staged && request.action !in old(staged)
    {
      var _ :- Confirm(Enabled);
      var _ :- Stage(request.action);
      o := Attempt(request, Removed(removal), patience);
    }

    /** An exclusive private copy of the definition; it stays for good. */
    method Stage(action: ActionId) returns (o: Outcome<()>)
      modifies this`staged
      ensures staged in {old(staged), old(staged) + {action}}
      ensures o.Done? ==> action in staged && action !in old(staged)
    {
      if action in staged {
        o := Lose(Refused);
      } else {
        if * {
          return Died;
        }
        staged := staged + {action};
        o := Call();
      }
    }

    /** The durable intent, and what follows it. */
    method Attempt(request: Request, basis: Basis, patience: nat) returns (o: Outcome<Receipt>)
      requires Sound(config, history, issued) && Guarded(config.kind, acts)
      requires request.action !in history && Enrolled(config, request) && Permits(config, request, basis)
      requires !AlreadyAttempted(config.kind, request, history)
      requires MayIntend(config.kind, acts, request, basis)
      modifies this`history, this`issued, this`acts
      ensures Handled(config, request, old(history), history, old(issued), issued, o) && Guarded(config.kind, acts)
    {
      ghost var before, sent := history, issued;
      o := RecordAndCarry(request, basis, patience);
      AttemptHandled(config, request, basis, before, history, sent, issued, o);
    }

    method RecordAndCarry(request: Request, basis: Basis, patience: nat) returns (o: Outcome<Receipt>)
      requires Sound(config, history, issued) && Guarded(config.kind, acts)
      requires request.action !in history && Enrolled(config, request) && Permits(config, request, basis)
      requires !AlreadyAttempted(config.kind, request, history)
      requires MayIntend(config.kind, acts, request, basis)
      modifies this`history, this`issued, this`acts
      ensures Sound(config, history, issued) && Guarded(config.kind, acts)
      ensures Attempted(config, request, basis, old(history), history, old(issued), issued, o)
    {
      ghost var before, sent := history, issued;
      InOrder(sent, Lead(config.kind, request, basis), Last(config.kind, request, basis));
      var recorded := Record(request, basis);
      assert Attempted(config, request, basis, before, history, sent, issued, Died);
      var _ :- recorded;
      ghost var between := history;
      o := Carry(request, basis, patience);
      CarriedOn(config, request, basis, before, between, history, sent, issued, o);
    }

    /** `handle`, from taking the lock to giving it back. */
    method Handle(request: Request, patience: nat) returns (o: Outcome<Receipt>)
      requires Sound(config, history, issued) && Guarded(config.kind, acts)
      modifies this
      ensures Handled(config, request, old(history), history, old(issued), issued, o) && Guarded(config.kind, acts)
      ensures old(issued) <= issued
      ensures forall j :: |old(issued)| <= j < |issued| ==>
        issued[j].action == request.action && Warranted(config, request, issued[j])
      ensures o.Done? && request.action !in old(history) ==>
        |issued| == |old(issued)| + (if config.kind.Omlx? && request.RestartRequest? then 2 else 1)
      ensures (config.kind.Launchd? || config.kind.Systemd?) && |old(history)| >= 10000 ==>
        history == old(history) && issued == old(issued)
      ensures request.BootstrapRequest? && issued != old(issued) ==> request.action in staged && request.action !in old(staged)
    {
      ghost var before, sent := history, issued;
      if config.kind.Launchd? && request.BootstrapRequest? {
        o := Answer(request, patience);
      } else if !Enrolled(config, request) {
        o := Lose(Refused);
      } else {
        o := Answer(request, patience);
      }
      HandledIssues(config, request, before, history, sent, issued, o);
    }

    method Answer(request: Request, patience: nat) returns (o: Outcome<Receipt>)
      requires Sound(config, history, issued) && Guarded(config.kind, acts)
      requires Enrolled(config, request) || (config.kind.Launchd? && request.BootstrapRequest?)
      modifies this
      ensures Handled(config, request, old(history), history, old(issued), issued, o) && Guarded(config.kind, acts)
      ensures (config.kind.Launchd? || config.kind.Systemd?) && |old(history)| >= 10000 ==>
        history == old(history) && issued == old(issued)
      ensures request.BootstrapRequest? && issued != old(issued) ==> request.action in staged && request.action !in old(staged)
    {
      var _ :- Call();
      if request.action in history {
        if history[request.action].request != request {
          o := Lose(Refused);
        } else {
          o := Done(history[request.action]);
        }
      } else if (config.kind.Launchd? || config.kind.Systemd?) && |history| >= CAPACITY {
        o := Lose(Refused);
      } else if request.BootstrapRequest? {
        o := ServeRemoved(request, patience);
      } else {
        o := ServeCurrent(request, patience);
      }
    }

    /** Any number of requests, each handled or cut short at any point. */
    method AnyRun()
      requires Sound(config, history, issued) && Guarded(config.kind, acts)
      modifies this
      ensures Sound(config, history, issued) && Kept(old(history), history) && old(issued) <= issued && Guarded(config.kind, acts)
      ensures forall i, j :: 0 <= i < j < |issued| ==> issued[i].verb != issued[j].verb || issued[i].key != issued[j].key
      ensures forall j :: 0 <= j < |issued| ==>
        issued[j].action in history && Warranted(config, history[issued[j].action].request, issued[j])
    {
      var requests: nat :| 0 <= requests;
      for _ := 0 to requests
        invariant Sound(config, history, issued) && Kept(old(history), history) && old(issued) <= issued && Guarded(config.kind, acts)
      {
        var request: Request := *;
        var patience: nat :| 0 <= patience;
        var _ := Handle(request, patience);
      }
      forall i, j | 0 <= i < j < |issued| ensures issued[i].verb != issued[j].verb || issued[i].key != issued[j].key {
        OneCommandPerTarget(config, history, issued, i, j);
      }
      forall j | 0 <= j < |issued|
        ensures issued[j].action in history && Warranted(config, history[issued[j].action].request, issued[j])
      {
        CommandsAreWarranted(config, history, issued, j);
      }
    }
  }

  /** A further part of the commands, in their order. */
  ghost predicate Issued(before: seq<Command>, after: seq<Command>, commands: seq<Command>) {
    before <= after && after[|before|..] <= commands
  }

  /** What an attempt on an established basis may have done. */
  ghost predicate Attempted(config: Config, request: Request, basis: Basis, before: History, after: History,
                            sent: seq<Command>, issued: seq<Command>, o: Outcome<Receipt>)
  {
    && Kept(before, after) && after.Keys <= before.Keys + {request.action}
    && (|| (after == before && issued == sent)
        || (&& request.action in after && after[request.action].request == request
            && Issued(sent, issued, Commands(config.kind, request, basis))))
    && (o.Done? ==>
          && request.action in after && o.value == after[request.action] && o.value.issued
          && issued == sent + Commands(config.kind, request, basis))
  }

  lemma CarriedOn(config: Config, request: Request, basis: Basis, before: History, between: History, after: History,
                  sent: seq<Command>, issued: seq<Command>, o: Outcome<Receipt>)
    requires request.action !in before && between == before[request.action := Intent(config.kind, request, basis)]
    requires Kept(between, after) && after.Keys == between.Keys
    requires Issued(sent, issued, Commands(config.kind, request, basis))
    requires o.Done? ==> issued == sent + Commands(config.kind, request, basis)
    requires o.Done? ==> o.value == after[request.action] == Intent(config.kind, request, basis).(issued := true)
    ensures Attempted(config, request, basis, before, after, sent, issued, o)
  {
    forall a <- before ensures a in after && after[a] in {before[a], before[a].(issued := true)} {
      assert between[a] == before[a];
    }
    assert after[request.action].request == request;
  }

  lemma AttemptHandled(config: Config, request: Request, basis: Basis, before: History, after: History,
                       sent: seq<Command>, issued: seq<Command>, o: Outcome<Receipt>)
    requires Sound(config, after, issued) && Permits(config, request, basis)
    requires request.action !in before && !AlreadyAttempted(config.kind, request, before)
    requires Attempted(config, request, basis, before, after, sent, issued, o)
    ensures Handled(config, request, before, after, sent, issued, o)
  {
  }

  lemma InOrder(before: seq<Command>, lead: seq<Command>, last: Command)
    ensures Issued(before, before, lead + [last])
    ensures Issued(before, before + lead, lead + [last])
    ensures Issued(before, before + lead + [last], lead + [last])
    ensures before + lead + [last] == before + (lead + [last])
  {
  }

  /** What one request may have done when its handling ends, however it ends. */
  ghost predicate Handled(config: Config, request: Request, before: History, after: History,
                          sent: seq<Command>, issued: seq<Command>, o: Outcome<Receipt>)
  {
    && Sound(config, after, issued) && Kept(before, after)
    && after.Keys <= before.Keys + {request.action}
    && (request.action in before ==>
          && after == before && issued == sent
          && (o.Done? ==> before[request.action].request == request && o.value == before[request.action]))
    && (request.action !in before ==>
          && (AlreadyAttempted(config.kind, request, before) ==> after == before && issued == sent)
          && (after != before ==> request.action in after && after[request.action].request == request)
          && (issued != sent ==> request.action in after)
          && (issued == sent || exists basis ::
                Permits(config, request, basis) && Issued(sent, issued, Commands(config.kind, request, basis)))
          && (o.Done? ==>
                && request.action in after && o.value == after[request.action] && o.value.issued
                && exists basis :: Permits(config, request, basis) && issued == sent + Commands(config.kind, request, basis)))
  }
}
