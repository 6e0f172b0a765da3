/** The single-attempt runner: any number of processes that run, observe or return one operation,
    interleaved at every read, write and lock, any of which may die at any moment. */
module Runner {
  import opened Effects

  type ProcessId = nat

  datatype Kind = Running | Observing | Inspecting | Returning

  /** Where a process is, named after what it does next. */
  datatype Pc =
    // run: read the claim, check the approval, claim exclusively, wait for the kernel lock, execute
    | RunReadClaim | RunApprove | RunClaim | RunLock | RunCall | RunExecute | RunSave | RunUnlock
    // observe: try the lock, read, close
    | ObserveLock | ObserveRead
    // reconciliation: try the lock, read the claim, make sure the original is over, check, claim, return
    | ReturnLock | ReturnReadClaim | ReturnCheckOver | ReturnApprove | ReturnReadStarted
    | ReturnReview | ReturnClaim | ReturnCall | ReturnExecute | ReturnSave
    | Gone

  datatype Process = Process(kind: Kind, pid: int, pc: Pc)

  datatype Event = ExecuteBegun(process: ProcessId) | ExecuteStep(process: ProcessId) | ReturnBegun(process: ProcessId) | ReturnStep(process: ProcessId)

  /** The operation folder, the kernel lock, and the calls made so far. The claims are publications
      of one process; a file records its pid. */
  datatype State = State(
    processes: map<ProcessId, Process>, lock: Option<ProcessId>,
    claim: Option<ProcessId>, result: Option<()>,
    returnClaim: Option<ProcessId>, returnResult: Option<()>,
    log: seq<Event>)

  /** How the environment resolves the next step of a process. */
  datatype Choice = Succeed | Fail | SucceedThenFail | Again

  datatype Action = Spawn(id: ProcessId, kind: Kind, pid: int) | Advance(id: ProcessId, choice: Choice) | Die(id: ProcessId)

  const INITIAL: State := State(map[], None, None, None, None, None, [])

  function Entry(kind: Kind): Pc {
    match kind
    case Running => RunReadClaim
    case Observing => ObserveLock
    case Inspecting => ReturnLock
    case Returning => ReturnLock
  }

  function At(s: State, id: ProcessId): Pc {
    if id in s.processes then s.processes[id].pc else Gone
  }

  function Goto(s: State, id: ProcessId, pc: Pc): State
    requires id in s.processes
  {
    s.(processes := s.processes[id := s.processes[id].(pc := pc)])
  }

  /** The end of a process closes its descriptor, and with it the kernel lock it may hold. */
  function Leave(s: State, id: ProcessId): State
    requires id in s.processes
  {
    Goto(s, id, Gone).(lock := if s.lock == Some(id) then None else s.lock)
  }

  /** `os.kill(pid, 0)`: some live process has this pid, be it the original one or a later one. */
  predicate PidInUse(s: State, pid: int) {
    exists id <- s.processes :: s.processes[id].pid == pid && s.processes[id].pc != Gone
  }

  function Take(s: State, id: ProcessId, next: Pc): State
    requires id in s.processes
  {
    if s.lock.None? then Goto(s, id, next).(lock := Some(id)) else s
  }

  function Step(s: State, a: Action): State {
    match a
    case Spawn(id, kind, pid) =>
      if id in s.processes || PidInUse(s, pid) then s
      else s.(processes := s.processes[id := Process(kind, pid, Entry(kind))])
    case Die(id) =>
      if id in s.processes then Leave(s, id) else s
    case Advance(id, choice) =>
      if id in s.processes then AdvanceProcess(s, id, choice) else s
  }

  function AdvanceProcess(s: State, id: ProcessId, choice: Choice): State
    requires id in s.processes
  {
    match s.processes[id].pc
    case RunReadClaim => Goto(s, id, if s.claim.Some? then ObserveLock else RunApprove)
    case RunApprove => if choice.Succeed? then Goto(s, id, RunClaim) else Leave(s, id)
    case RunClaim =>
      if s.claim.Some? then Goto(s, id, ObserveLock)
      else if choice.Fail? then Leave(s, id)
      else if choice.SucceedThenFail? then Leave(s.(claim := Some(id)), id)
      else Goto(s, id, RunLock).(claim := Some(id))
    case RunLock => if choice.Fail? then Leave(s, id) else Take(s, id, RunCall)
    case RunCall =>
      if choice.Fail? then Goto(s, id, RunSave)
      else Goto(s, id, RunExecute).(log := s.log + [ExecuteBegun(id)])
    case RunExecute =>
      if choice.Again? then s.(log := s.log + [ExecuteStep(id)]) else Goto(s, id, RunSave)
    case RunSave =>
      if choice.Fail? then Leave(s, id) else Goto(s, id, RunUnlock).(result := Some(()))
    case RunUnlock => Goto(s, id, ObserveLock).(lock := None)
    case ObserveLock => if s.lock.Some? then Goto(s, id, Gone) else Take(s, id, ObserveRead)
    case ObserveRead => Leave(s, id)
    case ReturnLock => if s.lock.Some? then Goto(s, id, Gone) else Take(s, id, ReturnReadClaim)
    case ReturnReadClaim => if s.claim.None? then Leave(s, id) else Goto(s, id, ReturnCheckOver)
    case ReturnCheckOver =>
      if s.result.Some? then Goto(s, id, ReturnApprove)
      else if s.claim.Some? && s.claim.value in s.processes && s.processes[s.claim.value].pid > 1
              && !PidInUse(s, s.processes[s.claim.value].pid) then Goto(s, id, ReturnApprove)
      else Leave(s, id)
    case ReturnApprove => if choice.Succeed? then Goto(s, id, ReturnReadStarted) else Leave(s, id)
    case ReturnReadStarted =>
      if s.returnClaim.Some? || s.processes[id].kind.Inspecting? then Leave(s, id) else Goto(s, id, ReturnReview)
    case ReturnReview => if choice.Succeed? then Goto(s, id, ReturnClaim) else Leave(s, id)
    case ReturnClaim =>
      if s.returnClaim.Some? || choice.Fail? then Leave(s, id)
      else if choice.SucceedThenFail? then Leave(s.(returnClaim := Some(id)), id)
      else Goto(s, id, ReturnCall).(returnClaim := Some(id))
    case ReturnCall =>
      if choice.Fail? then Goto(s, id, ReturnSave)
      else Goto(s, id, ReturnExecute).(log := s.log + [ReturnBegun(id)])
    case ReturnExecute =>
      if choice.Again? then s.(log := s.log + [ReturnStep(id)]) else Goto(s, id, ReturnSave)
    case ReturnSave =>
      if choice.Fail? then Leave(s, id) else Leave(s.(returnResult := Some(())), id)
    case Gone => s
  }

  function Run(s: State, actions: seq<Action>): State
    decreases |actions|
  {
    if |actions| == 0 then s else Run(Step(s, actions[0]), actions[1..])
  }

  // ---------------------------------------------------------------------------------------------

  predicate Claimed(pc: Pc) {
    pc.RunLock? || pc.RunCall? || pc.RunExecute? || pc.RunSave? || pc.RunUnlock?
  }

  predicate BeforeResult(pc: Pc) {
    pc.RunLock? || pc.RunCall? || pc.RunExecute? || pc.RunSave?
  }

  predicate HoldsLock(pc: Pc) {
    || pc.RunCall? || pc.RunExecute? || pc.RunSave? || pc.RunUnlock? || pc.ObserveRead?
    || pc.ReturnReadClaim? || pc.ReturnCheckOver? || Cleared(pc)
  }

  /** A returning process that has made sure that the original run is over. */
  predicate Cleared(pc: Pc) {
    pc.ReturnApprove? || pc.ReturnReadStarted? || pc.ReturnReview? || pc.ReturnClaim? || Returns(pc)
  }

  /** A process that published the return claim. */
  predicate Returns(pc: Pc) {
    pc.ReturnCall? || pc.ReturnExecute? || pc.ReturnSave?
  }

  /** A process that holds the claim and has not called the executor. */
  predicate BeforeExecute(pc: Pc) {
    pc.RunLock? || pc.RunCall?
  }

  /** The claimant exists and will never execute again. */
  predicate OriginalOver(s: State) {
    s.claim.Some? && !BeforeResult(At(s, s.claim.value))
  }

  predicate IsExecute(e: Event) {
    e.ExecuteBegun? || e.ExecuteStep?
  }

  /** What the place a process has reached says about the folder and the lock. */
  ghost predicate Placed(s: State, id: ProcessId) {
    var pc := At(s, id);
    && (Claimed(pc) ==> s.claim == Some(id))
    && (HoldsLock(pc) ==> s.lock == Some(id))
    && (Cleared(pc) ==> OriginalOver(s))
    && (Returns(pc) ==> s.returnClaim == Some(id))
    && (pc.RunUnlock? ==> s.result.Some?)
  }

  ghost predicate Settled(s: State) {
    && (s.result.Some? ==> OriginalOver(s))
    && (s.returnClaim.Some? ==> OriginalOver(s))
  }

  /** Every call was made by the process that had claimed the right to make it. */
  ghost predicate Recorded(s: State, e: Event) {
    if IsExecute(e) then s.claim == Some(e.process) && !BeforeExecute(At(s, e.process))
    else s.returnClaim == Some(e.process) && At(s, e.process) != ReturnCall
  }

  ghost predicate Inv(s: State) {
    && (forall id: ProcessId :: Placed(s, id))
    && Settled(s)
    && (forall e <- s.log :: Recorded(s, e))
    && (s.claim.Some? ==> s.claim.value in s.processes)
    && (s.returnClaim.Some? ==> s.returnClaim.value in s.processes)
    && OneCallEach(s.log)
  }

  /** Executed at most once, returned at most once, and never executed once a return has begun. */
  ghost predicate OneCallEach(log: seq<Event>) {
    && (forall i, j :: 0 <= i < j < |log| && log[i].ExecuteBegun? ==> !log[j].ExecuteBegun?)
    && (forall i, j :: 0 <= i < j < |log| && log[i].ReturnBegun? ==> !log[j].ReturnBegun?)
    && (forall i, j :: 0 <= i < j < |log| && log[i].ReturnBegun? ==> !IsExecute(log[j]))
  }

  lemma InitiallyInv()
    ensures Inv(INITIAL)
  {
    forall id: ProcessId ensures Placed(INITIAL, id) {
    }
  }

  /** One process moves on, taking or giving back only its own lock, and never back before a point
      that the invariant remembers. */
  lemma MoveKeeps(s: State, id: ProcessId, pc: Pc, lock: Option<ProcessId>)
    requires Inv(s) && id in s.processes
    requires lock == s.lock || s.lock.None? || s.lock == Some(id)
    requires HoldsLock(pc) ==> lock == Some(id)
    requires Claimed(pc) ==> s.claim == Some(id)
    requires BeforeResult(pc) ==> BeforeResult(At(s, id))
    requires BeforeExecute(pc) ==> BeforeExecute(At(s, id))
    requires Cleared(pc) ==> OriginalOver(s)
    requires Returns(pc) ==> s.returnClaim == Some(id)
    requires pc == ReturnCall ==> At(s, id) == pc
    requires pc.RunUnlock? ==> s.result.Some?
    ensures Inv(Goto(s, id, pc).(lock := lock))
  {
    var t := Goto(s, id, pc).(lock := lock);
    OverStays(s, id, pc, lock);
    forall k: ProcessId ensures Placed(t, k) {
      assert Placed(s, k);
      assert k != id ==> At(t, k) == At(s, k);
    }
    forall e <- t.log ensures Recorded(t, e) {
      assert Recorded(s, e);
    }
  }

  lemma OverStays(s: State, id: ProcessId, pc: Pc, lock: Option<ProcessId>)
    requires id in s.processes
    requires BeforeResult(pc) ==> BeforeResult(At(s, id))
    ensures OriginalOver(s) ==> OriginalOver(Goto(s, id, pc).(lock := lock))
  {
  }

  lemma LeaveKeeps(s: State, id: ProcessId)
    requires Inv(s) && id in s.processes
    ensures Inv(Leave(s, id))
  {
    MoveKeeps(s, id, Gone, if s.lock == Some(id) then None else s.lock);
  }

  lemma LogKeeps(s: State, id: ProcessId, e: Event)
    requires Inv(s) && id in s.processes && e.process == id
    requires IsExecute(e) ==> s.claim == Some(id) && At(s, id) == RunExecute
    requires !IsExecute(e) ==> s.returnClaim == Some(id) && At(s, id) == ReturnExecute
    requires e.ExecuteBegun? ==> forall x <- s.log :: !x.ExecuteBegun?
    requires e.ReturnBegun? ==> forall x <- s.log :: !x.ReturnBegun?
    ensures Inv(s.(log := s.log + [e]))
  {
    var t := s.(log := s.log + [e]);
    forall k: ProcessId ensures Placed(t, k) {
      assert Placed(s, k);
    }
    forall x <- t.log ensures Recorded(t, x) {
      assert x == e || Recorded(s, x);
    }
    assert IsExecute(e) ==> s.returnClaim.None?;
    assert IsExecute(e) ==> forall x <- s.log :: !x.ReturnBegun? by {
      forall x <- s.log ensures IsExecute(e) ==> !x.ReturnBegun? {
        assert Recorded(s, x);
      }
    }
    OneMoreCall(s.log, e);
  }

  lemma OneMoreCall(log: seq<Event>, e: Event)
    requires OneCallEach(log)
    requires e.ExecuteBegun? ==> forall x <- log :: !x.ExecuteBegun?
    requires e.ReturnBegun? ==> forall x <- log :: !x.ReturnBegun?
    requires IsExecute(e) ==> forall x <- log :: !x.ReturnBegun?
    ensures OneCallEach(log + [e])
  {
    var t := log + [e];
    assert forall i :: 0 <= i < |log| ==> t[i] == log[i] && log[i] in log;
  }

  lemma SpawnKeeps(s: State, id: ProcessId, kind: Kind, pid: int)
    requires Inv(s) && id !in s.processes
    ensures Inv(s.(processes := s.processes[id := Process(kind, pid, Entry(kind))]))
  {
    var t := s.(processes := s.processes[id := Process(kind, pid, Entry(kind))]);
    assert forall k: ProcessId :: k != id ==> At(t, k) == At(s, k);
    forall k: ProcessId ensures Placed(t, k) {
      assert Placed(s, k);
    }
    forall e <- t.log ensures Recorded(t, e) {
      assert Recorded(s, e);
    }
  }

  lemma UnclaimedIsFresh(s: State)
    requires Inv(s) && s.claim.None?
    ensures s.log == [] && s.result.None? && s.returnClaim.None?
  {
    assert |s.log| > 0 ==> s.log[0] in s.log && Recorded(s, s.log[0]);
    assert forall e :: !Recorded(s, e);
  }

  /** The exclusive claim: nothing had been executed, saved or returned before it. */
  lemma ClaimKeeps(s: State, id: ProcessId)
    requires Inv(s) && id in s.processes && s.claim.None? && At(s, id) == RunClaim
    ensures Inv(Goto(s, id, RunLock).(claim := Some(id)))
  {
    UnclaimedIsFresh(s);
    var t := Goto(s, id, RunLock).(claim := Some(id));
    forall k: ProcessId ensures Placed(t, k) {
      assert Placed(s, k);
      assert k != id ==> At(t, k) == At(s, k);
    }
  }

  /** The result is on file before the lock is given back. */
  lemma ResultKeeps(s: State, id: ProcessId)
    requires Inv(s) && id in s.processes && At(s, id) == RunSave
    ensures Inv(Goto(s, id, RunUnlock).(result := Some(())))
  {
    var t := Goto(s, id, RunUnlock).(result := Some(()));
    assert Placed(s, id);
    forall k: ProcessId ensures Placed(t, k) {
      assert Placed(s, k);
      assert k != id ==> At(t, k) == At(s, k);
    }
    forall e <- t.log ensures Recorded(t, e) {
      assert Recorded(s, e);
    }
  }

  lemma ReturnResultKeeps(s: State)
    requires Inv(s)
    ensures Inv(s.(returnResult := Some(())))
  {
    var t := s.(returnResult := Some(()));
    forall k: ProcessId ensures Placed(t, k) {
      assert Placed(s, k);
    }
    forall e <- s.log ensures Recorded(t, e) {
      assert Recorded(s, e);
    }
  }

  lemma ReturnClaimKeeps(s: State, id: ProcessId)
    requires Inv(s) && id in s.processes && s.returnClaim.None? && At(s, id) == ReturnClaim
    ensures Inv(Goto(s, id, ReturnCall).(returnClaim := Some(id)))
  {
    var t := Goto(s, id, ReturnCall).(returnClaim := Some(id));
    assert Placed(s, id);
    forall k: ProcessId ensures Placed(t, k) {
      assert Placed(s, k);
      assert k != id ==> At(t, k) == At(s, k);
    }
    forall e <- s.log ensures Recorded(t, e) {
      assert Recorded(s, e);
    }
  }

  // ---------------------------------------------------------------------------------------------
  // One lemma for every few places in the program.

  lemma ClaimingKeeps(s: State, id: ProcessId, choice: Choice)
    requires Inv(s) && id in s.processes
    requires s.processes[id].pc.RunReadClaim? || s.processes[id].pc.RunApprove?
    ensures Inv(AdvanceProcess(s, id, choice))
  {
    assert Placed(s, id);
    if s.processes[id].pc.RunApprove? {
      LeaveKeeps(s, id);
      MoveKeeps(s, id, RunClaim, s.lock);
    } else {
      MoveKeeps(s, id, if s.claim.Some? then ObserveLock else RunApprove, s.lock);
    }
  }

  /** Whoever obtains the exclusive claim is the first, also in the window before its lock: nothing has
      been executed, saved or returned. */
  lemma ClaimLocks(s: State, id: ProcessId, choice: Choice)
    requires Inv(s) && id in s.processes && s.processes[id].pc.RunClaim?
    ensures Inv(AdvanceProcess(s, id, choice))
    ensures var t := AdvanceProcess(s, id, choice);
            t.claim != s.claim ==>
              s.claim.None? && t.claim == Some(id) && t.log == [] && t.result.None? && t.returnClaim.None?
    ensures s.claim.Some? ==> !Claimed(At(AdvanceProcess(s, id, choice), id))
  {
    assert Placed(s, id);
    if s.claim.None? {
      UnclaimedIsFresh(s);
    }
    if s.claim.Some? {
      MoveKeeps(s, id, ObserveLock, s.lock);
    } else if choice.Fail? {
      LeaveKeeps(s, id);
    } else {
      ClaimKeeps(s, id);
      if choice.SucceedThenFail? {
        var t := Goto(s, id, RunLock).(claim := Some(id));
        LeaveKeeps(t, id);
        assert Leave(t, id).processes == Leave(s.(claim := Some(id)), id).processes;
      }
    }
  }

  lemma TakeKeeps(s: State, id: ProcessId, next: Pc)
    requires Inv(s) && id in s.processes
    requires (next.RunCall? && At(s, id) == RunLock) || next.ObserveRead? || next.ReturnReadClaim?
    ensures Inv(Take(s, id, next))
  {
    assert Placed(s, id);
    if s.lock.None? {
      MoveKeeps(s, id, next, Some(id));
    }
  }

  lemma LockingKeeps(s: State, id: ProcessId, choice: Choice)
    requires Inv(s) && id in s.processes
    requires s.processes[id].pc.RunLock? || s.processes[id].pc.ObserveLock? || s.processes[id].pc.ReturnLock?
    ensures Inv(AdvanceProcess(s, id, choice))
    ensures s.lock.Some? && choice.Succeed? ==>
              At(AdvanceProcess(s, id, choice), id) == if s.processes[id].pc.RunLock? then RunLock else Gone
  {
    assert Placed(s, id);
    match s.processes[id].pc
    case RunLock =>
      LeaveKeeps(s, id);
      TakeKeeps(s, id, RunCall);
    case ObserveLock =>
      MoveKeeps(s, id, Gone, s.lock);
      TakeKeeps(s, id, ObserveRead);
    case ReturnLock =>
      MoveKeeps(s, id, Gone, s.lock);
      TakeKeeps(s, id, ReturnReadClaim);
  }

  lemma CallingKeeps(s: State, id: ProcessId, choice: Choice)
    requires Inv(s) && id in s.processes
    requires s.processes[id].pc.RunCall? || s.processes[id].pc.ReturnCall?
    ensures Inv(AdvanceProcess(s, id, choice))
  {
    assert Placed(s, id);
    var run := s.processes[id].pc.RunCall?;
    if choice.Fail? {
      MoveKeeps(s, id, if run then RunSave else ReturnSave, s.lock);
    } else {
      var next := if run then RunExecute else ReturnExecute;
      forall e <- s.log ensures if run then !e.ExecuteBegun? else !e.ReturnBegun? {
        assert Recorded(s, e);
      }
      MoveKeeps(s, id, next, s.lock);
      LogKeeps(Goto(s, id, next), id, if run then ExecuteBegun(id) else ReturnBegun(id));
    }
  }

  lemma ExecutingKeeps(s: State, id: ProcessId, choice: Choice)
    requires Inv(s) && id in s.processes
    requires s.processes[id].pc.RunExecute? || s.processes[id].pc.ReturnExecute?
    ensures Inv(AdvanceProcess(s, id, choice))
  {
    assert Placed(s, id);
    var run := s.processes[id].pc.RunExecute?;
    if choice.Again? {
      LogKeeps(s, id, if run then ExecuteStep(id) else ReturnStep(id));
    } else {
      MoveKeeps(s, id, if run then RunSave else ReturnSave, s.lock);
    }
  }

  lemma SavingKeeps(s: State, id: ProcessId, choice: Choice)
    requires Inv(s) && id in s.processes
    requires s.processes[id].pc.RunSave? || s.processes[id].pc.RunUnlock? || s.processes[id].pc.ReturnSave?
    ensures Inv(AdvanceProcess(s, id, choice))
  {
    assert Placed(s, id);
    match s.processes[id].pc
    case RunSave =>
      LeaveKeeps(s, id);
      ResultKeeps(s, id);
    case RunUnlock => MoveKeeps(s, id, ObserveLock, None);
    case ReturnSave =>
      LeaveKeeps(s, id);
      ReturnResultKeeps(Leave(s, id));
  }

  lemma ReviewingKeeps(s: State, id: ProcessId, choice: Choice)
    requires Inv(s) && id in s.processes
    requires
      || s.processes[id].pc.ReturnApprove? || s.processes[id].pc.ReturnReadStarted? || s.processes[id].pc.ReturnReview?
      || s.processes[id].pc.ObserveRead?
    ensures Inv(AdvanceProcess(s, id, choice))
  {
    assert Placed(s, id);
    LeaveKeeps(s, id);
    match s.processes[id].pc
    case ReturnApprove => MoveKeeps(s, id, ReturnReadStarted, s.lock);
    case ReturnReadStarted => MoveKeeps(s, id, ReturnReview, s.lock);
    case ReturnReview => MoveKeeps(s, id, ReturnClaim, s.lock);
    case ObserveRead =>
  }

  /** A return goes on only when the original run will never execute again: it left a result, or the
      process that claimed it is not there any more. A live process with the claimant's process id
      blocks it, also one that got the id later. */
  lemma CheckingOverKeeps(s: State, id: ProcessId, choice: Choice)
    requires Inv(s) && id in s.processes
    requires s.processes[id].pc.ReturnReadClaim? || s.processes[id].pc.ReturnCheckOver?
    ensures Inv(AdvanceProcess(s, id, choice))
    ensures At(AdvanceProcess(s, id, choice), id).ReturnApprove? ==> OriginalOver(s)
    ensures s.result.None? && s.claim.Some? && PidInUse(s, s.processes[s.claim.value].pid) ==>
              !At(AdvanceProcess(s, id, choice), id).ReturnApprove?
  {
    assert Placed(s, id);
    var t := AdvanceProcess(s, id, choice);
    if t == Leave(s, id) {
      LeaveKeeps(s, id);
    } else if s.processes[id].pc.ReturnReadClaim? {
      MoveKeeps(s, id, ReturnCheckOver, s.lock);
    } else {
      MoveKeeps(s, id, ReturnApprove, s.lock);
    }
  }

  lemma ReturnClaimingKeeps(s: State, id: ProcessId, choice: Choice)
    requires Inv(s) && id in s.processes && s.processes[id].pc.ReturnClaim?
    ensures Inv(AdvanceProcess(s, id, choice))
  {
    assert Placed(s, id);
    if s.returnClaim.Some? || choice.Fail? {
      LeaveKeeps(s, id);
    } else {
      ReturnClaimKeeps(s, id);
      if choice.SucceedThenFail? {
        var t := Goto(s, id, ReturnCall).(returnClaim := Some(id));
        LeaveKeeps(t, id);
        assert Leave(t, id).processes == Leave(s.(returnClaim := Some(id)), id).processes;
      }
    }
  }

  lemma AdvanceKeeps(s: State, id: ProcessId, choice: Choice)
    requires Inv(s) && id in s.processes
    ensures Inv(AdvanceProcess(s, id, choice))
  {
    match s.processes[id].pc
    case RunReadClaim | RunApprove => ClaimingKeeps(s, id, choice);
    case RunClaim => ClaimLocks(s, id, choice);
    case RunLock | ObserveLock | ReturnLock => LockingKeeps(s, id, choice);
    case RunCall | ReturnCall => CallingKeeps(s, id, choice);
    case RunExecute | ReturnExecute => ExecutingKeeps(s, id, choice);
    case RunSave | RunUnlock | ReturnSave => SavingKeeps(s, id, choice);
    case ReturnApprove | ReturnReadStarted | ReturnReview | ObserveRead => ReviewingKeeps(s, id, choice);
    case ReturnReadClaim | ReturnCheckOver => CheckingOverKeeps(s, id, choice);
    case ReturnClaim => ReturnClaimingKeeps(s, id, choice);
    case Gone =>
  }

  lemma StepKeepsInv(s: State, a: Action)
    requires Inv(s)
    ensures Inv(Step(s, a))
  {
    match a
    case Spawn(id, kind, pid) =>
      if id !in s.processes {
        SpawnKeeps(s, id, kind, pid);
      }
    case Die(id) =>
      if id in s.processes {
        LeaveKeeps(s, id);
      }
    case Advance(id, choice) =>
      if id in s.processes {
        AdvanceKeeps(s, id, choice);
      }
  }

  lemma {:induction false} RunKeepsInv(s: State, actions: seq<Action>)
    requires Inv(s)
    ensures Inv(Run(s, actions))
    decreases |actions|
  {
    if |actions| > 0 {
      StepKeepsInv(s, actions[0]);
      RunKeepsInv(Step(s, actions[0]), actions[1..]);
    }
  }

  /** However many processes run, observe and return one operation, in whatever order their steps
      interleave and wherever they die: the executor is called at most once, the return path at most
      once, and after a return has begun no step of the executor follows. */
  lemma SingleAttempt(actions: seq<Action>)
    ensures OneCallEach(Run(INITIAL, actions).log)
  {
    InitiallyInv();
    RunKeepsInv(INITIAL, actions);
  }

  /** The kernel lock: never are two processes executing, returning or saving at the same time. */
  lemma OneAtATime(actions: seq<Action>, i: ProcessId, j: ProcessId)
    requires i != j
    ensures var s := Run(INITIAL, actions); !(HoldsLock(At(s, i)) && HoldsLock(At(s, j)))
  {
    InitiallyInv();
    RunKeepsInv(INITIAL, actions);
    var s := Run(INITIAL, actions);
    assert Placed(s, i) && Placed(s, j);
  }

  // ---------------------------------------------------------------------------------------------
  // Who may do what

  /** Places that only a run reaches, and those after its approval was found. */
  predicate InRun(pc: Pc) {
    pc.RunReadClaim? || pc.RunApprove? || PastRunApproval(pc)
  }

  predicate PastRunApproval(pc: Pc) {
    pc.RunClaim? || Claimed(pc)
  }

  /** Places that only a reconciliation reaches; after the plan's approval; after the owner's approval of
      the return. */
  predicate InReturn(pc: Pc) {
    pc.ReturnLock? || pc.ReturnReadClaim? || pc.ReturnCheckOver? || Cleared(pc)
  }

  predicate PastReturnApproval(pc: Pc) {
    pc.ReturnReadStarted? || pc.ReturnReview? || PastReview(pc)
  }

  predicate PastReview(pc: Pc) {
    pc.ReturnClaim? || Returns(pc)
  }

  predicate KindFits(kind: Kind, pc: Pc) {
    && (InRun(pc) ==> kind.Running?)
    && (InReturn(pc) ==> kind.Inspecting? || kind.Returning?)
    && (pc.ReturnReview? || PastReview(pc) ==> kind.Returning?)
  }

  /** The process has taken this step, and it succeeded. */
  ghost predicate Succeeded(actions: seq<Action>, id: ProcessId, pc: Pc) {
    exists k: nat :: k < |actions| && SucceededAt(actions, k, id, pc)
  }

  ghost predicate SucceededAt(actions: seq<Action>, k: nat, id: ProcessId, pc: Pc)
    requires k < |actions|
  {
    actions[k] == Advance(id, Succeed) && At(Run(INITIAL, actions[..k]), id) == pc
  }

  /** A process is where its kind and the approvals it has found allow it to be. */
  ghost predicate Entitled(actions: seq<Action>, id: ProcessId, kind: Kind, pc: Pc) {
    && KindFits(kind, pc)
    && (PastRunApproval(pc) ==> Succeeded(actions, id, RunApprove))
    && (PastReturnApproval(pc) ==> Succeeded(actions, id, ReturnApprove))
    && (PastReview(pc) ==> Succeeded(actions, id, ReturnReview))
  }

  /** A call was made by a process of the right kind, after its approvals were found. */
  ghost predicate Authorised(actions: seq<Action>, s: State, e: Event) {
    && e.process in s.processes
    && if IsExecute(e) then s.processes[e.process].kind.Running? && Succeeded(actions, e.process, RunApprove)
       else
         && s.processes[e.process].kind.Returning?
         && Succeeded(actions, e.process, ReturnApprove) && Succeeded(actions, e.process, ReturnReview)
  }

  lemma StillSucceeded(actions: seq<Action>, a: Action, id: ProcessId, pc: Pc)
    requires Succeeded(actions, id, pc)
    ensures Succeeded(actions + [a], id, pc)
  {
    var k: nat :| k < |actions| && SucceededAt(actions, k, id, pc);
    assert (actions + [a])[..k] == actions[..k];
    assert SucceededAt(actions + [a], k, id, pc);
  }

  lemma JustSucceeded(actions: seq<Action>, id: ProcessId, pc: Pc)
    requires At(Run(INITIAL, actions), id) == pc
    ensures Succeeded(actions + [Advance(id, Succeed)], id, pc)
  {
    var more := actions + [Advance(id, Succeed)];
    assert more[..|actions|] == actions;
    assert SucceededAt(more, |actions|, id, pc);
  }

  lemma {:induction false} RunOneMore(s: State, actions: seq<Action>, a: Action)
    ensures Run(s, actions + [a]) == Step(Run(s, actions), a)
    decreases |actions|
  {
    if actions == [] {
      assert [a][1..] == [] && actions + [a] == [a];
    } else {
      assert (actions + [a])[1..] == actions[1..] + [a];
      RunOneMore(Step(s, actions[0]), actions[1..], a);
    }
  }

  /** The calls a step makes. */
  lemma AdvanceLogs(s: State, id: ProcessId, choice: Choice)
    requires id in s.processes
    ensures
      var t := AdvanceProcess(s, id, choice);
      var pc := s.processes[id].pc;
      || t.log == s.log
      || (&& (pc.RunCall? || pc.RunExecute?)
          && (t.log == s.log + [ExecuteBegun(id)] || t.log == s.log + [ExecuteStep(id)]))
      || (&& (pc.ReturnCall? || pc.ReturnExecute?)
          && (t.log == s.log + [ReturnBegun(id)] || t.log == s.log + [ReturnStep(id)]))
  {
  }

  /** Where a step can lead: past an approval only by finding it. */
  predicate Follows(kind: Kind, pc: Pc, choice: Choice, next: Pc) {
    && (KindFits(kind, pc) ==> KindFits(kind, next))
    && (PastRunApproval(next) ==> PastRunApproval(pc) || (pc.RunApprove? && choice.Succeed?))
    && (PastReturnApproval(next) ==> PastReturnApproval(pc) || (pc.ReturnApprove? && choice.Succeed?))
    && (PastReview(next) ==> PastReview(pc) || (pc.ReturnReview? && choice.Succeed?))
  }

  /** Only the place of one process differs, and it follows. */
  predicate Moved(s: State, t: State, id: ProcessId, choice: Choice)
    requires id in s.processes
  {
    && t.processes == s.processes[id := s.processes[id].(pc := At(t, id))]
    && Follows(s.processes[id].kind, s.processes[id].pc, choice, At(t, id))
  }

  lemma Stays(s: State, t: State, id: ProcessId, choice: Choice)
    requires id in s.processes && t.processes == s.processes
    ensures Moved(s, t, id, choice)
  {
  }

  lemma Goes(s: State, t: State, id: ProcessId, choice: Choice, pc: Pc)
    requires id in s.processes && t.processes == Goto(s, id, pc).processes && Follows(s.processes[id].kind, s.processes[id].pc, choice, pc)
    ensures Moved(s, t, id, choice)
  {
  }

  lemma ClaimingMoves(s: State, id: ProcessId, choice: Choice)
    requires id in s.processes
    requires s.processes[id].pc in {RunReadClaim, RunApprove, RunClaim, RunLock}
    ensures Moved(s, AdvanceProcess(s, id, choice), id, choice)
  {
    var t := AdvanceProcess(s, id, choice);
    if t.processes == s.processes {
      Stays(s, t, id, choice);
    } else {
      Goes(s, t, id, choice, At(t, id));
    }
  }

  lemma ExecutingMoves(s: State, id: ProcessId, choice: Choice)
    requires id in s.processes
    requires s.processes[id].pc in {RunCall, RunExecute, RunSave, RunUnlock}
    ensures Moved(s, AdvanceProcess(s, id, choice), id, choice)
  {
    var t := AdvanceProcess(s, id, choice);
    if t.processes == s.processes {
      Stays(s, t, id, choice);
    } else {
      Goes(s, t, id, choice, At(t, id));
    }
  }

  lemma LockingMoves(s: State, id: ProcessId, choice: Choice)
    requires id in s.processes
    requires s.processes[id].pc in {ObserveLock, ObserveRead, ReturnLock, ReturnReadClaim}
    ensures Moved(s, AdvanceProcess(s, id, choice), id, choice)
  {
    var t := AdvanceProcess(s, id, choice);
    if t.processes == s.processes {
      Stays(s, t, id, choice);
    } else {
      Goes(s, t, id, choice, At(t, id));
    }
  }

  lemma ReviewingMoves(s: State, id: ProcessId, choice: Choice)
    requires id in s.processes
    requires s.processes[id].pc in {ReturnCheckOver, ReturnApprove, ReturnReadStarted, ReturnReview}
    ensures Moved(s, AdvanceProcess(s, id, choice), id, choice)
  {
    var t := AdvanceProcess(s, id, choice);
    if t.processes == s.processes {
      Stays(s, t, id, choice);
    } else {
      Goes(s, t, id, choice, At(t, id));
    }
  }

  lemma ReturningMoves(s: State, id: ProcessId, choice: Choice)
    requires id in s.processes
    requires s.processes[id].pc in {ReturnClaim, ReturnCall, ReturnExecute, ReturnSave}
    ensures Moved(s, AdvanceProcess(s, id, choice), id, choice)
  {
    var t := AdvanceProcess(s, id, choice);
    if t.processes == s.processes {
      Stays(s, t, id, choice);
    } else {
      Goes(s, t, id, choice, At(t, id));
    }
  }

  lemma AdvanceMoves(s: State, id: ProcessId, choice: Choice)
    requires id in s.processes
    ensures Moved(s, AdvanceProcess(s, id, choice), id, choice)
  {
    match s.processes[id].pc
    case RunReadClaim | RunApprove | RunClaim | RunLock => ClaimingMoves(s, id, choice);
    case RunCall | RunExecute | RunSave | RunUnlock => ExecutingMoves(s, id, choice);
    case ObserveLock | ObserveRead | ReturnLock | ReturnReadClaim => LockingMoves(s, id, choice);
    case ReturnCheckOver | ReturnApprove | ReturnReadStarted | ReturnReview => ReviewingMoves(s, id, choice);
    case ReturnClaim | ReturnCall | ReturnExecute | ReturnSave => ReturningMoves(s, id, choice);
    case Gone => Stays(s, s, id, choice);
  }

  /** A step of one process changes no other one and no kind. */
  lemma AdvanceTouchesOne(s: State, id: ProcessId, choice: Choice)
    requires id in s.processes
    ensures
      var t := AdvanceProcess(s, id, choice);
      && t.processes.Keys == s.processes.Keys && t.processes[id].kind == s.processes[id].kind
      && (forall k <- s.processes :: k != id ==> t.processes[k] == s.processes[k])
  {
    AdvanceMoves(s, id, choice);
  }

  ghost predicate AllEntitled(actions: seq<Action>, s: State) {
    && (forall id <- s.processes :: Entitled(actions, id, s.processes[id].kind, s.processes[id].pc))
    && (forall e <- s.log :: Authorised(actions, s, e))
  }

  /** What was allowed stays allowed after any further action. */
  lemma EntitledLater(actions: seq<Action>, a: Action, id: ProcessId, kind: Kind, pc: Pc)
    requires Entitled(actions, id, kind, pc)
    ensures Entitled(actions + [a], id, kind, pc)
  {
    if PastRunApproval(pc) {
      StillSucceeded(actions, a, id, RunApprove);
    }
    if PastReturnApproval(pc) {
      StillSucceeded(actions, a, id, ReturnApprove);
    }
    if PastReview(pc) {
      StillSucceeded(actions, a, id, ReturnReview);
    }
  }

  lemma AuthorisedLater(actions: seq<Action>, a: Action, s: State, t: State, e: Event)
    requires Authorised(actions, s, e) && e.process in t.processes && t.processes[e.process].kind == s.processes[e.process].kind
    ensures Authorised(actions + [a], t, e)
  {
    if IsExecute(e) {
      StillSucceeded(actions, a, e.process, RunApprove);
    } else {
      StillSucceeded(actions, a, e.process, ReturnApprove);
      StillSucceeded(actions, a, e.process, ReturnReview);
    }
  }

  /** The process that moves is entitled to the place it reaches. */
  lemma MoverEntitled(actions: seq<Action>, s: State, id: ProcessId, choice: Choice)
    requires s == Run(INITIAL, actions) && AllEntitled(actions, s) && id in s.processes
    ensures Entitled(actions + [Advance(id, choice)], id, s.processes[id].kind, At(AdvanceProcess(s, id, choice), id))
  {
    var a, pc := Advance(id, choice), s.processes[id].pc;
    var next := At(AdvanceProcess(s, id, choice), id);
    EntitledLater(actions, a, id, s.processes[id].kind, pc);
    AdvanceMoves(s, id, choice);
    if choice.Succeed? {
      JustSucceeded(actions, id, pc);
    }
  }

  /** So is whoever makes a call. */
  lemma CallerAuthorised(actions: seq<Action>, s: State, id: ProcessId, choice: Choice, e: Event)
    requires s == Run(INITIAL, actions) && AllEntitled(actions, s) && id in s.processes
    requires e in AdvanceProcess(s, id, choice).log
    ensures Authorised(actions + [Advance(id, choice)], AdvanceProcess(s, id, choice), e)
  {
    var a, t := Advance(id, choice), AdvanceProcess(s, id, choice);
    AdvanceTouchesOne(s, id, choice);
    AdvanceLogs(s, id, choice);
    if e in s.log {
      AuthorisedLater(actions, a, s, t, e);
    } else {
      EntitledLater(actions, a, id, s.processes[id].kind, s.processes[id].pc);
    }
  }

  lemma AdvanceAllEntitled(actions: seq<Action>, s: State, mover: ProcessId, choice: Choice)
    requires s == Run(INITIAL, actions) && AllEntitled(actions, s) && mover in s.processes
    ensures AllEntitled(actions + [Advance(mover, choice)], AdvanceProcess(s, mover, choice))
  {
    var a, t := Advance(mover, choice), AdvanceProcess(s, mover, choice);
    AdvanceTouchesOne(s, mover, choice);
    forall id <- t.processes ensures Entitled(actions + [a], id, t.processes[id].kind, t.processes[id].pc) {
      if id == mover {
        MoverEntitled(actions, s, id, choice);
      } else {
        EntitledLater(actions, a, id, s.processes[id].kind, s.processes[id].pc);
      }
    }
    forall e <- t.log ensures Authorised(actions + [a], t, e) {
      CallerAuthorised(actions, s, mover, choice, e);
    }
  }

  /** A process begins, or ends, or nothing happens. */
  lemma StillEntitled(actions: seq<Action>, a: Action, s: State, t: State)
    requires AllEntitled(actions, s) && t.log == s.log && s.processes.Keys <= t.processes.Keys
    requires forall id <- t.processes ::
      if id in s.processes then t.processes[id].kind == s.processes[id].kind && t.processes[id].pc in {s.processes[id].pc, Gone}
      else t.processes[id].pc == Entry(t.processes[id].kind)
    ensures AllEntitled(actions + [a], t)
  {
    forall id <- t.processes ensures Entitled(actions + [a], id, t.processes[id].kind, t.processes[id].pc) {
      if id in s.processes {
        EntitledLater(actions, a, id, s.processes[id].kind, s.processes[id].pc);
      }
    }
    forall e <- t.log ensures Authorised(actions + [a], t, e) {
      AuthorisedLater(actions, a, s, t, e);
    }
  }

  lemma StepEntitled(actions: seq<Action>, a: Action)
    requires AllEntitled(actions, Run(INITIAL, actions))
    ensures AllEntitled(actions + [a], Run(INITIAL, actions + [a]))
  {
    var s, t := Run(INITIAL, actions), Run(INITIAL, actions + [a]);
    RunOneMore(INITIAL, actions, a);
    if a.Advance? && a.id in s.processes {
      AdvanceAllEntitled(actions, s, a.id, a.choice);
    } else {
      StillEntitled(actions, a, s, t);
    }
  }

  lemma {:induction false} AlwaysEntitled(actions: seq<Action>)
    ensures AllEntitled(actions, Run(INITIAL, actions))
    decreases |actions|
  {
    if actions != [] {
      var most, last := actions[..|actions| - 1], actions[|actions| - 1];
      AlwaysEntitled(most);
      StepEntitled(most, last);
      assert most + [last] == actions;
    }
  }

  /** Over every interleaving: only a run executes, and only after it found the approval of its plan;
      only a reconciliation that was asked to return does so, and only after it found the approval of the
      plan and the owner's approval of the return. */
  lemma OnlyAuthorised(actions: seq<Action>, e: Event)
    requires e in Run(INITIAL, actions).log
    ensures Authorised(actions, Run(INITIAL, actions), e)
  {
    AlwaysEntitled(actions);
  }
}
