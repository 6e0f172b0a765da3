/** The container daemon: an environment in which only this driver creates, starts or renames the
    containers it owns, although any of them may exit by itself at any time. */
module Docker {
  import opened Effects

  type Id = int

  /** `rest` stands for every other part of the configuration, the host settings and the mounts;
      the three flags are the parts the retention rule looks at. */
  datatype Settings = Settings(bindMountsOnly: bool, autoRemove: bool, restartAlways: bool, rest: nat)

  datatype Recipe = Recipe(image: nat, command: seq<string>, settings: Settings)

  datatype Container = Container(recipe: Recipe, name: string, running: bool, startedAt: nat)

  datatype Signature = Signature(id: Id, recipe: Recipe)

  datatype Seen = Seen(id: Id, container: Container)

  datatype Mutation =
    | Create(name: string, recipe: Recipe)
    | Stop(id: Id)
    | Rename(id: Id, to: string)
    | Start(id: Id)

  type World = map<Id, Container>

  function SignatureOf(seen: Seen): Signature {
    Signature(seen.id, seen.container.recipe)
  }

  /** How one owned container may differ after one request was performed at most once, whatever
      the other parties did meanwhile: without that request it can only have stopped. */
  predicate Evolved(id: Id, before: Container, after: Container, done: Option<Mutation>) {
    && after.recipe == before.recipe
    && after.name == (if done.Some? && done.value.Rename? && done.value.id == id then done.value.to else before.name)
    && (after.running ==> before.running || done == Some(Start(id)))
    && (done == Some(Stop(id)) ==> !after.running)
    && (done != Some(Start(id)) ==> after.startedAt == before.startedAt)
  }

  /** The daemon and what it knows of the driver: requests sent, requests performed, the one request
      whose reply was lost and which may still be performed, and which containers have exited by
      themselves since they were last started. `original` is the container the driver is to replace. */
  datatype Engine = Engine(
    containers: World, original: Id, created: seq<Id>, nextId: Id, clock: nat, exited: set<Id>,
    issued: seq<Mutation>, performed: seq<Mutation>, pending: Option<Mutation>)

  ghost predicate EngineSound(e: Engine) {
    && (forall id <- e.containers :: id < e.nextId)
    && e.original in e.containers
    && (forall k :: 0 <= k < |e.created| ==> e.created[k] in e.containers && e.created[k] != e.original)
  }

  /** A started container runs until it is stopped or exits, and an exit is remembered. */
  predicate RunsOrExited(id: Id, a: Engine, b: Engine, done: Option<Mutation>)
    requires id in a.containers && id in b.containers
  {
    if done == Some(Start(id)) then b.containers[id].running || id in b.exited
    else
      && (id in a.exited ==> id in b.exited)
      && (a.containers[id].running && done != Some(Stop(id)) ==> b.containers[id].running || id in b.exited)
  }

  ghost predicate OwnedEvolved(id: Id, a: Engine, b: Engine, done: Option<Mutation>) {
    && id in a.containers && id in b.containers
    && Evolved(id, a.containers[id], b.containers[id], done) && RunsOrExited(id, a, b, done)
  }

  /** Every container the driver owns is still there and changed only as `Evolved` allows. */
  ghost predicate WorldEvolved(a: Engine, b: Engine, done: Option<Mutation>) {
    && b.original == a.original && |a.created| <= |b.created| && OwnedEvolved(a.original, a, b, done)
    && forall k :: 0 <= k < |a.created| ==> b.created[k] == a.created[k] && OwnedEvolved(a.created[k], a, b, done)
  }

  /** The effect of one performed request on what the driver owns. */
  ghost predicate Took(a: Engine, b: Engine, m: Mutation) {
    && WorldEvolved(a, b, Some(m))
    && b.performed == a.performed + [m] && b.pending.None?
    && if m.Create? then
         && |b.created| == |a.created| + 1
         && var id := b.created[|a.created|];
         && id in b.containers
         && b.containers[id].name == m.name && !b.containers[id].running
       else
         b.created == a.created
  }

  ghost predicate Undisturbed(a: Engine, b: Engine) {
    && b.created == a.created && b.issued == a.issued && b.performed == a.performed
    && WorldEvolved(a, b, None)
  }

  /** What may happen while the driver looks on: the outstanding request is performed or lost. */
  ghost predicate EngineDrifted(a: Engine, b: Engine) {
    && b.original == a.original && b.issued == a.issued
    && (|| (Undisturbed(a, b) && (b.pending == a.pending || b.pending.None?))
        || (a.pending.Some? && Took(a, b, a.pending.value)))
  }

  /** What sending one request may lead to. */
  ghost predicate Sending(a: Engine, b: Engine, m: Mutation) {
    && b.original == a.original && b.issued == a.issued + [m]
    && (Took(a, b, m) || (Undisturbed(a.(issued := b.issued), b) && b.pending in {None, Some(m)}))
  }

  lemma TookThenUndisturbed(a: Engine, b: Engine, c: Engine, m: Mutation)
    requires Took(a, b, m) && Undisturbed(b, c) && c.pending == b.pending
    ensures Took(a, c, m)
  {
  }

  lemma UndisturbedThenTook(a: Engine, b: Engine, c: Engine, m: Mutation)
    requires Undisturbed(a, b) && Took(b, c, m)
    ensures Took(a, c, m)
  {
  }

  lemma DriftReflexive(e: Engine)
    requires EngineSound(e)
    ensures EngineDrifted(e, e)
  {
  }

  lemma DriftComposes(a: Engine, b: Engine, c: Engine)
    requires EngineDrifted(a, b) && EngineDrifted(b, c)
    ensures EngineDrifted(a, c)
  {
  }

  class Daemon {
    var e: Engine

    constructor (containers: World, original: Id, nextId: Id)
      requires original in containers && forall id <- containers :: id < nextId
      ensures EngineSound(e) && e.containers == containers && e.original == original
      ensures e.issued == [] && e.performed == [] && e.created == [] && e.pending.None?
    {
      e := Engine(containers, original, [], nextId, 0, {}, [], [], None);
    }

    /** Performs an accepted request. */
    method Perform(m: Mutation)
      requires EngineSound(e) && Accepts(e.containers, m) && e.pending.None?
      modifies this
      ensures EngineSound(e) && Took(old(e), e, m)
      ensures m.Start? ==> m.id in e.containers && e.containers[m.id].running && m.id !in e.exited
      ensures e.issued == old(e.issued) && e.original == old(e.original)
    {
      var w := e.containers;
      match m {
        case Create(name, recipe) =>
          PerformCreate(name, recipe);
        case Stop(id) =>
          e := e.(performed := e.performed + [m], containers := w[id := w[id].(running := false)]);
        case Rename(id, to) =>
          e := e.(performed := e.performed + [m], containers := w[id := w[id].(name := to)]);
        case Start(id) =>
          PerformStart(id);
      }
    }

    /** What a creation makes may differ from what was asked. */
    method PerformCreate(name: string, recipe: Recipe)
      requires EngineSound(e) && e.pending.None?
      modifies this
      ensures EngineSound(e) && Took(old(e), e, Create(name, recipe))
      ensures e.issued == old(e.issued) && e.original == old(e.original)
    {
      var actual: Recipe := *;
      e := e.(performed := e.performed + [Create(name, recipe)],
      containers := e.containers[e.nextId := Container(actual, name, false, 0)],
      created := e.created + [e.nextId], nextId := e.nextId + 1);
    }

    method PerformStart(id: Id)
      requires EngineSound(e) && id in e.containers && e.pending.None?
      modifies this
      ensures EngineSound(e) && Took(old(e), e, Start(id))
      ensures id in e.containers && e.containers[id].running && id !in e.exited
      ensures e.issued == old(e.issued) && e.original == old(e.original)
    {
      var c := e.containers[id];
      if !c.running {
        c := c.(running := true, startedAt := e.clock + 1);
        e := e.(clock := e.clock + 1);
      }
      e := e.(performed := e.performed + [Start(id)], containers := e.containers[id := c], exited := e.exited - {id});
    }

    /** One container exits, or some container that is not owned appears, changes or goes. */
    method Disturb()
      requires EngineSound(e)
      modifies this
      ensures EngineSound(e) && Undisturbed(old(e), e) && e.pending == old(e.pending)
    {
      var id: Id, other: Container := *, *;
      var w := e.containers;
      if id in w && !other.running {
        e := e.(containers := w[id := w[id].(running := false)], exited := if w[id].running then e.exited + {id} else e.exited);
      } else if id in w && id != e.original && id !in e.created {
        if * {
          e := e.(containers := w[id := other]);
        } else {
          e := e.(containers := map k | k in w && k != id :: w[k]);
        }
      } else {
        e := e.(containers := w[e.nextId := other], nextId := e.nextId + 1);
      }
    }

    method DisturbAll()
      requires EngineSound(e)
      modifies this
      ensures EngineSound(e) && Undisturbed(old(e), e) && e.pending == old(e.pending)
    {
      var steps: nat :| 0 <= steps;
      for i := 0 to steps
        invariant EngineSound(e) && Undisturbed(old(e), e) && e.pending == old(e.pending)
      {
        Disturb();
      }
    }

    /** A performed request among everything else that happens. */
    method PerformAmid(m: Mutation)
      requires EngineSound(e) && Accepts(e.containers, m) && e.pending.None?
      modifies this
      ensures EngineSound(e) && Took(old(e), e, m) && e.issued == old(e.issued)
    {
      Perform(m);
      ghost var performed := e;
      DisturbAll();
      TookThenUndisturbed(old(e), performed, e, m);
    }

    method Drift()
      requires EngineSound(e)
      modifies this
      ensures EngineSound(e) && EngineDrifted(old(e), e)
    {
      DisturbAll();
      var late: bool := *;
      if late && e.pending.Some? {
        var m := e.pending.value;
        e := e.(pending := None);
        if Accepts(e.containers, m) {
          ghost var disturbed := e;
          PerformAmid(m);
          UndisturbedThenTook(old(e), disturbed, e, m);
        }
      }
    }

    /** From here on, `id` is the container that the driver is to replace. */
    method Watch(id: Id)
      requires EngineSound(e) && id in e.containers && e.created == []
      modifies this
      ensures e == old(e).(original := id) && EngineSound(e)
    {
      e := e.(original := id);
    }

    method Inspect(id: Id) returns (o: Outcome<Option<Seen>>)
      requires EngineSound(e)
      modifies this
      ensures EngineSound(e) && EngineDrifted(old(e), e)
      ensures o.Done? ==> o.value == if id in e.containers then Some(Seen(id, e.containers[id])) else None
    {
      Drift();
      if * {
        o := Done(if id in e.containers then Some(Seen(id, e.containers[id])) else None);
      } else {
        o := Lose(Unavailable);
      }
    }

    method InspectName(name: string) returns (o: Outcome<Option<Seen>>)
      requires EngineSound(e)
      modifies this
      ensures EngineSound(e) && EngineDrifted(old(e), e)
      ensures o.Done? && o.value.Some? ==>
        && o.value.value.id in e.containers && o.value.value.container == e.containers[o.value.value.id]
        && o.value.value.container.name == name
      ensures o == Done(None) ==> forall id <- e.containers :: e.containers[id].name != name
    {
      Drift();
      if * {
        if id :| id in e.containers && e.containers[id].name == name {
          o := Done(Some(Seen(id, e.containers[id])));
        } else {
          o := Done(None);
        }
      } else {
        o := Lose(Unavailable);
      }
    }

    /** Sends one request. Unless its reply is confirmed it may have been performed, may be performed
        later, or may never be. A creation is answered with the new identity. */
    method Send(m: Mutation) returns (o: Outcome<Id>)
      requires EngineSound(e) && e.pending.None?
      modifies this
      ensures EngineSound(e) && Sending(old(e), e, m)
      ensures o.Done? ==> Took(old(e), e, m)
      ensures o.Done? && m.Create? ==> |e.created| > 0 && o.value == e.created[|e.created| - 1]
    {
      e := e.(issued := e.issued + [m]);
      DisturbAll();
      var arrived: bool, answered: bool := *, *;
      if arrived && Accepts(e.containers, m) {
        ghost var disturbed := e;
        PerformAmid(m);
        UndisturbedThenTook(old(e).(issued := e.issued), disturbed, e, m);
        if answered {
          o := Done(if m.Create? then e.created[|e.created| - 1] else m.id);
        } else {
          o := Lose(Unconfirmed);
        }
      } else {
        if !arrived && answered {
          e := e.(pending := Some(m));
        }
        o := Lose(Unconfirmed);
      }
    }
  }

  /** Whether the daemon would accept a request in this world. */
  predicate Accepts(w: World, m: Mutation) {
    match m
    case Create(name, _) => forall id <- w :: w[id].name != name
    case Stop(id) => id in w
    case Rename(id, to) => id in w && forall other <- w :: w[other].name != to
    case Start(id) => id in w
  }
}
