/** The transition table of the Qwen3 tool-call parser, and the backward scan for an open tool call. */
module Qwen3Grammar {
  import opened Effects

  datatype State = Reasoning | Content | ToolPreamble | ToolName | ToolArgs | ToolBetween

  datatype Terminal =
    | ThinkStart | ThinkEnd | ToolStart | ToolEnd | FuncPrefix | FuncEnd | ParamStart | ParamEnd | CloseAngle

  datatype Event = ReasoningEnd | ToolCallStart | ToolCallEnd | ArgValueChunk

  datatype Transition = Transition(next: State, events: seq<Event>)

  /** `qwen3_config(...).transitions`. */
  function Table(state: State, terminal: Terminal): Option<Transition> {
    match (state, terminal)
    case (Reasoning, ThinkStart) => Some(Transition(Reasoning, []))
    case (Reasoning, ThinkEnd) => Some(Transition(Content, [ReasoningEnd]))
    case (Content, ThinkEnd) => Some(Transition(Content, []))
    case (Reasoning, ToolStart) => Some(Transition(ToolPreamble, [ReasoningEnd, ToolCallStart]))
    case (Content, ToolStart) => Some(Transition(ToolPreamble, [ReasoningEnd, ToolCallStart]))
    case (Content, FuncPrefix) => Some(Transition(ToolName, [ToolCallStart]))
    case (ToolPreamble, ToolEnd) => Some(Transition(Content, [ToolCallEnd]))
    case (ToolPreamble, FuncPrefix) => Some(Transition(ToolName, []))
    case (ToolName, CloseAngle) => Some(Transition(ToolArgs, []))
    case (ToolName, FuncEnd) => Some(Transition(ToolBetween, [ToolCallEnd]))
    case (ToolArgs, FuncEnd) => Some(Transition(ToolBetween, [ToolCallEnd]))
    case (ToolArgs, ParamStart) => Some(Transition(ToolArgs, [ArgValueChunk]))
    case (ToolArgs, ParamEnd) => Some(Transition(ToolArgs, [ArgValueChunk]))
    case (ToolBetween, ToolEnd) => Some(Transition(Content, []))
    case (ToolBetween, ToolStart) => Some(Transition(ToolPreamble, [ToolCallStart]))
    case (ToolBetween, FuncPrefix) => Some(Transition(ToolName, [ToolCallStart]))
    case _ => None
  }

  /** A terminal without a transition is text of the state the parser is in. */
  function Next(state: State, terminal: Terminal): Transition {
    match Table(state, terminal)
    case Some(t) => t
    case None => Transition(state, [])
  }

  function Play(state: State, terminals: seq<Terminal>): Transition
    decreases |terminals|
  {
    if terminals == [] then Transition(state, [])
    else
      var t := Next(state, terminals[0]);
      var rest := Play(t.next, terminals[1..]);
      Transition(rest.next, t.events + rest.events)
  }

  /** A tool call is open. */
  predicate Open(state: State) {
    state.ToolPreamble? || state.ToolName? || state.ToolArgs?
  }

  /** Reads events as a consumer does: starts and ends alternate, arguments belong to an open call.
      None: some event came out of turn. */
  function Consume(open: bool, events: seq<Event>): Option<bool>
    decreases |events|
  {
    if events == [] then Some(open)
    else match events[0]
      case ReasoningEnd => if open then None else Consume(open, events[1..])
      case ToolCallStart => if open then None else Consume(true, events[1..])
      case ToolCallEnd => if open then Consume(false, events[1..]) else None
      case ArgValueChunk => if open then Consume(open, events[1..]) else None
  }

  lemma {:induction false} ConsumeInTurn(open: bool, first: seq<Event>, then': seq<Event>)
    requires Consume(open, first).Some?
    ensures Consume(open, first + then') == Consume(Consume(open, first).value, then')
    decreases |first|
  {
    if first == [] {
      assert first + then' == then';
    } else {
      assert (first + then')[1..] == first[1..] + then';
      ConsumeInTurn(if first[0].ToolCallStart? then true else if first[0].ToolCallEnd? then false else open, first[1..], then');
    }
  }

  /** Over every sequence of terminals and from every state, tool-call starts and ends strictly
      alternate, arguments and the end of reasoning fall where they belong, and a call is open exactly
      in the preamble, name and argument states. */
  lemma {:induction false} CallsAlternate(state: State, terminals: seq<Terminal>)
    ensures Consume(Open(state), Play(state, terminals).events) == Some(Open(Play(state, terminals).next))
    decreases |terminals|
  {
    if terminals != [] {
      var t := Next(state, terminals[0]);
      StepInTurn(state, terminals[0]);
      CallsAlternate(t.next, terminals[1..]);
      ConsumeInTurn(Open(state), t.events, Play(t.next, terminals[1..]).events);
    }
  }

  lemma StepInTurn(state: State, terminal: Terminal)
    ensures Consume(Open(state), Next(state, terminal).events) == Some(Open(Next(state, terminal).next))
  {
    var events := Next(state, terminal).events;
    if |events| == 2 {
      assert events[1..] == [ToolCallStart];
    } else if |events| == 1 {
      assert events[1..] == [];
    }
  }

  predicate EndsReasoning(terminal: Terminal) {
    terminal.ThinkEnd? || terminal.ToolStart?
  }

  /** Some terminal ends reasoning. */
  predicate Closes(terminals: seq<Terminal>) {
    exists t <- terminals :: EndsReasoning(t)
  }

  lemma ClosesSplit(terminals: seq<Terminal>)
    requires terminals != []
    ensures Closes(terminals) <==> EndsReasoning(terminals[0]) || Closes(terminals[1..])
  {
    assert terminals == [terminals[0]] + terminals[1..];
  }

  lemma ReasoningStep(terminal: Terminal)
    ensures
      var t := Next(Reasoning, terminal);
      if EndsReasoning(terminal) then !t.next.Reasoning? && t.events != [] && t.events[0] == ReasoningEnd
      else t == Transition(Reasoning, [])
  {
  }

  /** From reasoning, nothing is emitted before the end of reasoning; reasoning lasts exactly until the
      first terminal that ends it, and is never entered again. */
  lemma {:induction false} ReasoningOnce(state: State, terminals: seq<Terminal>)
    ensures
      var r := Play(state, terminals);
      && (r.next.Reasoning? <==> state.Reasoning? && !Closes(terminals))
      && (state.Reasoning? ==> if r.next.Reasoning? then r.events == [] else r.events != [] && r.events[0] == ReasoningEnd)
    decreases |terminals|
  {
    if terminals != [] {
      var t := Next(state, terminals[0]);
      ReasoningOnce(t.next, terminals[1..]);
      ClosesSplit(terminals);
      if state.Reasoning? {
        ReasoningStep(terminals[0]);
      } else {
        assert !t.next.Reasoning?;
      }
    }
  }

  /** How often the end of reasoning is reported. */
  function Ends(events: seq<Event>): nat {
    if events == [] then 0 else (if events[0].ReasoningEnd? then 1 else 0) + Ends(events[1..])
  }

  /** The openings of a tool call that are met in content: the first, and each after a `</tool_call>`. */
  function Openings(state: State, terminals: seq<Terminal>): nat
    decreases |terminals|
  {
    if terminals == [] then 0
    else
      (if state.Content? && terminals[0].ToolStart? then 1 else 0)
      + Openings(Next(state, terminals[0]).next, terminals[1..])
  }

  lemma {:induction false} EndsConcat(a: seq<Event>, b: seq<Event>)
    ensures Ends(a + b) == Ends(a) + Ends(b)
    decreases |a|
  {
    if a == [] {
      assert a + b == b;
    } else {
      assert (a + b)[1..] == a[1..] + b;
      EndsConcat(a[1..], b);
    }
  }

  lemma StepEnds(state: State, terminal: Terminal)
    ensures Ends(Next(state, terminal).events) ==
              (if state.Content? && terminal.ToolStart? then 1 else 0)
              + (if state.Reasoning? && EndsReasoning(terminal) then 1 else 0)
  {
    var events := Next(state, terminal).events;
    if |events| == 2 {
      assert events[1..] == [ToolCallStart] && [ToolCallStart][1..] == [];
    } else if |events| == 1 {
      assert events[1..] == [];
    }
  }

  /** The end of reasoning is reported once for the reasoning that ends, and once more for every tool
      call that is opened in content. */
  lemma {:induction false} ReasoningEndCount(state: State, terminals: seq<Terminal>)
    ensures Ends(Play(state, terminals).events) ==
              Openings(state, terminals) + (if state.Reasoning? && Closes(terminals) then 1 else 0)
    decreases |terminals|
  {
    if terminals != [] {
      var t, rest := Next(state, terminals[0]), terminals[1..];
      StepEnds(state, terminals[0]);
      ReasoningEndCount(t.next, rest);
      EndsConcat(t.events, Play(t.next, rest).events);
      ClosesSplit(terminals);
    }
  }

  /** It is reported at most once exactly when no tool call is opened in content, or just one and there
      was no reasoning to end. */
  lemma ReasoningEndAtMostOnce(state: State, terminals: seq<Terminal>)
    ensures Ends(Play(state, terminals).events) <= 1 <==>
              || Openings(state, terminals) == 0
              || (Openings(state, terminals) == 1 && !(state.Reasoning? && Closes(terminals)))
  {
    ReasoningEndCount(state, terminals);
  }

  /** A duplicate: after `</think>`, the opening of a tool call reports the end of reasoning again, and
      so does every opening after a closed call. */
  lemma ReasoningEndIsRepeated()
    ensures Play(Reasoning, [ThinkEnd, ToolStart]).events == [ReasoningEnd, ReasoningEnd, ToolCallStart]
    ensures Ends(Play(Reasoning, [ThinkEnd, ToolStart, ToolEnd, ToolStart]).events) == 3
  {
    assert [ThinkEnd, ToolStart][1..] == [ToolStart];
    assert Play(Content, [ToolStart]).events == [ReasoningEnd, ToolCallStart] + [];
    var ts := [ThinkEnd, ToolStart, ToolEnd, ToolStart];
    assert ts[1..] == [ToolStart, ToolEnd, ToolStart] && ts[1..][1..] == [ToolEnd, ToolStart] && ts[1..][1..][1..] == [ToolStart];
    assert ts[0] in ts && EndsReasoning(ts[0]);
    assert Openings(ToolPreamble, [ToolEnd, ToolStart]) == 1;
    assert Openings(Content, [ToolStart, ToolEnd, ToolStart]) == 2;
    ReasoningEndCount(Reasoning, ts);
  }

  // ---------------------------------------------------------------------------------------------
  // What a written list of calls comes to

  /** The states after each terminal: they decide what the text in between belongs to. */
  function Path(state: State, terminals: seq<Terminal>): seq<State>
    decreases |terminals|
  {
    if terminals == [] then []
    else
      var next := Next(state, terminals[0]).next;
      [next] + Path(next, terminals[1..])
  }

  /** Reads as one part after the other. */
  ghost predicate Reads(state: State, terminals: seq<Terminal>, path: seq<State>, events: seq<Event>, next: State) {
    Play(state, terminals) == Transition(next, events) && Path(state, terminals) == path
  }

  lemma ReadsNothing(state: State)
    ensures Reads(state, [], [], [], state)
  {
  }

  lemma ReadsOne(state: State, terminal: Terminal)
    ensures Reads(state, [terminal], [Next(state, terminal).next], Next(state, terminal).events, Next(state, terminal).next)
  {
    var t := Next(state, terminal);
    assert [terminal][1..] == [];
    assert t.events + [] == t.events;
  }

  lemma Associate<T>(a: seq<T>, b: seq<T>, c: seq<T>)
    ensures a + b + c == a + (b + c)
  {
  }

  lemma {:induction false} ReadsBoth(state: State, a: seq<Terminal>, b: seq<Terminal>, pa: seq<State>, pb: seq<State>,
                                     ea: seq<Event>, eb: seq<Event>, between: State, next: State)
    requires Reads(state, a, pa, ea, between) && Reads(between, b, pb, eb, next)
    ensures Reads(state, a + b, pa + pb, ea + eb, next)
    decreases |a|
  {
    if a == [] {
      assert a + b == b && pa + pb == pb && ea + eb == eb;
    } else {
      var t := Next(state, a[0]);
      var rest := Play(t.next, a[1..]);
      ReadsBoth(t.next, a[1..], b, Path(t.next, a[1..]), pb, rest.events, eb, between, next);
      assert (a + b)[1..] == a[1..] + b;
      Associate(t.events, rest.events, eb);
      Associate([t.next], Path(t.next, a[1..]), pb);
    }
  }

  /** What is between the tags of a call: nothing, a name that is not closed, or a name and parameters. */
  datatype Body = NoFunction | NoArguments | Arguments(params: nat)

  /** A call as a model writes it, with or without the tags around it. */
  datatype Call = Call(started: bool, body: Body, closed: bool)

  predicate Readable(state: State, c: Call) {
    && (state.Reasoning? ==> c.started) && (state.Reasoning? || state.Content? || state.ToolBetween?)
    && (c.body.NoFunction? ==> c.started && c.closed)
  }

  function Parameters(n: nat): seq<Terminal> {
    if n == 0 then [] else Parameters(n - 1) + ([ParamStart] + [CloseAngle] + [ParamEnd])
  }

  function BodyTerminals(body: Body): seq<Terminal> {
    match body
    case NoFunction => []
    case NoArguments => [FuncPrefix] + [FuncEnd]
    case Arguments(n) => [FuncPrefix] + [CloseAngle] + Parameters(n) + [FuncEnd]
  }

  function CallTerminals(c: Call): seq<Terminal> {
    (if c.started then [ToolStart] else []) + BodyTerminals(c.body) + (if c.closed then [ToolEnd] else [])
  }

  function Repeat<T>(x: T, n: nat): (r: seq<T>)
    ensures |r| == n && forall i :: 0 <= i < n ==> r[i] == x
  {
    seq(n, i requires 0 <= i < n => x)
  }

  lemma RepeatMore<T>(x: T, n: nat, m: nat)
    ensures Repeat(x, n) + Repeat(x, m) == Repeat(x, n + m)
  {
  }

  function BodyPath(body: Body): seq<State> {
    match body
    case NoFunction => []
    case NoArguments => [ToolName] + [ToolBetween]
    case Arguments(n) => [ToolName] + [ToolArgs] + Repeat(ToolArgs, 3 * n) + [ToolBetween]
  }

  /** The name is read as a name and the parameters as arguments; a closed call ends in content. */
  function CallPath(c: Call): seq<State> {
    (if c.started then [ToolPreamble] else []) + BodyPath(c.body) + (if c.closed then [Content] else [])
  }

  function CallEnds(c: Call): State {
    if c.closed then Content else ToolBetween
  }

  /** One start, two chunks for each parameter, and one end; and the end of reasoning, if the call is
      opened anywhere but right behind another one. */
  function CallEvents(state: State, c: Call): seq<Event> {
    (if c.started && !state.ToolBetween? then [ReasoningEnd] else [])
    + [ToolCallStart] + Repeat(ArgValueChunk, if c.body.Arguments? then 2 * c.body.params else 0) + [ToolCallEnd]
  }

  lemma ParameterIsRead()
    ensures Reads(ToolArgs, [ParamStart] + [CloseAngle] + [ParamEnd], Repeat(ToolArgs, 3), Repeat(ArgValueChunk, 2), ToolArgs)
  {
    ReadsOne(ToolArgs, ParamStart);
    ReadsOne(ToolArgs, CloseAngle);
    ReadsOne(ToolArgs, ParamEnd);
    ReadsBoth(ToolArgs, [ParamStart], [CloseAngle], [ToolArgs], [ToolArgs], [ArgValueChunk], [], ToolArgs, ToolArgs);
    ReadsBoth(ToolArgs, [ParamStart] + [CloseAngle], [ParamEnd], [ToolArgs] + [ToolArgs], [ToolArgs],
              [ArgValueChunk] + [], [ArgValueChunk], ToolArgs, ToolArgs);
    assert [ToolArgs] + [ToolArgs] + [ToolArgs] == Repeat(ToolArgs, 3);
    assert [ArgValueChunk] + [] + [ArgValueChunk] == Repeat(ArgValueChunk, 2);
  }

  lemma {:induction false} ParametersAreRead(n: nat)
    ensures Reads(ToolArgs, Parameters(n), Repeat(ToolArgs, 3 * n), Repeat(ArgValueChunk, 2 * n), ToolArgs)
  {
    if n == 0 {
      ReadsNothing(ToolArgs);
      assert Repeat(ToolArgs, 0) == [] && Repeat(ArgValueChunk, 0) == [];
    } else {
      ParametersAreRead(n - 1);
      ParameterIsRead();
      ReadsBoth(ToolArgs, Parameters(n - 1), [ParamStart] + [CloseAngle] + [ParamEnd],
                Repeat(ToolArgs, 3 * (n - 1)), Repeat(ToolArgs, 3),
                Repeat(ArgValueChunk, 2 * (n - 1)), Repeat(ArgValueChunk, 2), ToolArgs, ToolArgs);
      RepeatMore(ToolArgs, 3 * (n - 1), 3);
      RepeatMore(ArgValueChunk, 2 * (n - 1), 2);
    }
  }

  /** What the name and the parameters emit where a function may begin. */
  function BodyEvents(state: State, body: Body): seq<Event> {
    (if state.ToolPreamble? then [] else [ToolCallStart])
    + Repeat(ArgValueChunk, if body.Arguments? then 2 * body.params else 0) + [ToolCallEnd]
  }

  lemma BodyIsRead(state: State, body: Body)
    requires !body.NoFunction? && (state.ToolPreamble? || state.Content? || state.ToolBetween?)
    ensures Reads(state, BodyTerminals(body), BodyPath(body), BodyEvents(state, body), ToolBetween)
  {
    var start := Next(state, FuncPrefix).events;
    ReadsOne(state, FuncPrefix);
    if body.NoArguments? {
      ReadsOne(ToolName, FuncEnd);
      ReadsBoth(state, [FuncPrefix], [FuncEnd], [ToolName], [ToolBetween], start, [ToolCallEnd], ToolName, ToolBetween);
      assert start + Repeat(ArgValueChunk, 0) + [ToolCallEnd] == start + [ToolCallEnd];
    } else {
      var n := body.params;
      ReadsOne(ToolName, CloseAngle);
      ReadsBoth(state, [FuncPrefix], [CloseAngle], [ToolName], [ToolArgs], start, [], ToolName, ToolArgs);
      ParametersAreRead(n);
      ReadsBoth(state, [FuncPrefix] + [CloseAngle], Parameters(n), [ToolName] + [ToolArgs], Repeat(ToolArgs, 3 * n),
                start + [], Repeat(ArgValueChunk, 2 * n), ToolArgs, ToolArgs);
      ReadsOne(ToolArgs, FuncEnd);
      ReadsBoth(state, [FuncPrefix] + [CloseAngle] + Parameters(n), [FuncEnd],
                [ToolName] + [ToolArgs] + Repeat(ToolArgs, 3 * n), [ToolBetween],
                start + [] + Repeat(ArgValueChunk, 2 * n), [ToolCallEnd], ToolArgs, ToolBetween);
      assert start + [] == start;
    }
  }

  /** A written call is read as itself: its name as a name, its parameters as arguments, with one start and
      one end, wherever a call may begin. */
  lemma CallIsRead(state: State, c: Call)
    requires Readable(state, c)
    ensures Reads(state, CallTerminals(c), CallPath(c), CallEvents(state, c), CallEnds(c))
  {
    if c.body.NoFunction? {
      EmptyCallIsRead(state);
    } else if c.started {
      ReadsOne(state, ToolStart);
      BodyIsRead(ToolPreamble, c.body);
      var opening := Next(state, ToolStart).events;
      ReadsBoth(state, [ToolStart], BodyTerminals(c.body), [ToolPreamble], BodyPath(c.body),
                opening, BodyEvents(ToolPreamble, c.body), ToolPreamble, ToolBetween);
      OpenedEvents(state, c);
      CallIsClosed(state, c, [ToolStart] + BodyTerminals(c.body), [ToolPreamble] + BodyPath(c.body), opening + BodyEvents(ToolPreamble, c.body));
    } else {
      BodyIsRead(state, c.body);
      assert [] + BodyTerminals(c.body) == BodyTerminals(c.body) && [] + BodyPath(c.body) == BodyPath(c.body);
      assert [] + [ToolCallStart] == [ToolCallStart];
      CallIsClosed(state, c, BodyTerminals(c.body), BodyPath(c.body), BodyEvents(state, c.body));
    }
  }

  lemma EmptyCallIsRead(state: State)
    requires state.Reasoning? || state.Content? || state.ToolBetween?
    ensures
      var c := Call(true, NoFunction, true);
      Reads(state, CallTerminals(c), CallPath(c), CallEvents(state, c), Content)
  {
    var c := Call(true, NoFunction, true);
    ReadsOne(state, ToolStart);
    ReadsOne(ToolPreamble, ToolEnd);
    var opening := Next(state, ToolStart).events;
    ReadsBoth(state, [ToolStart], [ToolEnd], [ToolPreamble], [Content], opening, [ToolCallEnd], ToolPreamble, Content);
    assert [ToolStart] + [] == [ToolStart] && [ToolPreamble] + [] == [ToolPreamble];
    assert CallEvents(state, c) == opening + [ToolCallEnd];
  }

  lemma OpenedEvents(state: State, c: Call)
    requires Readable(state, c) && c.started && !c.body.NoFunction?
    ensures Next(state, ToolStart).events + BodyEvents(ToolPreamble, c.body) == CallEvents(state, c)
  {
  }

  lemma CallIsClosed(state: State, c: Call, terminals: seq<Terminal>, path: seq<State>, events: seq<Event>)
    requires Reads(state, terminals, path, events, ToolBetween)
    ensures Reads(state, terminals + (if c.closed then [ToolEnd] else []), path + (if c.closed then [Content] else []), events, CallEnds(c))
  {
    if c.closed {
      ReadsOne(ToolBetween, ToolEnd);
      ReadsBoth(state, terminals, [ToolEnd], path, [Content], events, [], ToolBetween, Content);
      assert events + [] == events;
    } else {
      assert terminals + [] == terminals && path + [] == path;
    }
  }

  function AllTerminals(cs: seq<Call>): seq<Terminal> {
    if cs == [] then [] else CallTerminals(cs[0]) + AllTerminals(cs[1..])
  }

  function AllPath(cs: seq<Call>): seq<State> {
    if cs == [] then [] else CallPath(cs[0]) + AllPath(cs[1..])
  }

  function AllEvents(state: State, cs: seq<Call>): seq<Event>
    decreases |cs|
  {
    if cs == [] then [] else CallEvents(state, cs[0]) + AllEvents(CallEnds(cs[0]), cs[1..])
  }

  predicate AllReadable(state: State, cs: seq<Call>)
    decreases |cs|
  {
    cs == [] || (Readable(state, cs[0]) && AllReadable(CallEnds(cs[0]), cs[1..]))
  }

  /** Where a list of calls leaves the parser. */
  function AllEnd(state: State, cs: seq<Call>): State
    decreases |cs|
  {
    if cs == [] then state else AllEnd(CallEnds(cs[0]), cs[1..])
  }

  /** So is a list of calls, one after the other. */
  lemma {:induction false} CallsAreRead(state: State, cs: seq<Call>)
    requires AllReadable(state, cs)
    ensures Reads(state, AllTerminals(cs), AllPath(cs), AllEvents(state, cs), AllEnd(state, cs))
    decreases |cs|
  {
    if cs == [] {
      ReadsNothing(state);
    } else {
      CallIsRead(state, cs[0]);
      CallsAreRead(CallEnds(cs[0]), cs[1..]);
      FirstAndRest(state, cs[0], cs[1..], AllTerminals(cs[1..]), AllPath(cs[1..]), AllEvents(CallEnds(cs[0]), cs[1..]));
    }
  }

  lemma FirstAndRest(state: State, c: Call, rest: seq<Call>, terminals: seq<Terminal>, path: seq<State>, events: seq<Event>)
    requires Reads(state, CallTerminals(c), CallPath(c), CallEvents(state, c), CallEnds(c))
    requires Reads(CallEnds(c), terminals, path, events, AllEnd(CallEnds(c), rest))
    ensures Reads(state, CallTerminals(c) + terminals, CallPath(c) + path, CallEvents(state, c) + events, AllEnd(CallEnds(c), rest))
  {
    ReadsBoth(state, CallTerminals(c), terminals, CallPath(c), path, CallEvents(state, c), events,
              CallEnds(c), AllEnd(CallEnds(c), rest));
  }

  /** The terminals that end what a state is about. */
  predicate Leaves(state: State, terminal: Terminal) {
    match state
    case Reasoning => terminal.ThinkEnd? || terminal.ToolStart?
    case Content => terminal.ToolStart? || terminal.FuncPrefix?
    case ToolPreamble => terminal.ToolEnd? || terminal.FuncPrefix?
    case ToolName => terminal.CloseAngle? || terminal.FuncEnd?
    case ToolArgs => terminal.FuncEnd?
    case ToolBetween => terminal.ToolEnd? || terminal.ToolStart? || terminal.FuncPrefix?
  }

  function ParameterTags(terminals: seq<Terminal>): nat {
    if terminals == [] then 0
    else (if terminals[0].ParamStart? || terminals[0].ParamEnd? then 1 else 0) + ParameterTags(terminals[1..])
  }

  /** Everything else is text of that state, however it looks, and reports nothing but argument chunks:
      arguments, for one, go on until `</function>`. */
  lemma {:induction false} TextStaysText(state: State, terminals: seq<Terminal>)
    requires forall t <- terminals :: !Leaves(state, t)
    ensures Play(state, terminals) ==
              Transition(state, Repeat(ArgValueChunk, if state.ToolArgs? then ParameterTags(terminals) else 0))
    decreases |terminals|
  {
    if terminals == [] {
      assert Repeat(ArgValueChunk, 0) == [];
    } else {
      assert terminals[0] in terminals && forall t <- terminals[1..] :: t in terminals;
      TextStaysText(state, terminals[1..]);
      TextStep(state, terminals[0]);
      RepeatMore(ArgValueChunk, if state.ToolArgs? then ParameterTags([terminals[0]]) else 0,
                 if state.ToolArgs? then ParameterTags(terminals[1..]) else 0);
      assert [terminals[0]][1..] == [];
    }
  }

  lemma TextStep(state: State, terminal: Terminal)
    requires !Leaves(state, terminal)
    ensures Next(state, terminal) == Transition(state, Repeat(ArgValueChunk, if state.ToolArgs? then ParameterTags([terminal]) else 0))
  {
    assert [terminal][1..] == [];
    assert Repeat(ArgValueChunk, 1) == [ArgValueChunk] && Repeat(ArgValueChunk, 0) == [];
  }

  /** A message: thinking, begun again at most, that ends in content, where a further end is dropped. */
  lemma ThinkingIsRead()
    ensures Reads(Reasoning, [ThinkStart] + [ThinkEnd] + [ThinkEnd], [Reasoning] + [Content] + [Content], [ReasoningEnd], Content)
  {
    ReadsOne(Reasoning, ThinkStart);
    ReadsOne(Reasoning, ThinkEnd);
    ReadsOne(Content, ThinkEnd);
    ReadsBoth(Reasoning, [ThinkStart], [ThinkEnd], [Reasoning], [Content], [], [ReasoningEnd], Reasoning, Content);
    assert [] + [ReasoningEnd] == [ReasoningEnd];
    ReadsBoth(Reasoning, [ThinkStart] + [ThinkEnd], [ThinkEnd], [Reasoning] + [Content], [Content], [ReasoningEnd], [], Content, Content);
    assert [ReasoningEnd] + [] == [ReasoningEnd];
  }

  // ---------------------------------------------------------------------------------------------
  // is_reasoning_end

  type Token = int

  datatype Vocabulary = Vocabulary(toolCall: Option<Token>, toolCallEnd: Option<Token>, reasoningStart: Option<Token>, boundaries: set<Token>)

  /** A new thought or a new turn: tool calls before it do not matter any more. */
  predicate Cuts(v: Vocabulary, token: Token) {
    Some(token) == v.reasoningStart || token in v.boundaries
  }

  /** The opener at `i` is followed by no closer, and by no cut. */
  ghost predicate OpenerAt(v: Vocabulary, ids: seq<Token>, i: nat)
    requires i < |ids|
  {
    && Some(ids[i]) == v.toolCall
    && (forall j :: i <= j < |ids| ==> !Cuts(v, ids[j]))
    && (forall j :: i < j < |ids| ==> Some(ids[j]) != v.toolCallEnd)
  }

  ghost predicate InToolCall(v: Vocabulary, ids: seq<Token>) {
    exists i: nat :: i < |ids| && OpenerAt(v, ids, i)
  }

  /** The same, reading forward and remembering one bit. */
  function Forward(v: Vocabulary, ids: seq<Token>): bool {
    if ids == [] then false
    else
      var last := ids[|ids| - 1];
      if Cuts(v, last) then false
      else if Some(last) == v.toolCall then true
      else if Some(last) == v.toolCallEnd then false
      else Forward(v, ids[..|ids| - 1])
  }

  /** Reading forward once finds an open call exactly when there is an opener without a later closer,
      thought or turn. */
  lemma {:induction false} ForwardIff(v: Vocabulary, ids: seq<Token>)
    ensures Forward(v, ids) <==> InToolCall(v, ids)
    decreases |ids|
  {
    if ids != [] {
      var most, n := ids[..|ids| - 1], |ids| - 1;
      ForwardIff(v, most);
      if Some(ids[n]) == v.toolCall && !Cuts(v, ids[n]) {
        assert OpenerAt(v, ids, n);
      }
      if InToolCall(v, most) && !Cuts(v, ids[n]) && Some(ids[n]) != v.toolCallEnd {
        var i: nat :| i < n && OpenerAt(v, most, i);
        forall j | i <= j < |ids| ensures !Cuts(v, ids[j]) && (i < j ==> Some(ids[j]) != v.toolCallEnd) {
          assert j < n ==> ids[j] == most[j];
        }
        assert OpenerAt(v, ids, i);
      }
      forall i: nat | i < n && OpenerAt(v, ids, i) ensures OpenerAt(v, most, i) {
      }
    }
  }

  /** `is_reasoning_end`, after the base class has answered: backward from the last token. */
  method IsReasoningEnd(v: Vocabulary, ids: seq<Token>, base: bool) returns (r: bool)
    ensures r == (base || InToolCall(v, ids))
  {
    if base {
      return true;
    }
    if v.toolCall.Some? {
      for i := |ids| downto 0
        invariant forall k: nat :: i <= k < |ids| ==> !OpenerAt(v, ids, k) && !Cuts(v, ids[k])
      {
        if v.reasoningStart.Some? && ids[i] == v.reasoningStart.value {
          return false;
        }
        if ids[i] in v.boundaries {
          return false;
        }
        if ids[i] == v.toolCall.value {
          if !(v.toolCallEnd.Some? && exists j | i + 1 <= j < |ids| :: ids[j] == v.toolCallEnd.value) {
            assert OpenerAt(v, ids, i);
            return true;
          }
        }
      }
    }
    return false;
  }
}
