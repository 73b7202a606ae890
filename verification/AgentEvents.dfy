// packages/agent/src/agent.ts: the state an Agent rebuilds from events, and its two message queues.

module AgentEvents {
  import opened Wrappers
  import opened Messages

  datatype Event =
    | AgentStart
    | AgentEnd(messages: seq<Message>)
    | TurnStart
    | TurnEnd(message: Message, results: seq<Message>)
    | MessageStart(message: Message)
    | MessageUpdate(message: Message)
    | MessageEnd(message: Message)
    | ContextCache
    | ToolStart(id: string, name: string, args: string)
    | ToolUpdate(id: string, name: string, partial: string)
    | ToolEnd(id: string, name: string, output: Option<string>, isError: bool)

  datatype AgentState = AgentState(
    messages: seq<Message>,
    streamMessage: Option<Message>,
    pendingToolCalls: set<string>,
    isStreaming: bool,
    error: Option<string>)

  /** `_processLoopEvent`. */
  function ProcessEvent(st: AgentState, ev: Event): AgentState {
    match ev
    case MessageStart(m) => st.(streamMessage := Some(m))
    case MessageUpdate(m) => st.(streamMessage := Some(m))
    case MessageEnd(m) => st.(streamMessage := None, messages := st.messages + [m])
    case ToolStart(id, _, _) => st.(pendingToolCalls := st.pendingToolCalls + {id})
    case ToolEnd(id, _, _, _) => st.(pendingToolCalls := st.pendingToolCalls - {id})
    case TurnEnd(m, _) =>
      if m.Assistant? && m.errorMessage.Some? && m.errorMessage.value != "" then st.(error := m.errorMessage) else st
    case AgentEnd(_) => st.(isStreaming := false, streamMessage := None)
    case _ => st
  }

  /** The state rebuilt from a trace. */
  function Replay(st: AgentState, trace: seq<Event>): AgentState {
    if trace == [] then st else ProcessEvent(Replay(st, trace[..|trace| - 1]), trace[|trace| - 1])
  }

  /** The messages a trace completes. */
  function Ended(trace: seq<Event>): seq<Message> {
    if trace == [] then []
    else
      var last := trace[|trace| - 1];
      Ended(trace[..|trace| - 1]) + if last.MessageEnd? then [last.message] else []
  }

  lemma {:induction false} ReplayMessages(st: AgentState, trace: seq<Event>)
    ensures Replay(st, trace).messages == st.messages + Ended(trace)
  {
    if trace != [] {
      ReplayMessages(st, trace[..|trace| - 1]);
    }
  }

  lemma {:induction false} EndedConcat(a: seq<Event>, b: seq<Event>)
    ensures Ended(a + b) == Ended(a) + Ended(b)
  {
    if b == [] {
      assert a + b == a;
    } else {
      EndedConcat(a, b[..|b| - 1]);
      assert (a + b)[..|a + b| - 1] == a + b[..|b| - 1];
    }
  }

  lemma ReplaySnoc(st: AgentState, trace: seq<Event>, ev: Event)
    ensures Replay(st, trace + [ev]) == ProcessEvent(Replay(st, trace), ev)
  {
    assert (trace + [ev])[..|trace|] == trace;
  }

  // ----- The shape of a trace -----

  datatype Where = Before | Between | InTurn | After

  /** `open`: a message bracket is open; `tools`: started and not yet ended tool calls. */
  datatype Shape = Shape(at: Where, open: bool, tools: multiset<string>) | Broken

  const OUTSIDE := Shape(Before, false, multiset{})

  function Follow(g: Shape, ev: Event): Shape {
    if g.Broken? then g
    else match ev
      case AgentStart => if g.at == Before then g.(at := Between) else Broken
      case TurnStart => if g.at == Between then g.(at := InTurn) else Broken
      case TurnEnd(_, _) => if g.at == InTurn && !g.open && g.tools == multiset{} then g.(at := Between) else Broken
      case AgentEnd(_) => if g.at == Between then g.(at := After) else Broken
      case MessageStart(_) => if g.at == InTurn && !g.open then g.(open := true) else Broken
      case MessageUpdate(_) => if g.at == InTurn && g.open then g else Broken
      case MessageEnd(_) => if g.at == InTurn && g.open then g.(open := false) else Broken
      case ContextCache => if g.at == InTurn then g else Broken
      case ToolStart(id, _, _) => if g.at == InTurn && !g.open then g.(tools := g.tools + multiset{id}) else Broken
      case ToolUpdate(id, _, _) => if g.at == InTurn && !g.open && id in g.tools then g else Broken
      case ToolEnd(id, _, _, _) =>
        if g.at == InTurn && !g.open && id in g.tools then g.(tools := g.tools - multiset{id}) else Broken
  }

  /** The automaton for well-formed traces: turns strictly alternate, message brackets never nest, every tool call
      that starts ends once before its turn does, and nothing follows `agent_end`. */
  function FollowAll(g: Shape, trace: seq<Event>): Shape {
    if trace == [] then g else Follow(FollowAll(g, trace[..|trace| - 1]), trace[|trace| - 1])
  }

  lemma {:induction false} FollowConcat(g: Shape, a: seq<Event>, b: seq<Event>)
    ensures FollowAll(g, a + b) == FollowAll(FollowAll(g, a), b)
  {
    if b == [] {
      assert a + b == a;
    } else {
      FollowConcat(g, a, b[..|b| - 1]);
      assert (a + b)[..|a + b| - 1] == a + b[..|b| - 1];
    }
  }

  /** Two stretches of a trace, one after the other. */
  lemma Then(g: Shape, a: seq<Event>, b: seq<Event>, mid: Shape, end: Shape)
    requires FollowAll(g, a) == mid && FollowAll(mid, b) == end
    ensures FollowAll(g, a + b) == end && Ended(a + b) == Ended(a) + Ended(b)
  {
    FollowConcat(g, a, b);
    EndedConcat(a, b);
  }

  lemma OneEvent(g: Shape, ev: Event)
    ensures FollowAll(g, [ev]) == Follow(g, ev)
    ensures Ended([ev]) == if ev.MessageEnd? then [ev.message] else []
  {
    assert [ev][..0] == [];
  }

  predicate Quiet(st: AgentState) {
    st.streamMessage == None && st.pendingToolCalls == {}
  }

  /** A stream message exactly inside a bracket; only tool calls in progress are pending. */
  predicate Tracks(g: Shape, st: AgentState) {
    !g.Broken? ==>
      && (st.streamMessage.Some? <==> g.open)
      && (forall id :: id in st.pendingToolCalls ==> id in g.tools)
      && (g.at != InTurn ==> !g.open && g.tools == multiset{})
  }

  lemma {:induction false} StepTracks(g: Shape, st: AgentState, ev: Event)
    requires Tracks(g, st)
    ensures Tracks(Follow(g, ev), ProcessEvent(st, ev))
  {
    match ev
    case ToolStart(id, _, _) =>
      forall other | other in st.pendingToolCalls + {id} ensures !g.Broken? ==> other in g.tools + multiset{id} {}
    case ToolEnd(id, _, _, _) =>
      forall other | other in st.pendingToolCalls - {id} ensures !g.Broken? ==> other in g.tools - multiset{id} {}
    case _ =>
  }

  lemma {:induction false} ShapeTracksState(st: AgentState, trace: seq<Event>)
    requires Quiet(st)
    ensures Tracks(FollowAll(OUTSIDE, trace), Replay(st, trace))
  {
    if trace != [] {
      var n := |trace| - 1;
      ShapeTracksState(st, trace[..n]);
      StepTracks(FollowAll(OUTSIDE, trace[..n]), Replay(st, trace[..n]), trace[n]);
    }
  }

  lemma {:induction false} BrokenStays(trace: seq<Event>)
    ensures FollowAll(Broken, trace).Broken?
  {
    if trace != [] {
      BrokenStays(trace[..|trace| - 1]);
    }
  }

  lemma PrefixUnbroken(g: Shape, trace: seq<Event>, k: nat)
    requires k <= |trace| && !FollowAll(g, trace).Broken?
    ensures !FollowAll(g, trace[..k]).Broken?
  {
    assert trace == trace[..k] + trace[k..];
    FollowConcat(g, trace[..k], trace[k..]);
    BrokenStays(trace[k..]);
  }

  lemma QuietBefore(g: Shape, st: AgentState, ev: Event)
    requires Tracks(g, st) && ev.TurnEnd? && !Follow(g, ev).Broken?
    ensures Quiet(st) && Quiet(ProcessEvent(st, ev))
  {
    assert forall id :: id in st.pendingToolCalls ==> id in g.tools;
  }

  /** At every `turn_end` of a well-formed trace the Agent has no pending tool call and no stream message. */
  lemma QuietAtTurnEnd(st: AgentState, trace: seq<Event>, k: nat)
    requires Quiet(st) && !FollowAll(OUTSIDE, trace).Broken?
    requires k < |trace| && trace[k].TurnEnd?
    ensures Quiet(Replay(st, trace[..k])) && Quiet(Replay(st, trace[..k + 1]))
  {
    PrefixUnbroken(OUTSIDE, trace, k + 1);
    assert trace[..k + 1][..k] == trace[..k];
    ShapeTracksState(st, trace[..k]);
    QuietBefore(FollowAll(OUTSIDE, trace[..k]), Replay(st, trace[..k]), trace[k]);
  }
}
