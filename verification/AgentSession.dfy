// packages/agent/src/agent.ts: an Agent over many runs, with messages queued before, during and between them.

module AgentSession {
  import opened Wrappers
  import opened Messages
  import opened AgentEvents
  import opened AgentLoop
  import opened Queues

  /** An Agent between commands, and the runs it has finished. */
  datatype Session = Session(
    agent: AgentState,
    steering: seq<Message>,
    followUp: seq<Message>,
    steered: seq<Message>,
    followed: seq<Message>,
    runs: seq<Loop>)

  datatype Command =
    | Steer(message: Message)
    | QueueFollowUp(message: Message)
    | Prompt(messages: seq<Message>, turns: seq<Turn>)
    | Continue(turns: seq<Turn>)

  /** `_runLoop` before and after the run itself. */
  function Started(st: AgentState): AgentState {
    st.(isStreaming := true, streamMessage := None, error := None)
  }

  function Settled(st: AgentState): AgentState {
    st.(isStreaming := false, streamMessage := None, pendingToolCalls := {})
  }

  function PromptOpening(x: Session, prompts: seq<Message>): Opening {
    Opening(x.agent.messages, prompts, None, false, x.steering, x.followUp, x.steered, x.followed)
  }

  predicate LastIsAssistant(messages: seq<Message>) {
    messages != [] && messages[|messages| - 1].Assistant?
  }

  /** How `continue` starts a run, if it does: after a reply it takes what is queued, steering first. */
  function ContinueOpening(cfg: Config, x: Session): Option<Opening> {
    var messages := x.agent.messages;
    var steering := Taken(cfg.steeringMode, x.steering);
    var followUp := Taken(cfg.followUpMode, x.followUp);
    if messages == [] then None
    else if !LastIsAssistant(messages) then
      Some(Opening(messages, [], None, false, x.steering, x.followUp, x.steered, x.followed))
    else if steering != [] then
      Some(Opening(messages, steering, Some(Steering), true, Left(cfg.steeringMode, x.steering), x.followUp, x.steered, x.followed))
    else if followUp != [] then
      Some(Opening(messages, followUp, Some(FollowUp), false, x.steering, Left(cfg.followUpMode, x.followUp), x.steered, x.followed))
    else None
  }

  /** A command that starts a run, if it does. */
  function OpeningOf(cfg: Config, x: Session, c: Command): Option<Opening> {
    if x.agent.isStreaming then None
    else match c
      case Prompt(prompts, _) => Some(PromptOpening(x, prompts))
      case Continue(_) => ContinueOpening(cfg, x)
      case _ => None
  }

  function TurnsOf(c: Command): seq<Turn> {
    if c.Prompt? || c.Continue? then c.turns else []
  }

  function EndOf(cfg: Config, o: Opening, turns: seq<Turn>): Loop
    requires forall i :: 0 <= i < |turns| ==> TurnOk(cfg, turns[i])
  {
    RunTurns(cfg, Begin(cfg, o), turns)
  }

  function AfterRun(x: Session, end: Loop): Session {
    Session(Settled(Replay(Started(x.agent), end.events)), end.steering, end.followUp, end.steered, end.followed, x.runs + [end])
  }

  /** A command that throws leaves the session as it is. */
  function Do(cfg: Config, x: Session, c: Command): Session
    requires forall i :: 0 <= i < |TurnsOf(c)| ==> TurnOk(cfg, TurnsOf(c)[i])
  {
    match c
    case Steer(m) => x.(steering := x.steering + [m], steered := x.steered + [m])
    case QueueFollowUp(m) => x.(followUp := x.followUp + [m], followed := x.followed + [m])
    case _ =>
      var o := OpeningOf(cfg, x, c);
      if o.None? then x else AfterRun(x, EndOf(cfg, o.value, TurnsOf(c)))
  }

  /** The script of the command's run reaches its end. */
  ghost predicate CommandOk(cfg: Config, x: Session, c: Command) {
    && ScriptOk(cfg, TurnsOf(c))
    && (OpeningOf(cfg, x, c).Some? ==> EndOf(cfg, OpeningOf(cfg, x, c).value, TurnsOf(c)).ended)
  }

  ghost predicate CommandsOk(cfg: Config, x: Session, cs: seq<Command>)
    decreases cs, 0
  {
    if cs == [] then true
    else
      var n := |cs| - 1;
      CommandsOk(cfg, x, cs[..n]) && CommandOk(cfg, DoAll(cfg, x, cs[..n]), cs[n])
  }

  ghost function DoAll(cfg: Config, x: Session, cs: seq<Command>): Session
    requires CommandsOk(cfg, x, cs)
    decreases cs, 1
  {
    if cs == [] then x else Do(cfg, DoAll(cfg, x, cs[..|cs| - 1]), cs[|cs| - 1])
  }

  function Fresh(messages: seq<Message>): Session {
    Session(AgentState(messages, None, {}, false, None), [], [], [], [], [])
  }
}

module SessionProofs {
  import opened Wrappers
  import opened Messages
  import opened AgentEvents
  import opened AgentLoop
  import opened AgentSession
  import opened Queues
  import opened QueueProofs
  import opened Pairing
  import Agreement
  import Transcript
  import TranscriptProofs

  /** The messages all runs together have put into the conversation from a queue. */
  function AllEntered(runs: seq<Loop>, q: Queue): seq<Message> {
    if runs == [] then [] else AllEntered(runs[..|runs| - 1], q) + Entered(runs[|runs| - 1].log, q)
  }

  /** The messages all runs together have added. */
  function AllNew(runs: seq<Loop>): seq<Message> {
    if runs == [] then [] else AllNew(runs[..|runs| - 1]) + runs[|runs| - 1].newMessages
  }

  function Queued(x: Session, q: Queue): seq<Message> {
    if q == Steering then x.steering else x.followUp
  }

  function Total(x: Session, q: Queue): seq<Message> {
    if q == Steering then x.steered else x.followed
  }

  predicate Idle(st: AgentState) {
    Quiet(st) && !st.isStreaming
  }

  ghost predicate SessionInv(initial: seq<Message>, cfg: Config, x: Session) {
    && Idle(x.agent)
    && x.agent.messages == initial + AllNew(x.runs)
    && (forall q :: Total(x, q) == AllEntered(x.runs, q) + Queued(x, q))
    && (forall k :: 0 <= k < |x.runs| ==> x.runs[k].ended && Orderly(cfg, x.runs[k]))
  }

  lemma OpeningFits(cfg: Config, x: Session, c: Command, q: Queue)
    requires OpeningOf(cfg, x, c).Some? && Total(x, q) == AllEntered(x.runs, q) + Queued(x, q)
    ensures OpeningConserved(AllEntered(x.runs, q), q, OpeningOf(cfg, x, c).value)
    ensures OpeningPolled(cfg, OpeningOf(cfg, x, c).value)
    ensures OpeningOf(cfg, x, c).value.context == x.agent.messages
  {
    TakenLeft(cfg.steeringMode, x.steering);
    TakenLeft(cfg.followUpMode, x.followUp);
    NothingTaken(AllEntered(x.runs, q), Queued(x, q));
  }

  lemma NothingTaken(entered: seq<Message>, queue: seq<Message>)
    ensures entered + ([] + queue) == entered + queue
  {
  }

  lemma RunsSnoc(runs: seq<Loop>, end: Loop, q: Queue)
    ensures AllEntered(runs + [end], q) == AllEntered(runs, q) + Entered(end.log, q)
    ensures AllNew(runs + [end]) == AllNew(runs) + end.newMessages
  {
    assert (runs + [end])[..|runs|] == runs;
  }

  lemma RunConserves(cfg: Config, x: Session, c: Command, q: Queue)
    requires CommandOk(cfg, x, c) && OpeningOf(cfg, x, c).Some?
    requires Total(x, q) == AllEntered(x.runs, q) + Queued(x, q)
    ensures var x' := AfterRun(x, EndOf(cfg, OpeningOf(cfg, x, c).value, TurnsOf(c)));
      Total(x', q) == AllEntered(x'.runs, q) + Queued(x', q)
  {
    var o := OpeningOf(cfg, x, c).value;
    var end := EndOf(cfg, o, TurnsOf(c));
    OpeningFits(cfg, x, c, q);
    QueueConservation(AllEntered(x.runs, q), q, cfg, o, TurnsOf(c));
    RunsSnoc(x.runs, end, q);
    assert PendingOf(end, q) == [];
    assert AllEntered(x.runs, q) + Entered(end.log, q) + [] == AllEntered(x.runs, q) + Entered(end.log, q);
  }

  lemma SettledIdle(st: AgentState)
    ensures Idle(Settled(st)) && Settled(st).messages == st.messages
  {
  }

  lemma RunMessages(cfg: Config, o: Opening, agent: AgentState, turns: seq<Turn>, end: Loop)
    requires ScriptOk(cfg, turns) && o.context == agent.messages && end == EndOf(cfg, o, turns)
    ensures Replay(Started(agent), end.events).messages == agent.messages + end.newMessages
  {
    Agreement.EventSourcedAgreement(cfg, o, Started(agent), turns, end);
  }

  lemma RunAdds(initial: seq<Message>, x: Session, end: Loop)
    requires Replay(Started(x.agent), end.events).messages == x.agent.messages + end.newMessages
    requires x.agent.messages == initial + AllNew(x.runs)
    ensures AfterRun(x, end).agent.messages == initial + AllNew(AfterRun(x, end).runs)
  {
    SettledIdle(Replay(Started(x.agent), end.events));
    RunsSnoc(x.runs, end, Steering);
    Appended(initial, AllNew(x.runs), end.newMessages);
  }

  lemma Appended(a: seq<Message>, b: seq<Message>, c: seq<Message>)
    ensures a + b + c == a + (b + c)
  {
  }

  lemma RunKeepsSession(initial: seq<Message>, cfg: Config, x: Session, c: Command)
    requires CommandOk(cfg, x, c) && OpeningOf(cfg, x, c).Some? && SessionInv(initial, cfg, x)
    ensures SessionInv(initial, cfg, AfterRun(x, EndOf(cfg, OpeningOf(cfg, x, c).value, TurnsOf(c))))
  {
    var o := OpeningOf(cfg, x, c).value;
    var end := EndOf(cfg, o, TurnsOf(c));
    OpeningFits(cfg, x, c, Steering);
    RunMessages(cfg, o, x.agent, TurnsOf(c), end);
    DeliveryRules(cfg, o, TurnsOf(c));
    RunConserves(cfg, x, c, Steering);
    RunConserves(cfg, x, c, FollowUp);
    FinishedRun(initial, cfg, x, end);
  }

  lemma FinishedRun(initial: seq<Message>, cfg: Config, x: Session, end: Loop)
    requires SessionInv(initial, cfg, x) && end.ended && Orderly(cfg, end)
    requires Replay(Started(x.agent), end.events).messages == x.agent.messages + end.newMessages
    requires var x' := AfterRun(x, end);
      && Total(x', Steering) == AllEntered(x'.runs, Steering) + Queued(x', Steering)
      && Total(x', FollowUp) == AllEntered(x'.runs, FollowUp) + Queued(x', FollowUp)
    ensures SessionInv(initial, cfg, AfterRun(x, end))
  {
    RunAdds(initial, x, end);
    SettledIdle(Replay(Started(x.agent), end.events));
  }

  lemma CommandKeepsSession(initial: seq<Message>, cfg: Config, x: Session, c: Command)
    requires CommandOk(cfg, x, c) && SessionInv(initial, cfg, x)
    ensures SessionInv(initial, cfg, Do(cfg, x, c))
  {
    hide CommandOk, OpeningOf, RunTurns, ScriptOk;
    if c.Steer? {
      assert AllEntered(x.runs, Steering) + x.steering + [c.message] == AllEntered(x.runs, Steering) + (x.steering + [c.message]);
    } else if c.QueueFollowUp? {
      assert AllEntered(x.runs, FollowUp) + x.followUp + [c.message] == AllEntered(x.runs, FollowUp) + (x.followUp + [c.message]);
    } else if OpeningOf(cfg, x, c).Some? {
      RunKeepsSession(initial, cfg, x, c);
    }
  }

  /** Over a whole session: every message ever queued has entered the conversation exactly once, first come first, or
      is still queued; the Agent's messages are those it started with and then what its runs added; between commands
      it is idle; and every run kept the delivery rules. */
  lemma {:induction false} SessionConservation(initial: seq<Message>, cfg: Config, cs: seq<Command>)
    requires CommandsOk(cfg, Fresh(initial), cs)
    ensures SessionInv(initial, cfg, DoAll(cfg, Fresh(initial), cs))
  {
    if cs == [] {
      assert initial + AllNew([]) == initial;
    } else {
      var n := |cs| - 1;
      SessionConservation(initial, cfg, cs[..n]);
      CommandKeepsSession(initial, cfg, DoAll(cfg, Fresh(initial), cs[..n]), cs[n]);
    }
  }

  // ----- What becomes of the transcript -----

  predicate PlainCommand(c: Command) {
    match c
    case Steer(m) => Plain([m])
    case QueueFollowUp(m) => Plain([m])
    case Prompt(messages, turns) => Plain(messages) && PlainArrivals(turns)
    case Continue(turns) => PlainArrivals(turns)
  }

  predicate AnyRefused(runs: seq<Loop>) {
    exists k :: 0 <= k < |runs| && runs[k].refused
  }

  /** The Agent's messages are fit for the provider as long as no run was refused; afterwards every run is. */
  ghost predicate Fate(x: Session) {
    && Plain(x.steering) && Plain(x.followUp)
    && (Sound(x.agent.messages) <==> !AnyRefused(x.runs))
  }

  lemma RefusedSnoc(runs: seq<Loop>, end: Loop)
    ensures AnyRefused(runs + [end]) <==> AnyRefused(runs) || end.refused
  {
    if AnyRefused(runs) {
      var k :| 0 <= k < |runs| && runs[k].refused;
      assert (runs + [end])[k].refused;
    }
    assert (runs + [end])[|runs|] == end;
  }

  lemma OpeningPlain(cfg: Config, x: Session, c: Command)
    requires OpeningOf(cfg, x, c).Some? && PlainCommand(c) && Plain(x.steering) && Plain(x.followUp)
    ensures PlainOpening(OpeningOf(cfg, x, c).value)
  {
    PlainQueue(cfg.steeringMode, x.steering, []);
    PlainQueue(cfg.followUpMode, x.followUp, []);
    assert x.steering + [] == x.steering && x.followUp + [] == x.followUp;
  }

  lemma {:induction false} PlainRun(cfg: Config, o: Opening, turns: seq<Turn>)
    requires ScriptOk(cfg, turns) && PlainOpening(o) && PlainArrivals(turns)
    ensures PlainQueues(RunTurns(cfg, Begin(cfg, o), turns))
  {
    if turns == [] {
      PlainQueue(cfg.steeringMode, o.steering, []);
      assert o.steering + [] == o.steering;
    } else {
      var n := |turns| - 1;
      PlainRun(cfg, o, turns[..n]);
      PlainTurn(cfg, RunTurns(cfg, Begin(cfg, o), turns[..n]), turns[n]);
    }
  }

  lemma PlainTurn(cfg: Config, s: Loop, t: Turn)
    requires TurnOk(cfg, t) && PlainQueues(s) && PlainArrivals([t])
    ensures PlainQueues(RunTurn(cfg, s, t))
  {
    var ready := OpenTurn(s);
    if !s.ended && Callable(ready) && !Failed(t.reply.final) {
      var outcome := ToolPhase(cfg, t);
      NextPlain(cfg, CloseTurn(AddResults(Ask(ready, t.reply), outcome), t.reply.final, outcome.results), t);
    }
  }

  /** After a run the Agent's messages are paired exactly when they were before and the run was not refused. */
  lemma RunFate(cfg: Config, o: Opening, turns: seq<Turn>, end: Loop, agent: AgentState)
    requires ScriptOk(cfg, turns) && PlainOpening(o) && PlainArrivals(turns) && end == EndOf(cfg, o, turns) && end.ended
    requires agent.messages == o.context
    ensures Sound(Replay(agent, end.events).messages) <==> Sound(o.context) && !end.refused
    ensures !Sound(o.context) ==> end.refused
  {
    Agreement.EventSourcedAgreement(cfg, o, agent, turns, end);
    if Sound(o.context) {
      RunTracked(cfg, o, turns);
    } else {
      BrokenRun(cfg, o, turns);
    }
    if end.refused {
      FailedAdded(end.messages, TranscriptError());
    }
  }

  lemma CommandFate(cfg: Config, x: Session, c: Command)
    requires CommandOk(cfg, x, c) && PlainCommand(c) && Fate(x)
    ensures Fate(Do(cfg, x, c))
  {
    if OpeningOf(cfg, x, c).Some? {
      var o := OpeningOf(cfg, x, c).value;
      var end := EndOf(cfg, o, TurnsOf(c));
      OpeningPlain(cfg, x, c);
      PlainRun(cfg, o, TurnsOf(c));
      RunFate(cfg, o, TurnsOf(c), end, Started(x.agent));
      RefusedSnoc(x.runs, end);
    }
  }

  /** What becomes of the transcript over a whole session with plain messages: the Agent's messages stay paired exactly
      as long as no run was refused. A conversation once broken is never repaired by prompting: every later run is
      refused before the provider is called. */
  lemma {:induction false} TranscriptFate(messages: seq<Message>, cfg: Config, cs: seq<Command>)
    requires CommandsOk(cfg, Fresh(messages), cs) && Transcript.Valid(ConvertToLlm(messages))
    requires forall i :: 0 <= i < |cs| ==> PlainCommand(cs[i])
    ensures Fate(DoAll(cfg, Fresh(messages), cs))
  {
    if cs == [] {
      ConversionKeepsRelevant(messages);
      TranscriptProofs.ValidExactlyPaired(ConvertToLlm(messages));
    } else {
      var n := |cs| - 1;
      TranscriptFate(messages, cfg, cs[..n]);
      CommandFate(cfg, DoAll(cfg, Fresh(messages), cs[..n]), cs[n]);
    }
  }
}
