// packages/agent/src/agent-loop.ts and agent.ts: one run of the loop, from the first event to `agent_end`.

module Queues {
  import opened Messages

  datatype Queue = Steering | FollowUp

  datatype QueueMode = All | OneAtATime

  /** What `dequeueSteeringMessages` and `dequeueFollowUpMessages` hand over, and what they leave. */
  function Taken(mode: QueueMode, queue: seq<Message>): seq<Message> {
    if mode == OneAtATime && queue != [] then [queue[0]] else queue
  }

  function Left(mode: QueueMode, queue: seq<Message>): seq<Message> {
    queue[|Taken(mode, queue)|..]
  }
}

module Streaming {
  import opened Wrappers
  import opened Messages
  import opened AgentEvents

  /** Provider events; `Finished` stands for `done` and `error`, which the loop treats alike. */
  datatype StreamEvent = Started(partial: Message) | Delta(partial: Message) | Finished

  /** A provider reply: its events, and the message `response.result()` resolves to. */
  datatype Reply = Reply(stream: seq<StreamEvent>, final: AssistantMessage)

  type AssistantMessage = m: Message | m.Assistant? witness Assistant([], Stop, None)

  /** The events that are read: those before the first `done` or `error`. */
  function Live(stream: seq<StreamEvent>): seq<StreamEvent> {
    if stream == [] || stream[0].Finished? then [] else [stream[0]] + Live(stream[1..])
  }

  /** The context, the emitted events and `partialMessage` while the stream is read. */
  datatype Reading = Reading(messages: seq<Message>, events: seq<Event>, partial: Option<Message>)

  function ReplaceLast(messages: seq<Message>, m: Message): seq<Message> {
    if messages == [] then [m] else messages[..|messages| - 1] + [m]
  }

  function ReadEvent(r: Reading, ev: StreamEvent): Reading {
    match ev
    case Started(p) => Reading(r.messages + [p], r.events + [MessageStart(p)], Some(p))
    case Delta(p) =>
      if r.partial.None? then r else Reading(ReplaceLast(r.messages, p), r.events + [MessageUpdate(p)], Some(p))
    case Finished => r
  }

  function ReadStream(messages: seq<Message>, stream: seq<StreamEvent>): Reading {
    if stream == [] then Reading(messages, [], None)
    else ReadEvent(ReadStream(messages, stream[..|stream| - 1]), stream[|stream| - 1])
  }

  /** The context after the reply. */
  function Answered(messages: seq<Message>, reply: Reply): seq<Message> {
    var r := ReadStream(messages, Live(reply.stream));
    if r.partial.Some? then ReplaceLast(r.messages, reply.final) else r.messages + [reply.final]
  }

  /** The events the reply emits. */
  function AnswerEvents(messages: seq<Message>, reply: Reply): seq<Event> {
    var r := ReadStream(messages, Live(reply.stream));
    r.events + [ContextCache] + (if r.partial.Some? then [] else [MessageStart(reply.final)]) + [MessageEnd(reply.final)]
  }

  function Starts(stream: seq<StreamEvent>): nat {
    if stream == [] then 0
    else Starts(stream[..|stream| - 1]) + if stream[|stream| - 1].Started? then 1 else 0
  }

  /** The provider's protocol: at most one `start` is read. */
  predicate OneStart(reply: Reply) {
    Starts(Live(reply.stream)) <= 1
  }
}

module AgentLoop {
  import opened Wrappers
  import opened Messages
  import opened AgentEvents
  import opened AgentTools
  import opened AgentToolProofs
  import opened Queues
  import opened Streaming
  import Transcript

  datatype ExecutionMode = Sequential | Parallel

  datatype Config = Config(mode: ExecutionMode, steeringMode: QueueMode, followUpMode: QueueMode)

  /** Messages queued by `steer` and `followUp` since the queues were last looked at. */
  datatype Arrivals = Arrivals(steering: seq<Message>, followUp: seq<Message>)

  /** What the world does in one turn: the provider's reply, the tools, and what is queued meanwhile. */
  datatype Turn = Turn(reply: Reply, tools: ToolTurn, beforeSteering: Arrivals, beforeFollowUp: Arrivals)

  /** Events and result messages of the tool phase. */
  datatype Outcome = Outcome(events: seq<Event>, results: seq<Message>)

  ghost predicate ToolsOk(mode: ExecutionMode, calls: seq<ToolCall>, tools: ToolTurn) {
    |tools.envs| == |calls| && (mode == Parallel ==> ParallelOk(calls, tools))
  }

  /** A failed reply or one without calls runs no tools. */
  ghost predicate TurnOk(cfg: Config, t: Turn) {
    !Failed(t.reply.final) && ToolCalls(t.reply.final) != [] ==> ToolsOk(cfg.mode, ToolCalls(t.reply.final), t.tools)
  }

  /** `executeToolCalls`. */
  function ToolPhase(cfg: Config, t: Turn): Outcome
    requires TurnOk(cfg, t)
  {
    var calls := ToolCalls(t.reply.final);
    if Failed(t.reply.final) || calls == [] then Outcome([], [])
    else if cfg.mode == Sequential then
      Outcome(SequentialEvents(calls, t.tools.envs), SequentialResults(calls, t.tools.envs))
    else
      ParallelIndices(calls, t.tools);
      Outcome(ParallelEvents(calls, t.tools), ParallelResults(calls, t.tools))
  }

  /** What a run does to the outside, in order. `emitted` is the number of events before the observation. */
  datatype Observation =
    | Injected(queue: Queue, messages: seq<Message>)
    | Called(context: seq<Message>, emitted: nat)
    | Closed(message: Message, refused: bool, context: seq<Message>, emitted: nat)
    | Polled(queue: Queue, taken: seq<Message>)

  /** The loop's variables, the two queues, and the run's history: `steered` and `followed` are all messages ever
      put into a queue, and `refused` records a transcript error. */
  datatype Loop = Loop(
    messages: seq<Message>,
    newMessages: seq<Message>,
    events: seq<Event>,
    log: seq<Observation>,
    steering: seq<Message>,
    followUp: seq<Message>,
    steered: seq<Message>,
    followed: seq<Message>,
    pending: seq<Message>,
    source: Queue,
    firstTurn: bool,
    ended: bool,
    refused: bool)

  /** `message_start` and `message_end` for messages that are already complete. */
  function Bracketed(messages: seq<Message>): seq<Event> {
    if messages == [] then []
    else
      var m := messages[|messages| - 1];
      Bracketed(messages[..|messages| - 1]) + [MessageStart(m), MessageEnd(m)]
  }

  function TranscriptError(): AssistantMessage {
    Assistant([], Error, Some("INVALID_TOOL_TRANSCRIPT"))
  }

  /** The head of the inner loop: open the turn and put the pending messages into the conversation. */
  function OpenTurn(s: Loop): Loop {
    s.(messages := s.messages + s.pending,
       newMessages := s.newMessages + s.pending,
       events := s.events + (if s.firstTurn then [] else [TurnStart]) + Bracketed(s.pending),
       log := s.log + (if s.pending == [] then [] else [Injected(s.source, s.pending)]),
       pending := [],
       firstTurn := false)
  }

  /** The transcript is refused: the error message is emitted but not put into the context. */
  function Refuse(s: Loop): Loop {
    var m := TranscriptError();
    s.(newMessages := s.newMessages + [m], events := s.events + [MessageStart(m), MessageEnd(m)], refused := true)
  }

  /** The provider is called with the context. */
  function Ask(s: Loop, reply: Reply): Loop {
    s.(messages := Answered(s.messages, reply),
       newMessages := s.newMessages + [reply.final],
       events := s.events + AnswerEvents(s.messages, reply),
       log := s.log + [Called(s.messages, |s.events|)])
  }

  function AddResults(s: Loop, outcome: Outcome): Loop {
    s.(messages := s.messages + outcome.results,
       newMessages := s.newMessages + outcome.results,
       events := s.events + outcome.events)
  }

  function CloseTurn(s: Loop, m: Message, results: seq<Message>): Loop {
    s.(events := s.events + [TurnEnd(m, results)], log := s.log + [Closed(m, s.refused, s.messages, |s.events|)])
  }

  function Finish(s: Loop): Loop {
    s.(events := s.events + [AgentEnd(s.newMessages)], ended := true)
  }

  function Arrive(s: Loop, a: Arrivals): Loop {
    s.(steering := s.steering + a.steering, steered := s.steered + a.steering,
       followUp := s.followUp + a.followUp, followed := s.followed + a.followUp)
  }

  function PollSteering(cfg: Config, s: Loop): Loop {
    var taken := Taken(cfg.steeringMode, s.steering);
    s.(steering := Left(cfg.steeringMode, s.steering), pending := taken, source := Steering,
       log := s.log + [Polled(Steering, taken)])
  }

  function PollFollowUp(cfg: Config, s: Loop): Loop {
    var taken := Taken(cfg.followUpMode, s.followUp);
    s.(followUp := Left(cfg.followUpMode, s.followUp), pending := taken, source := FollowUp,
       log := s.log + [Polled(FollowUp, taken)])
  }

  /** The agent would stop: look for follow-ups. */
  function LastPoll(cfg: Config, polled: Loop, t: Turn): Loop {
    var again := PollFollowUp(cfg, Arrive(polled, t.beforeFollowUp));
    if again.pending != [] then again else Finish(again)
  }

  /** The end of a turn that did not fail. */
  function NextMessages(cfg: Config, s: Loop, t: Turn): Loop {
    var polled := PollSteering(cfg, Arrive(s, t.beforeSteering));
    if ToolCalls(t.reply.final) != [] || polled.pending != [] then polled else LastPoll(cfg, polled, t)
  }

  /** The turn once the provider may be called. */
  function AnswerTurn(cfg: Config, s: Loop, t: Turn, outcome: Outcome): Loop {
    var asked := Ask(s, t.reply);
    if Failed(t.reply.final) then Finish(CloseTurn(asked, t.reply.final, []))
    else NextMessages(cfg, CloseTurn(AddResults(asked, outcome), t.reply.final, outcome.results), t)
  }

  predicate Callable(s: Loop) {
    Transcript.Valid(ConvertToLlm(s.messages))
  }

  /** One iteration of the inner loop, and of the outer loop's tail when the inner loop is done. */
  function RunTurn(cfg: Config, s: Loop, t: Turn): Loop
    requires TurnOk(cfg, t)
  {
    if s.ended then s
    else
      var ready := OpenTurn(s);
      if Callable(ready) then AnswerTurn(cfg, ready, t, ToolPhase(cfg, t))
      else Finish(CloseTurn(Refuse(ready), TranscriptError(), []))
  }

  ghost predicate ScriptOk(cfg: Config, turns: seq<Turn>) {
    forall i :: 0 <= i < |turns| ==> TurnOk(cfg, turns[i]) && OneStart(turns[i].reply)
  }

  /** The run after the given turns; every state a run passes at the end of a turn has this form. */
  function RunTurns(cfg: Config, start: Loop, turns: seq<Turn>): Loop
    requires forall i :: 0 <= i < |turns| ==> TurnOk(cfg, turns[i])
  {
    if turns == [] then start
    else RunTurn(cfg, RunTurns(cfg, start, turns[..|turns| - 1]), turns[|turns| - 1])
  }

  /** How a run is started: with prompts (`runAgentLoop`), given by the caller or taken from a queue, or without
      (`runAgentLoopContinue`, where `prompts` is empty). */
  datatype Opening = Opening(
    context: seq<Message>, prompts: seq<Message>, origin: Option<Queue>, skipPoll: bool,
    steering: seq<Message>, followUp: seq<Message>, steered: seq<Message>, followed: seq<Message>)

  /** The state before the queue is polled for the first time: the prompts are part of the context. */
  function Entering(o: Opening): Loop {
    Loop(o.context + o.prompts, o.prompts, [AgentStart, TurnStart] + Bracketed(o.prompts),
         if o.origin.Some? then [Injected(o.origin.value, o.prompts)] else [],
         o.steering, o.followUp, o.steered, o.followed, [], Steering, true, false, false)
  }

  /** `getSteeringMessages` before the first turn; it answers nothing when the prompts came from the queue. */
  function FirstPoll(cfg: Config, skipPoll: bool, s: Loop): Loop {
    if skipPoll then s.(log := s.log + [Polled(Steering, [])]) else PollSteering(cfg, s)
  }

  /** The state before the first turn. */
  function Begin(cfg: Config, o: Opening): Loop {
    FirstPoll(cfg, o.skipPoll, Entering(o))
  }
}
