// packages/agent/src/agent.ts and agent-loop.ts as code: the Agent object, the loop's context, and the methods that
// update them, each against the functions of module AgentLoop.

module AgentObject {
  import opened Wrappers
  import opened Messages
  import opened AgentEvents
  import opened AgentTools
  import opened AgentToolProofs
  import opened Streaming
  import opened AgentLoop
  import opened Queues
  import AgentSession
  import SchedulerRun
  import WavePool
  import Transcript

  class Agent {
    var messages: seq<Message>
    var streamMessage: Option<Message>
    var pendingToolCalls: set<string>
    var isStreaming: bool
    var error: Option<string>
    var steeringQueue: seq<Message>
    var followUpQueue: seq<Message>
    var steeringMode: QueueMode
    var followUpMode: QueueMode
    var toolExecution: ExecutionMode
    /** The events of the current run, the finished runs, and all messages ever queued. */
    ghost var trace: seq<Event>
    ghost var runs: seq<Loop>
    ghost var steered: seq<Message>
    ghost var followed: seq<Message>

    constructor (initial: seq<Message>, toolExecution: ExecutionMode, steeringMode: QueueMode, followUpMode: QueueMode)
      ensures Session() == AgentSession.Fresh(initial)
      ensures Cfg() == Config(toolExecution, steeringMode, followUpMode)
    {
      messages := initial;
      streamMessage := None;
      pendingToolCalls := {};
      isStreaming := false;
      error := None;
      steeringQueue, followUpQueue := [], [];
      this.steeringMode := steeringMode;
      this.followUpMode := followUpMode;
      this.toolExecution := toolExecution;
      trace, runs, steered, followed := [], [], [], [];
    }

    ghost function State(): AgentState
      reads this
    {
      AgentState(messages, streamMessage, pendingToolCalls, isStreaming, error)
    }

    ghost function Cfg(): Config
      reads this
    {
      Config(toolExecution, steeringMode, followUpMode)
    }

    ghost function Session(): AgentSession.Session
      reads this
    {
      AgentSession.Session(State(), steeringQueue, followUpQueue, steered, followed, runs)
    }

    method Steer(m: Message)
      modifies `steeringQueue, `steered
      ensures steeringQueue == old(steeringQueue) + [m] && steered == old(steered) + [m]
    {
      steeringQueue := steeringQueue + [m];
      steered := steered + [m];
    }

    method QueueFollowUp(m: Message)
      modifies `followUpQueue, `followed
      ensures followUpQueue == old(followUpQueue) + [m] && followed == old(followed) + [m]
    {
      followUpQueue := followUpQueue + [m];
      followed := followed + [m];
    }

    /** Others queue messages while the loop waits. */
    method Receive(a: Arrivals)
      modifies `steeringQueue, `steered, `followUpQueue, `followed
      ensures steeringQueue == old(steeringQueue) + a.steering && steered == old(steered) + a.steering
      ensures followUpQueue == old(followUpQueue) + a.followUp && followed == old(followed) + a.followUp
    {
      for i := 0 to |a.steering|
        invariant steeringQueue == old(steeringQueue) + a.steering[..i] && steered == old(steered) + a.steering[..i]
        invariant followUpQueue == old(followUpQueue) && followed == old(followed)
      {
        Steer(a.steering[i]);
      }
      for i := 0 to |a.followUp|
        invariant steeringQueue == old(steeringQueue) + a.steering && steered == old(steered) + a.steering
        invariant followUpQueue == old(followUpQueue) + a.followUp[..i] && followed == old(followed) + a.followUp[..i]
      {
        QueueFollowUp(a.followUp[i]);
      }
    }

    method DequeueSteeringMessages() returns (taken: seq<Message>)
      modifies `steeringQueue
      ensures taken == Taken(steeringMode, old(steeringQueue)) && steeringQueue == Left(steeringMode, old(steeringQueue))
    {
      if steeringMode == OneAtATime {
        if |steeringQueue| > 0 {
          var first := steeringQueue[0];
          steeringQueue := steeringQueue[1..];
          return [first];
        }
        return [];
      }
      taken := steeringQueue;
      steeringQueue := [];
    }

    method DequeueFollowUpMessages() returns (taken: seq<Message>)
      modifies `followUpQueue
      ensures taken == Taken(followUpMode, old(followUpQueue)) && followUpQueue == Left(followUpMode, old(followUpQueue))
    {
      if followUpMode == OneAtATime {
        if |followUpQueue| > 0 {
          var first := followUpQueue[0];
          followUpQueue := followUpQueue[1..];
          return [first];
        }
        return [];
      }
      taken := followUpQueue;
      followUpQueue := [];
    }

    /** `_processLoopEvent`, which is where the loop's events arrive. */
    method ProcessLoopEvent(event: Event)
      modifies `messages, `streamMessage, `pendingToolCalls, `isStreaming, `error, `trace
      ensures State() == ProcessEvent(old(State()), event)
      ensures trace == old(trace) + [event]
    {
      trace := trace + [event];
      match event {
        case MessageStart(m) => streamMessage := Some(m);
        case MessageUpdate(m) => streamMessage := Some(m);
        case MessageEnd(m) =>
          streamMessage := None;
          messages := messages + [m];
        case ToolStart(id, _, _) => pendingToolCalls := pendingToolCalls + {id};
        case ToolEnd(id, _, _, _) => pendingToolCalls := pendingToolCalls - {id};
        case TurnEnd(m, _) =>
          if m.Assistant? && m.errorMessage.Some? && m.errorMessage.value != "" {
            error := m.errorMessage;
          }
        case AgentEnd(_) =>
          isStreaming := false;
          streamMessage := None;
        case _ =>
      }
    }

    /** The run that starts with these prompts now. */
    ghost function Opened(prompts: seq<Message>, origin: Option<Queue>, skipPoll: bool): Opening
      reads this
    {
      Opening(messages, prompts, origin, skipPoll, steeringQueue, followUpQueue, steered, followed)
    }

    /** `_runLoop` up to the first poll. */
    method StartRun(prompts: seq<Message>, ghost origin: Option<Queue>, ghost skipPoll: bool) returns (run: Run)
      modifies this
      ensures fresh(run) && run.agent == this && run.Valid() && run.before == AgentSession.Started(old(State()))
      ensures run.View([], Steering, true, false, false) == Entering(old(Opened(prompts, origin, skipPoll)))
      ensures Cfg() == old(Cfg()) && runs == old(runs)
    {
      isStreaming := true;
      streamMessage := None;
      error := None;
      trace := [];
      run := new Run(this, messages + prompts, prompts, if origin.Some? then [Injected(origin.value, prompts)] else []);
      assert run.Valid();
      hide Replay, Bracketed, Run.Valid;
      run.Enter(prompts);
    }

    /** What `_runLoop` does in the end. */
    method Settle(ghost end: Loop)
      modifies this
      ensures State() == AgentSession.Settled(old(State())) && runs == old(runs) + [end] && Cfg() == old(Cfg())
      ensures steeringQueue == old(steeringQueue) && followUpQueue == old(followUpQueue)
      ensures steered == old(steered) && followed == old(followed)
    {
      isStreaming := false;
      streamMessage := None;
      pendingToolCalls := {};
      runs := runs + [end];
    }

    /** `_runLoop`; the script reaches the end of the run. */
    method RunAgent(prompts: seq<Message>, ghost origin: Option<Queue>, skipInitialSteeringPoll: bool, turns: seq<Turn>)
      requires TurnsOk(Cfg(), turns)
      requires AgentSession.EndOf(Cfg(), Opened(prompts, origin, skipInitialSteeringPoll), turns).ended
      modifies this
      ensures Cfg() == old(Cfg())
      ensures Session() == AgentSession.AfterRun(old(Session()),
        AgentSession.EndOf(Cfg(), old(Opened(prompts, origin, skipInitialSteeringPoll)), turns))
    {
      hide RunTurns, Replay, Entering, TurnsOk, AgentSession.Started;
      var run := StartRun(prompts, origin, skipInitialSteeringPoll);
      var ended;
      ghost var end;
      ended, end := run.RunLoop(skipInitialSteeringPoll, turns);
      Settle(end);
    }

    /** `prompt`; the result says whether it threw. */
    method Prompt(prompts: seq<Message>, turns: seq<Turn>) returns (thrown: bool)
      requires AgentSession.CommandOk(Cfg(), Session(), AgentSession.Prompt(prompts, turns))
      modifies this
      ensures Session() == AgentSession.Do(old(Cfg()), old(Session()), AgentSession.Prompt(prompts, turns))
      ensures thrown <==> old(isStreaming)
    {
      if isStreaming {
        return true;
      }
      RunAgent(prompts, None, false, turns);
      return false;
    }

    /** `continue` after a reply: what is queued starts the run, steering first. */
    method ContinueQueued(turns: seq<Turn>) returns (thrown: bool)
      requires AgentSession.CommandOk(Cfg(), Session(), AgentSession.Continue(turns))
      requires !isStreaming && AgentSession.LastIsAssistant(messages)
      modifies this
      ensures Session() == AgentSession.Do(old(Cfg()), old(Session()), AgentSession.Continue(turns))
      ensures thrown <==> AgentSession.OpeningOf(old(Cfg()), old(Session()), AgentSession.Continue(turns)).None?
    {
      RunPromised(Cfg(), Session(), AgentSession.Continue(turns));
      hide AgentSession.CommandOk, AgentSession.EndOf, TurnsOk, RunTurns, Replay;
      var queuedSteering := DequeueSteeringMessages();
      if |queuedSteering| > 0 {
        RunAgent(queuedSteering, Some(Steering), true, turns);
        return false;
      }
      var queuedFollowUp := DequeueFollowUpMessages();
      if |queuedFollowUp| > 0 {
        RunAgent(queuedFollowUp, Some(FollowUp), false, turns);
        return false;
      }
      return true;
    }

    /** `continue`; the result says whether it threw. */
    method Continue(turns: seq<Turn>) returns (thrown: bool)
      requires AgentSession.CommandOk(Cfg(), Session(), AgentSession.Continue(turns))
      modifies this
      ensures Session() == AgentSession.Do(old(Cfg()), old(Session()), AgentSession.Continue(turns))
      ensures thrown <==> AgentSession.OpeningOf(old(Cfg()), old(Session()), AgentSession.Continue(turns)).None?
    {
      RunPromised(Cfg(), Session(), AgentSession.Continue(turns));
      hide AgentSession.CommandOk, AgentSession.EndOf, TurnsOk, RunTurns, Replay;
      if isStreaming || |messages| == 0 {
        return true;
      }
      if messages[|messages| - 1].Assistant? {
        thrown := ContinueQueued(turns);
      } else {
        RunAgent([], None, false, turns);
        thrown := false;
      }
    }
  }

  /** `currentContext.messages` and `newMessages`, and the run's history. */
  class Run {
    const agent: Agent
    var messages: seq<Message>
    var newMessages: seq<Message>
    ghost var log: seq<Observation>
    /** The Agent's state and the length of its trace when the run started. */
    ghost var before: AgentState

    constructor (agent: Agent, messages: seq<Message>, newMessages: seq<Message>, ghost log: seq<Observation>)
      ensures this.agent == agent && this.messages == messages && this.newMessages == newMessages && this.log == log
      ensures before == agent.State()
    {
      this.agent := agent;
      this.messages := messages;
      this.newMessages := newMessages;
      this.log := log;
      before := agent.State();
    }

    /** The Agent's state is the one its events rebuild. */
    ghost predicate Valid()
      reads this, agent
    {
      agent.State() == Replay(before, agent.trace)
    }

    /** The run as a value, given the loop's local variables. */
    ghost function View(pending: seq<Message>, source: Queue, firstTurn: bool, ended: bool, refused: bool): Loop
      reads this, agent
    {
      Loop(messages, newMessages, agent.trace, log, agent.steeringQueue, agent.followUpQueue, agent.steered, agent.followed,
           pending, source, firstTurn, ended, refused)
    }

    method Emit(event: Event)
      requires Valid()
      modifies agent`messages, agent`streamMessage, agent`pendingToolCalls, agent`isStreaming, agent`error, agent`trace
      ensures Valid() && agent.trace == old(agent.trace) + [event]
    {
      ReplaySnoc(before, agent.trace, event);
      agent.ProcessLoopEvent(event);
    }

    method EmitAll(events: seq<Event>)
      requires Valid()
      modifies agent`messages, agent`streamMessage, agent`pendingToolCalls, agent`isStreaming, agent`error, agent`trace
      ensures Valid() && agent.trace == old(agent.trace) + events
    {
      for i := 0 to |events|
        invariant Valid() && agent.trace == old(agent.trace) + events[..i]
      {
        Emit(events[i]);
      }
    }

    // ----- Tools -----

    /** `emitToolCallOutcome`. */
    method EmitToolCallOutcome(call: ToolCall, output: Option<string>, isError: bool) returns (m: Message)
      requires Valid()
      modifies agent`messages, agent`streamMessage, agent`pendingToolCalls, agent`isStreaming, agent`error, agent`trace
      ensures Valid() && agent.trace == old(agent.trace) + OutcomeEvents(call, output, isError)
      ensures m == ResultMessage(call, output, isError)
    {
      Emit(ToolEnd(call.id, call.name, output, isError));
      m := ToolResult(call.id, call.name, output, isError);
      Emit(MessageStart(m));
      Emit(MessageEnd(m));
    }

    /** `finalizeExecutedToolCall`. */
    method FinalizeExecutedToolCall(call: ToolCall, env: ToolEnv, output: Option<string>, isError: bool)
      returns (m: Message)
      requires Valid()
      modifies agent`messages, agent`streamMessage, agent`pendingToolCalls, agent`isStreaming, agent`error, agent`trace
      ensures Valid()
      ensures var outcome := Finalized(env, output, isError);
        && m == ResultMessage(call, outcome.0, outcome.1)
        && agent.trace == old(agent.trace) + OutcomeEvents(call, outcome.0, outcome.1)
    {
      var result, failed := output, isError;
      if env.after.Some? {
        if env.after.value.output.Some? {
          result := env.after.value.output;
        }
        failed := env.after.value.isError.GetOr(failed);
      }
      m := EmitToolCallOutcome(call, result, failed);
    }

    /** One call of the sequential loop. */
    method ExecuteOne(call: ToolCall, env: ToolEnv) returns (m: Message)
      requires Valid()
      modifies agent`messages, agent`streamMessage, agent`pendingToolCalls, agent`isStreaming, agent`error, agent`trace
      ensures Valid() && agent.trace == old(agent.trace) + SequentialCallEvents(call, env)
      ensures m == ResultMessage(call, SequentialOutcome(call, env).0, SequentialOutcome(call, env).1)
    {
      hide Valid;
      Emit(StartEvent(call));
      var preparation := Prepare(call, env);
      if preparation.Immediate? {
        m := EmitToolCallOutcome(call, Some(preparation.output), true);
      } else {
        EmitAll(UpdateEvents(call, env.partials));
        var executed := Executed(env);
        m := FinalizeExecutedToolCall(call, env, Some(executed.value), executed.isError);
      }
    }

    /** `executeToolCallsSequential`. */
    method ExecuteToolCallsSequential(calls: seq<ToolCall>, envs: seq<ToolEnv>) returns (results: seq<Message>)
      requires Valid() && |envs| == |calls|
      modifies agent`messages, agent`streamMessage, agent`pendingToolCalls, agent`isStreaming, agent`error, agent`trace
      ensures Valid() && agent.trace == old(agent.trace) + SequentialEvents(calls, envs)
      ensures results == SequentialResults(calls, envs)
    {
      results := [];
      for k := 0 to |calls|
        invariant Valid() && agent.trace == old(agent.trace) + SequentialEvents(calls[..k], envs[..k])
        invariant results == SequentialResults(calls[..k], envs[..k])
      {
        SequentialNext(calls, envs, k);
        Regroup(old(agent.trace), SequentialEvents(calls[..k], envs[..k]), SequentialCallEvents(calls[k], envs[k]));
        var m := ExecuteOne(calls[k], envs[k]);
        results := results + [m];
      }
      assert calls[..|calls|] == calls && envs[..|envs|] == envs;
    }

    /** One call of the first pass of `executeToolCallsParallel`. */
    method PrepareCall(call: ToolCall, env: ToolEnv) returns (refusal: Option<Message>)
      requires Valid()
      modifies agent`messages, agent`streamMessage, agent`pendingToolCalls, agent`isStreaming, agent`error, agent`trace
      ensures Valid() && agent.trace == old(agent.trace) + PreflightCallEvents(call, env)
      ensures var p := Prepare(call, env);
        refusal == if p.Immediate? then Some(ResultMessage(call, Some(p.output), true)) else None
    {
      Emit(StartEvent(call));
      var preparation := Prepare(call, env);
      refusal := None;
      if preparation.Immediate? {
        var m := EmitToolCallOutcome(call, Some(preparation.output), true);
        refusal := Some(m);
      }
    }

    method PrepareCalls(calls: seq<ToolCall>, envs: seq<ToolEnv>) returns (results: seq<Message>, runnable: seq<nat>)
      requires Valid() && |envs| == |calls|
      modifies agent`messages, agent`streamMessage, agent`pendingToolCalls, agent`isStreaming, agent`error, agent`trace
      ensures Valid() && agent.trace == old(agent.trace) + PreflightEvents(calls, envs)
      ensures results == ImmediateResults(calls, envs) && runnable == Positions(calls, envs, false)
    {
      results, runnable := [], [];
      for k := 0 to |calls|
        invariant Valid() && agent.trace == old(agent.trace) + PreflightEvents(calls[..k], envs[..k])
        invariant results == ImmediateResults(calls[..k], envs[..k])
        invariant runnable == Positions(calls[..k], envs[..k], false)
      {
        PreflightNext(calls, envs, k);
        Regroup(old(agent.trace), PreflightEvents(calls[..k], envs[..k]), PreflightCallEvents(calls[k], envs[k]));
        var refusal := PrepareCall(calls[k], envs[k]);
        if refusal.Some? {
          results := results + [refusal.value];
        } else {
          runnable := runnable + [k];
        }
      }
      assert calls[..|calls|] == calls && envs[..|envs|] == envs;
    }

    /** The last pass: the scheduler's results, as they stand. */
    method FinalizeScheduled(calls: seq<ToolCall>, envs: seq<ToolEnv>, runnable: seq<nat>, scheduled: seq<WavePool.Result>)
      returns (results: seq<Message>)
      requires Valid() && |envs| == |calls| && runnable == Positions(calls, envs, false) && IndicesOk(scheduled, |runnable|)
      modifies agent`messages, agent`streamMessage, agent`pendingToolCalls, agent`isStreaming, agent`error, agent`trace
      ensures Valid() && agent.trace == old(agent.trace) + ScheduledEvents(calls, envs, scheduled)
      ensures results == ScheduledResults(calls, envs, scheduled)
    {
      results := [];
      for k := 0 to |scheduled|
        invariant Valid() && agent.trace == old(agent.trace) + ScheduledEvents(calls, envs, scheduled[..k])
        invariant results == ScheduledResults(calls, envs, scheduled[..k])
      {
        ghost var reported := agent.trace;
        var p := runnable[scheduled[k].index];
        var m := FinalizeExecutedToolCall(calls[p], envs[p], ScheduledOutput(scheduled[k]), scheduled[k].isError);
        results := results + [m];
        ScheduledNext(calls, envs, scheduled, k);
        Regroup(old(agent.trace), ScheduledEvents(calls, envs, scheduled[..k]), agent.trace[|reported|..]);
      }
      assert scheduled[..|scheduled|] == scheduled;
    }

    /** `executeToolCallsParallel`; the scheduler's run is the one that ends in `tools.finished`. */
    method ExecuteToolCallsParallel(calls: seq<ToolCall>, tools: ToolTurn) returns (results: seq<Message>)
      requires Valid() && ParallelOk(calls, tools)
      modifies agent`messages, agent`streamMessage, agent`pendingToolCalls, agent`isStreaming, agent`error, agent`trace
      ensures IndicesOk(SchedulerRun.Output(tools.finished), |Positions(calls, tools.envs, false)|)
      ensures Valid() && agent.trace == old(agent.trace) + ParallelEvents(calls, tools)
      ensures results == ParallelResults(calls, tools)
    {
      ParallelIndices(calls, tools);
      var reports := ParallelUpdates(calls, tools.envs, tools.updates);
      var output := SchedulerRun.Output(tools.finished);
      var immediate, runnable := PrepareCalls(calls, tools.envs);
      EmitAll(reports);
      var scheduled := FinalizeScheduled(calls, tools.envs, runnable, output);
      results := immediate + scheduled;
      Regroup(old(agent.trace), PreflightEvents(calls, tools.envs), reports);
      Regroup(old(agent.trace), PreflightEvents(calls, tools.envs) + reports, ScheduledEvents(calls, tools.envs, output));
    }

    // ----- The reply -----

    /** The `for await` loop of `streamAssistantResponse`, up to the first `done` or `error`. */
    method ReadReply(stream: seq<StreamEvent>) returns (partialMessage: Option<Message>)
      requires Valid()
      modifies this`messages
      modifies agent`messages, agent`streamMessage, agent`pendingToolCalls, agent`isStreaming, agent`error, agent`trace
      ensures Valid()
      ensures var r := ReadStream(old(messages), Live(stream));
        messages == r.messages && agent.trace == old(agent.trace) + r.events && partialMessage == r.partial
      ensures partialMessage.Some? ==> messages != []
    {
      partialMessage := None;
      var i := 0;
      LiveFrom(stream, 0);
      ReadNothing(messages, stream);
      hide Live, ReadStream;
      ghost var r := ReadStream(messages, stream[..0]);
      while i < |stream| && !stream[i].Finished?
        invariant 0 <= i <= |stream| && Live(stream) == stream[..i] + Live(stream[i..])
        invariant Valid() && r == ReadStream(old(messages), stream[..i])
        invariant messages == r.messages && agent.trace == old(agent.trace) + r.events && partialMessage == r.partial
        invariant partialMessage.Some? ==> messages != []
      {
        ReadNext(old(messages), stream, i);
        LiveFrom(stream, i);
        r := ReadEvent(r, stream[i]);
        match stream[i] {
          case Started(p) =>
            partialMessage := Some(p);
            messages := messages + [p];
            Emit(MessageStart(p));
          case Delta(p) =>
            if partialMessage.Some? {
              partialMessage := Some(p);
              messages := messages[..|messages| - 1] + [p];
              Emit(MessageUpdate(p));
            }
          case Finished =>
        }
        i := i + 1;
      }
      LiveFrom(stream, i);
      assert Live(stream) == stream[..i];
    }

    /** The end of the reply, the same after `done`, after `error` and when the stream runs out. */
    method FinishReply(addedPartial: bool, finalMessage: AssistantMessage)
      requires Valid() && (addedPartial ==> messages != [])
      modifies this`messages
      modifies agent`messages, agent`streamMessage, agent`pendingToolCalls, agent`isStreaming, agent`error, agent`trace
      ensures Valid()
      ensures messages == if addedPartial then ReplaceLast(old(messages), finalMessage) else old(messages) + [finalMessage]
      ensures agent.trace == old(agent.trace) + ([ContextCache]
        + (if addedPartial then [] else [MessageStart(finalMessage)]) + [MessageEnd(finalMessage)])
    {
      Emit(ContextCache);
      if addedPartial {
        messages := messages[..|messages| - 1] + [finalMessage];
      } else {
        messages := messages + [finalMessage];
        Emit(MessageStart(finalMessage));
      }
      Emit(MessageEnd(finalMessage));
    }

    /** `streamAssistantResponse`. */
    method StreamAssistantResponse(reply: Reply) returns (message: AssistantMessage, ghost refused: bool)
      requires Valid()
      modifies this`messages, this`log
      modifies agent`messages, agent`streamMessage, agent`pendingToolCalls, agent`isStreaming, agent`error, agent`trace
      ensures Valid()
      ensures refused <==> !Transcript.Valid(ConvertToLlm(old(messages)))
      ensures refused ==>
        && message == TranscriptError() && messages == old(messages) && log == old(log)
        && agent.trace == old(agent.trace) + [MessageStart(message), MessageEnd(message)]
      ensures !refused ==>
        && message == reply.final && messages == Answered(old(messages), reply)
        && log == old(log) + [Called(old(messages), |old(agent.trace)|)]
        && agent.trace == old(agent.trace) + AnswerEvents(old(messages), reply)
    {
      var llmMessages := ConvertToLlm(messages);
      var ok, scan := Transcript.Validate(llmMessages);
      refused := !ok;
      if ok {
        log := log + [Called(messages, |agent.trace|)];
        var partialMessage := ReadReply(reply.stream);
        message := reply.final;
        FinishReply(partialMessage.Some?, message);
        AnswerRegrouped(old(agent.trace), old(messages), reply);
      } else {
        message := TranscriptError();
        Emit(MessageStart(message));
        Emit(MessageEnd(message));
      }
    }

    // ----- The loop -----

    /** The first events of `runAgentLoop` and `runAgentLoopContinue`; the prompts are in the context already. */
    method Enter(prompts: seq<Message>)
      requires Valid() && agent.trace == []
      modifies agent`messages, agent`streamMessage, agent`pendingToolCalls, agent`isStreaming, agent`error, agent`trace
      ensures Valid() && agent.trace == [AgentStart, TurnStart] + Bracketed(prompts)
    {
      Emit(AgentStart);
      Emit(TurnStart);
      for k := 0 to |prompts|
        invariant Valid() && agent.trace == [AgentStart, TurnStart] + Bracketed(prompts[..k])
      {
        assert prompts[..k + 1][..k] == prompts[..k];
        Emit(MessageStart(prompts[k]));
        Emit(MessageEnd(prompts[k]));
      }
      assert prompts[..|prompts|] == prompts;
    }

    /** Messages that are complete already: emitted, and put into the context and the new messages. */
    method PushMessages(pending: seq<Message>)
      requires Valid()
      modifies this`messages, this`newMessages
      modifies agent`messages, agent`streamMessage, agent`pendingToolCalls, agent`isStreaming, agent`error, agent`trace
      ensures Valid() && agent.trace == old(agent.trace) + Bracketed(pending)
      ensures messages == old(messages) + pending && newMessages == old(newMessages) + pending
    {
      for k := 0 to |pending|
        invariant Valid() && agent.trace == old(agent.trace) + Bracketed(pending[..k])
        invariant messages == old(messages) + pending[..k] && newMessages == old(newMessages) + pending[..k]
      {
        BracketedNext(pending, k);
        Regroup(old(agent.trace), Bracketed(pending[..k]), [MessageStart(pending[k]), MessageEnd(pending[k])]);
        Emit(MessageStart(pending[k]));
        Emit(MessageEnd(pending[k]));
        messages := messages + [pending[k]];
        newMessages := newMessages + [pending[k]];
        Regroup(old(messages), pending[..k], [pending[k]]);
        Regroup(old(newMessages), pending[..k], [pending[k]]);
      }
      assert pending[..|pending|] == pending;
    }

    /** The head of the inner loop. */
    method InjectPending(pending: seq<Message>, ghost source: Queue, firstTurn: bool)
      requires Valid()
      modifies this`messages, this`newMessages, this`log
      modifies agent`messages, agent`streamMessage, agent`pendingToolCalls, agent`isStreaming, agent`error, agent`trace
      ensures Valid()
      ensures View([], source, false, false, false) == OpenTurn(old(View(pending, source, firstTurn, false, false)))
    {
      if !firstTurn {
        Emit(TurnStart);
      }
      if |pending| > 0 {
        log := log + [Injected(source, pending)];
        PushMessages(pending);
      }
      assert old(agent.trace) + [] == old(agent.trace) && old(log) + [] == old(log);
      assert agent.trace + [] == agent.trace && messages + [] == messages && newMessages + [] == newMessages;
    }

    /** `executeToolCalls`. */
    method ExecuteToolCalls(t: Turn) returns (results: seq<Message>)
      requires Valid() && TurnOk(agent.Cfg(), t) && !Failed(t.reply.final) && ToolCalls(t.reply.final) != []
      modifies agent`messages, agent`streamMessage, agent`pendingToolCalls, agent`isStreaming, agent`error, agent`trace
      ensures Valid()
      ensures results == ToolPhase(agent.Cfg(), t).results
      ensures agent.trace == old(agent.trace) + ToolPhase(agent.Cfg(), t).events
    {
      var calls := ToolCalls(t.reply.final);
      if agent.toolExecution == Sequential {
        results := ExecuteToolCallsSequential(calls, t.tools.envs);
      } else {
        results := ExecuteToolCallsParallel(calls, t.tools);
      }
    }

    method PushResults(results: seq<Message>)
      modifies this`messages, this`newMessages
      ensures messages == old(messages) + results && newMessages == old(newMessages) + results
    {
      for k := 0 to |results|
        invariant messages == old(messages) + results[..k] && newMessages == old(newMessages) + results[..k]
      {
        messages := messages + [results[k]];
        newMessages := newMessages + [results[k]];
      }
    }

    /** The reply, in the conversation. */
    method Answer(reply: Reply, ghost source: Queue) returns (message: AssistantMessage, ghost refused: bool)
      requires Valid()
      modifies this`messages, this`newMessages, this`log
      modifies agent`messages, agent`streamMessage, agent`pendingToolCalls, agent`isStreaming, agent`error, agent`trace
      ensures Valid()
      ensures refused <==> !Callable(old(View([], source, false, false, false)))
      ensures View([], source, false, false, refused)
           == var s := old(View([], source, false, false, false)); if refused then Refuse(s) else Ask(s, reply)
      ensures message == if refused then TranscriptError() else reply.final
    {
      message, refused := StreamAssistantResponse(reply);
      newMessages := newMessages + [message];
    }

    /** The tools, and their results in the conversation. */
    method RunTools(t: Turn, ghost source: Queue) returns (results: seq<Message>)
      requires Valid() && TurnOk(agent.Cfg(), t) && !Failed(t.reply.final)
      modifies this`messages, this`newMessages
      modifies agent`messages, agent`streamMessage, agent`pendingToolCalls, agent`isStreaming, agent`error, agent`trace
      ensures Valid() && results == ToolPhase(agent.Cfg(), t).results
      ensures View([], source, false, false, false)
           == AddResults(old(View([], source, false, false, false)), ToolPhase(agent.Cfg(), t))
    {
      hide SequentialEvents, ParallelEvents, SequentialResults, ParallelResults;
      results := [];
      if ToolCalls(t.reply.final) != [] {
        results := ExecuteToolCalls(t);
        PushResults(results);
      } else {
        assert messages + [] == messages && newMessages + [] == newMessages && agent.trace + [] == agent.trace;
      }
    }

    method CloseTurn(message: AssistantMessage, results: seq<Message>, ghost source: Queue, ghost refused: bool)
      requires Valid()
      modifies this`log
      modifies agent`messages, agent`streamMessage, agent`pendingToolCalls, agent`isStreaming, agent`error, agent`trace
      ensures Valid()
      ensures View([], source, false, false, refused)
           == AgentLoop.CloseTurn(old(View([], source, false, false, refused)), message, results)
    {
      log := log + [Closed(message, refused, messages, |agent.trace|)];
      Emit(TurnEnd(message, results));
    }

    method EndRun(ghost source: Queue, ghost refused: bool)
      requires Valid()
      modifies agent`messages, agent`streamMessage, agent`pendingToolCalls, agent`isStreaming, agent`error, agent`trace
      ensures Valid()
      ensures View([], source, false, true, refused) == Finish(old(View([], source, false, false, refused)))
    {
      Emit(AgentEnd(newMessages));
    }

    /** `getSteeringMessages`, with what was queued before. */
    method GetSteeringMessages(arrivals: Arrivals, ghost source: Queue) returns (pending: seq<Message>)
      requires Valid()
      modifies this`log
      modifies agent`steeringQueue, agent`steered, agent`followUpQueue, agent`followed
      ensures Valid()
      ensures View(pending, Steering, false, false, false)
           == PollSteering(agent.Cfg(), Arrive(old(View([], source, false, false, false)), arrivals))
    {
      agent.Receive(arrivals);
      pending := agent.DequeueSteeringMessages();
      log := log + [Polled(Steering, pending)];
    }

    /** `getFollowUpMessages`, with what was queued before. */
    method GetFollowUpMessages(arrivals: Arrivals) returns (pending: seq<Message>)
      requires Valid()
      modifies this`log
      modifies agent`steeringQueue, agent`steered, agent`followUpQueue, agent`followed
      ensures Valid()
      ensures View(pending, FollowUp, false, false, false)
           == PollFollowUp(agent.Cfg(), Arrive(old(View([], Steering, false, false, false)), arrivals))
    {
      agent.Receive(arrivals);
      pending := agent.DequeueFollowUpMessages();
      log := log + [Polled(FollowUp, pending)];
    }

    /** A turn up to its `turn_end`. */
    method PlayTurn(pending: seq<Message>, ghost source: Queue, firstTurn: bool, t: Turn)
      returns (message: AssistantMessage, ghost refused: bool)
      requires Valid() && TurnOk(agent.Cfg(), t)
      modifies this`messages, this`newMessages, this`log
      modifies agent`messages, agent`streamMessage, agent`pendingToolCalls, agent`isStreaming, agent`error, agent`trace
      ensures Valid()
      ensures var ready := OpenTurn(old(View(pending, source, firstTurn, false, false)));
        && (refused <==> !Callable(ready))
        && message == (if refused then TranscriptError() else t.reply.final)
        && View([], source, false, false, refused) == Played(agent.Cfg(), ready, t)
    {
      hide Ask, Refuse, OpenTurn, Valid, AddResults, ToolPhase;
      InjectPending(pending, source, firstTurn);
      message, refused := Answer(t.reply, source);
      var results := [];
      if !Failed(message) {
        results := RunTools(t, source);
      }
      CloseTurn(message, results, source, refused);
    }

    /** The body of the inner loop; `failed` is the early return. `s` and `after` are the run before and after. */
    method TakeTurn(pending: seq<Message>, firstTurn: bool, t: Turn, ghost cfg: Config, ghost s: Loop)
      returns (hasMoreToolCalls: bool, next: seq<Message>, failed: bool, ghost after: Loop)
      requires Valid() && cfg == agent.Cfg() && TurnOk(cfg, t)
      requires s == View(pending, s.source, firstTurn, false, false)
      modifies this`messages, this`newMessages, this`log
      modifies agent`messages, agent`streamMessage, agent`pendingToolCalls, agent`isStreaming, agent`error, agent`trace
      modifies agent`steeringQueue, agent`steered, agent`followUpQueue, agent`followed
      ensures Valid()
      ensures after == View(next, after.source, false, failed, after.refused)
      ensures !failed ==> !after.refused && after.source == Steering
      ensures failed || hasMoreToolCalls || next != [] ==> RunTurn(cfg, s, t) == after
      ensures !failed && !hasMoreToolCalls && next == [] ==> RunTurn(cfg, s, t) == LastPoll(cfg, after, t)
    {
      hide RunTurn, LastPoll, Callable, OpenTurn, Played, PollSteering, Arrive, Finish, Valid;
      TurnSteps(cfg, s, t);
      var message;
      ghost var refused;
      message, refused := PlayTurn(pending, s.source, firstTurn, t);
      next := [];
      hasMoreToolCalls := |ToolCalls(message)| > 0;
      failed := message.stopReason == Error || message.stopReason == Aborted;
      if failed {
        EndRun(s.source, refused);
        after := View(next, s.source, false, true, refused);
      } else {
        next := GetSteeringMessages(t.beforeSteering, s.source);
        after := View(next, Steering, false, false, false);
      }
    }

    /** The poll before the first turn. */
    method PollFirst(skipInitialSteeringPoll: bool) returns (pending: seq<Message>)
      requires Valid()
      modifies this`log, agent`steeringQueue
      ensures Valid()
      ensures View(pending, Steering, true, false, false)
           == FirstPoll(agent.Cfg(), skipInitialSteeringPoll, old(View([], Steering, true, false, false)))
    {
      pending := [];
      if !skipInitialSteeringPoll {
        pending := agent.DequeueSteeringMessages();
      }
      log := log + [Polled(Steering, pending)];
    }

    /** The same, for turn `i` of a run whose states are `runs`. */
    method AdvanceTurn(pending: seq<Message>, firstTurn: bool, turns: seq<Turn>, i: nat,
                       ghost cfg: Config, ghost runs: seq<Loop>)
      returns (hasMoreToolCalls: bool, next: seq<Message>, failed: bool, ghost after: Loop)
      requires Valid() && cfg == agent.Cfg() && TurnsOk(cfg, turns) && RunOf(cfg, runs, turns) && i < |turns|
      requires runs[i] == View(pending, runs[i].source, firstTurn, false, false)
      modifies this`messages, this`newMessages, this`log
      modifies agent`messages, agent`streamMessage, agent`pendingToolCalls, agent`isStreaming, agent`error, agent`trace
      modifies agent`steeringQueue, agent`steered, agent`followUpQueue, agent`followed
      ensures Valid() && after == View(next, after.source, false, failed, after.refused)
      ensures !failed ==> !after.refused && after.source == Steering
      ensures failed || hasMoreToolCalls || next != [] ==> runs[i + 1] == after
      ensures failed ==> runs[|turns|] == after
      ensures !failed && !hasMoreToolCalls && next == [] ==> runs[i + 1] == LastPoll(cfg, after, turns[i])
    {
      hasMoreToolCalls, next, failed, after := TakeTurn(pending, firstTurn, turns[i], cfg, runs[i]);
      RunStep(cfg, runs, turns, i);
      if failed {
        EndedStays(cfg, runs, turns, i + 1);
      }
    }

    /** The inner loop of `runLoop`, from turn `first` on. It is left when there is nothing more to answer, on a failed
        reply, and where the script that says what the world does is used up. `runs` holds the states of the run. */
    method InnerLoop(pending: seq<Message>, firstTurn: bool, turns: seq<Turn>, first: nat,
                     ghost cfg: Config, ghost runs: seq<Loop>)
      returns (i: nat, exit: Exit, ghost now: Loop)
      requires Valid() && cfg == agent.Cfg() && TurnsOk(cfg, turns) && RunOf(cfg, runs, turns) && first <= |turns|
      requires runs[first] == View(pending, runs[first].source, firstTurn, false, false)
      modifies this`messages, this`newMessages, this`log
      modifies agent`messages, agent`streamMessage, agent`pendingToolCalls, agent`isStreaming, agent`error, agent`trace
      modifies agent`steeringQueue, agent`steered, agent`followUpQueue, agent`followed
      ensures Valid() && now == View(now.pending, now.source, now.firstTurn, exit == FailedReply, now.refused)
      ensures exit == Idle ==>
        && first < i <= |turns| && !now.refused && now.source == Steering && now.pending == [] && !now.firstTurn
        && runs[i] == LastPoll(cfg, now, turns[i - 1])
      ensures exit != Idle ==> runs[|turns|] == now
    {
      hide LastPoll, States, Valid, TurnsOk;
      var next, hasMoreToolCalls, isFirst := pending, true, firstTurn;
      i, now := first, runs[first];
      while hasMoreToolCalls || |next| > 0
        invariant Valid() && first <= i <= |turns| && (hasMoreToolCalls || i > first)
        invariant now == View(next, now.source, isFirst, false, false)
        invariant hasMoreToolCalls || next != [] ==> runs[i] == now
        invariant !hasMoreToolCalls && next == [] ==>
          i > first && !isFirst && now.source == Steering && runs[i] == LastPoll(cfg, now, turns[i - 1])
        decreases |turns| - i
      {
        if i == |turns| {
          return i, UsedUp, now;
        }
        var failed;
        hasMoreToolCalls, next, failed, now := AdvanceTurn(next, isFirst, turns, i, cfg, runs);
        isFirst := false;
        i := i + 1;
        if failed {
          return i, FailedReply, now;
        }
      }
      exit := Idle;
    }

    /** `runLoop`. The method returns `false` where the script is used up before the run has ended. */
    method RunLoop(skipInitialSteeringPoll: bool, turns: seq<Turn>) returns (ended: bool, ghost end: Loop)
      requires Valid() && TurnsOk(agent.Cfg(), turns)
      modifies this`messages, this`newMessages, this`log
      modifies agent`messages, agent`streamMessage, agent`pendingToolCalls, agent`isStreaming, agent`error, agent`trace
      modifies agent`steeringQueue, agent`steered, agent`followUpQueue, agent`followed
      ensures Valid()
      ensures end == RunTurns(agent.Cfg(),
        FirstPoll(agent.Cfg(), skipInitialSteeringPoll, old(View([], Steering, true, false, false))), turns)
      ensures end == View(end.pending, end.source, end.firstTurn, ended, end.refused)
    {
      hide RunTurns, RunTurn, Valid, TurnsOk;
      ghost var cfg := agent.Cfg();
      var pending := PollFirst(skipInitialSteeringPoll);
      var firstTurn, i := true, 0;
      ghost var now := View(pending, Steering, firstTurn, false, false);
      ghost var runs := States(cfg, now, turns);
      StatesRun(cfg, now, turns);
      while true
        invariant Valid() && 0 <= i <= |turns|
        invariant runs[i] == View(pending, runs[i].source, firstTurn, false, false)
        decreases |turns| - i
      {
        var exit;
        i, exit, now := InnerLoop(pending, firstTurn, turns, i, cfg, runs);
        if exit != Idle {
          return exit == FailedReply, now;
        }
        firstTurn := false;
        pending := GetFollowUpMessages(turns[i - 1].beforeFollowUp);
        if |pending| == 0 {
          break;
        }
      }
      EndRun(FollowUp, false);
      end := View([], FollowUp, false, true, false);
      EndedStays(cfg, runs, turns, i);
      ended := true;
    }
  }

  datatype Exit = Idle | FailedReply | UsedUp

  ghost predicate TurnsOk(cfg: Config, turns: seq<Turn>) {
    forall i :: 0 <= i < |turns| ==> TurnOk(cfg, turns[i])
  }

  ghost predicate IsStep(cfg: Config, s: Loop, t: Turn, s': Loop)
    requires TurnOk(cfg, t)
  {
    s' == RunTurn(cfg, s, t)
  }

  /** The states of a run, from the one before the first turn on. */
  ghost predicate RunOf(cfg: Config, runs: seq<Loop>, turns: seq<Turn>)
    requires TurnsOk(cfg, turns)
  {
    |runs| == |turns| + 1 && forall i, s' :: 0 <= i < |turns| && s' == runs[i + 1] ==> IsStep(cfg, runs[i], turns[i], s')
  }

  lemma RunStep(cfg: Config, runs: seq<Loop>, turns: seq<Turn>, i: nat)
    requires TurnsOk(cfg, turns) && RunOf(cfg, runs, turns) && i < |turns|
    ensures runs[i + 1] == RunTurn(cfg, runs[i], turns[i])
  {
    assert IsStep(cfg, runs[i], turns[i], runs[i + 1]);
  }

  ghost function States(cfg: Config, begin: Loop, turns: seq<Turn>): seq<Loop>
    requires TurnsOk(cfg, turns)
  {
    seq(|turns| + 1, k requires 0 <= k <= |turns| => RunTurns(cfg, begin, turns[..k]))
  }

  lemma StatesRun(cfg: Config, begin: Loop, turns: seq<Turn>)
    requires TurnsOk(cfg, turns)
    ensures RunOf(cfg, States(cfg, begin, turns), turns)
    ensures States(cfg, begin, turns)[0] == begin && States(cfg, begin, turns)[|turns|] == RunTurns(cfg, begin, turns)
  {
    assert turns[..|turns|] == turns;
    forall i | 0 <= i < |turns|
      ensures IsStep(cfg, States(cfg, begin, turns)[i], turns[i], States(cfg, begin, turns)[i + 1])
    {
      assert turns[..i + 1][..i] == turns[..i];
    }
  }

  lemma {:induction false} EndedStays(cfg: Config, runs: seq<Loop>, turns: seq<Turn>, i: nat)
    requires TurnsOk(cfg, turns) && RunOf(cfg, runs, turns) && i <= |turns| && runs[i].ended
    ensures runs[|turns|] == runs[i]
    decreases |turns| - i
  {
    if i < |turns| {
      RunStep(cfg, runs, turns, i);
      EndedStays(cfg, runs, turns, i + 1);
    }
  }

  /** A turn up to its `turn_end`, once it is open. */
  function Played(cfg: Config, ready: Loop, t: Turn): Loop
    requires TurnOk(cfg, t)
  {
    if !Callable(ready) then AgentLoop.CloseTurn(Refuse(ready), TranscriptError(), [])
    else if Failed(t.reply.final) then AgentLoop.CloseTurn(Ask(ready, t.reply), t.reply.final, [])
    else
      AgentLoop.CloseTurn(AddResults(Ask(ready, t.reply), ToolPhase(cfg, t)), t.reply.final, ToolPhase(cfg, t).results)
  }

  /** What a command's script promises to the run it starts. */
  lemma RunPromised(cfg: Config, x: AgentSession.Session, c: AgentSession.Command)
    requires AgentSession.CommandOk(cfg, x, c)
    ensures TurnsOk(cfg, AgentSession.TurnsOf(c))
    ensures var o := AgentSession.OpeningOf(cfg, x, c);
      o.Some? ==> AgentSession.EndOf(cfg, o.value, AgentSession.TurnsOf(c)).ended
  {
  }

  /** A turn, step by step. */
  lemma TurnSteps(cfg: Config, s: Loop, t: Turn)
    requires TurnOk(cfg, t) && !s.ended
    ensures var ready := OpenTurn(s);
      var played := Played(cfg, ready, t);
      if Callable(ready) && !Failed(t.reply.final)
      then
        var polled := PollSteering(cfg, Arrive(played, t.beforeSteering));
        RunTurn(cfg, s, t) == if ToolCalls(t.reply.final) != [] || polled.pending != [] then polled else LastPoll(cfg, polled, t)
      else RunTurn(cfg, s, t) == Finish(played)
  {
  }

  lemma ReadNothing(messages: seq<Message>, stream: seq<StreamEvent>)
    ensures ReadStream(messages, stream[..0]) == ReadStream(messages, [])
    ensures var r := ReadStream(messages, []); r.messages == messages && r.events == [] && r.partial == None
  {
    assert stream[..0] == [];
  }

  /** Reading on by one event. */
  lemma LiveFrom(stream: seq<StreamEvent>, i: nat)
    requires i <= |stream|
    ensures i == 0 ==> Live(stream) == stream[..0] + Live(stream[0..])
    ensures i == |stream| || stream[i].Finished? ==> Live(stream[i..]) == []
    ensures i < |stream| && !stream[i].Finished? ==>
      stream[..i] + Live(stream[i..]) == stream[..i + 1] + Live(stream[i + 1..])
  {
    assert stream[0..] == stream;
    if i < |stream| {
      assert stream[i..][0] == stream[i] && stream[i..][1..] == stream[i + 1..];
    }
  }

  lemma Regroup<T>(a: seq<T>, b: seq<T>, c: seq<T>)
    ensures a + b + c == a + (b + c)
  {
  }

  lemma BracketedNext(ms: seq<Message>, k: nat)
    requires k < |ms|
    ensures ms[..k + 1] == ms[..k] + [ms[k]]
    ensures Bracketed(ms[..k + 1]) == Bracketed(ms[..k]) + [MessageStart(ms[k]), MessageEnd(ms[k])]
  {
    assert ms[..k + 1][..k] == ms[..k];
  }

  lemma AnswerRegrouped(before: seq<Event>, messages: seq<Message>, reply: Reply)
    ensures var r := ReadStream(messages, Live(reply.stream));
      before + r.events + ([ContextCache] + (if r.partial.Some? then [] else [MessageStart(reply.final)])
        + [MessageEnd(reply.final)]) == before + AnswerEvents(messages, reply)
  {
  }

  lemma {:induction false} SequentialNext(calls: seq<ToolCall>, envs: seq<ToolEnv>, k: nat)
    requires |envs| == |calls| && k < |calls|
    ensures SequentialEvents(calls[..k + 1], envs[..k + 1])
         == SequentialEvents(calls[..k], envs[..k]) + SequentialCallEvents(calls[k], envs[k])
    ensures SequentialResults(calls[..k + 1], envs[..k + 1])
         == SequentialResults(calls[..k], envs[..k])
          + [ResultMessage(calls[k], SequentialOutcome(calls[k], envs[k]).0, SequentialOutcome(calls[k], envs[k]).1)]
  {
    assert calls[..k + 1][..k] == calls[..k] && envs[..k + 1][..k] == envs[..k];
    SequentialSnoc(calls[..k + 1], envs[..k + 1]);
  }

  lemma {:induction false} PreflightNext(calls: seq<ToolCall>, envs: seq<ToolEnv>, k: nat)
    requires |envs| == |calls| && k < |calls|
    ensures var p := Prepare(calls[k], envs[k]);
      && PreflightEvents(calls[..k + 1], envs[..k + 1])
           == PreflightEvents(calls[..k], envs[..k]) + PreflightCallEvents(calls[k], envs[k])
      && ImmediateResults(calls[..k + 1], envs[..k + 1]) == ImmediateResults(calls[..k], envs[..k])
           + (if p.Immediate? then [ResultMessage(calls[k], Some(p.output), true)] else [])
      && Positions(calls[..k + 1], envs[..k + 1], false) == Positions(calls[..k], envs[..k], false)
           + (if p.Immediate? then [] else [k])
  {
    assert calls[..k + 1][..k] == calls[..k] && envs[..k + 1][..k] == envs[..k];
    ImmediateSnoc(calls[..k + 1], envs[..k + 1]);
  }

  lemma {:induction false} ScheduledNext(calls: seq<ToolCall>, envs: seq<ToolEnv>, results: seq<WavePool.Result>, k: nat)
    requires |envs| == |calls| && IndicesOk(results, |Positions(calls, envs, false)|) && k < |results|
    ensures var p := OwnerOf(Positions(calls, envs, false), results[k]);
      var outcome := ScheduledOutcome(envs[p], results[k]);
      && ScheduledEvents(calls, envs, results[..k + 1])
           == ScheduledEvents(calls, envs, results[..k]) + OutcomeEvents(calls[p], outcome.0, outcome.1)
      && ScheduledResults(calls, envs, results[..k + 1])
           == ScheduledResults(calls, envs, results[..k]) + [ResultMessage(calls[p], outcome.0, outcome.1)]
  {
    assert results[..k + 1][..k] == results[..k];
    ScheduledSnoc(calls, envs, results[..k + 1]);
  }

  lemma {:induction false} ReadNext(messages: seq<Message>, stream: seq<StreamEvent>, i: nat)
    requires i < |stream|
    ensures ReadStream(messages, stream[..i + 1]) == ReadEvent(ReadStream(messages, stream[..i]), stream[i])
  {
    assert stream[..i + 1][..i] == stream[..i];
  }

}
