// When a run ends, what enters the next turn, and how prompts and `continue` start a run.

module AgentDelivery {
  import opened Wrappers
  import opened Messages
  import opened AgentEvents
  import opened Streaming
  import opened AgentLoop
  import opened AgentSession
  import opened AgentPayloads
  import opened Queues
  import Transcript

  // ----- What is taken from a queue -----

  /** `taken` is what the mode hands out of `queue`, first come first, and `left` is the rest. */
  predicate Handed(mode: QueueMode, queue: seq<Message>, taken: seq<Message>, left: seq<Message>) {
    && queue == taken + left
    && |taken| == if mode == OneAtATime && |queue| > 1 then 1 else |queue|
  }

  lemma TakenHanded(mode: QueueMode, queue: seq<Message>)
    ensures Handed(mode, queue, Taken(mode, queue), Left(mode, queue))
  {
  }

  // ----- One turn -----

  predicate Refused(s: Loop) {
    !Transcript.Valid(ConvertToLlm(s.messages + s.pending))
  }

  /** What is in the queues when they are looked at after a turn. */
  function SteeringThen(s: Loop, t: Turn): seq<Message> {
    s.steering + t.beforeSteering.steering
  }

  function FollowUpThen(s: Loop, t: Turn): seq<Message> {
    s.followUp + t.beforeSteering.followUp
  }

  function FollowUpLate(s: Loop, t: Turn): seq<Message> {
    FollowUpThen(s, t) + t.beforeFollowUp.followUp
  }

  /** A turn that goes on looks at its queues at its end. */
  lemma GoesOn(cfg: Config, s: Loop, t: Turn) returns (closed: Loop)
    requires TurnOk(cfg, t) && !s.ended && !Refused(s) && !Failed(t.reply.final)
    ensures RunTurn(cfg, s, t) == NextMessages(cfg, closed, t)
    ensures closed.steering == s.steering && closed.followUp == s.followUp
    ensures closed.ended == s.ended && closed.refused == s.refused
  {
    hide NextMessages, Answered, AnswerEvents;
    var outcome := ToolPhase(cfg, t);
    closed := CloseTurn(AddResults(Ask(OpenTurn(s), t.reply), outcome), t.reply.final, outcome.results);
  }

  lemma NextEnds(cfg: Config, s: Loop, t: Turn)
    requires !s.ended
    ensures NextMessages(cfg, s, t).refused == s.refused
    ensures NextMessages(cfg, s, t).ended <==>
      ToolCalls(t.reply.final) == [] && SteeringThen(s, t) == [] && FollowUpLate(s, t) == []
  {
    TakenHanded(cfg.steeringMode, SteeringThen(s, t));
    TakenHanded(cfg.followUpMode, FollowUpLate(s, t));
  }

  lemma StopsEarly(cfg: Config, s: Loop, t: Turn)
    requires TurnOk(cfg, t) && !s.ended && !s.refused && (Refused(s) || Failed(t.reply.final))
    ensures RunTurn(cfg, s, t).ended && (RunTurn(cfg, s, t).refused <==> Refused(s))
  {
    hide NextMessages;
  }

  /** A turn ends the run exactly when its transcript is refused, its reply failed, or the reply made no calls and both
      queues are empty when they are looked at. */
  lemma EndsExactly(cfg: Config, s: Loop, t: Turn)
    requires TurnOk(cfg, t) && !s.ended && !s.refused
    ensures RunTurn(cfg, s, t).refused <==> Refused(s)
    ensures RunTurn(cfg, s, t).ended <==>
      || Refused(s) || Failed(t.reply.final)
      || (ToolCalls(t.reply.final) == [] && SteeringThen(s, t) == [] && FollowUpLate(s, t) == [])
  {
    hide RunTurn, TurnOk, Refused;
    if Refused(s) || Failed(t.reply.final) {
      StopsEarly(cfg, s, t);
    } else {
      var closed := GoesOn(cfg, s, t);
      NextEnds(cfg, closed, t);
    }
  }

  /** What a turn that goes on hands to the next one: steering messages first; without any, nothing after a reply with
      calls, and follow-ups after a reply without. Nothing else leaves the queues. */
  lemma HandsOn(cfg: Config, s: Loop, t: Turn)
    requires TurnOk(cfg, t) && !s.ended && !s.refused && !Refused(s) && !Failed(t.reply.final)
    ensures var s' := RunTurn(cfg, s, t);
      if SteeringThen(s, t) != [] then
        s'.source == Steering && Handed(cfg.steeringMode, SteeringThen(s, t), s'.pending, s'.steering)
        && s'.followUp == FollowUpThen(s, t)
      else if ToolCalls(t.reply.final) != [] then
        s'.pending == [] && s'.steering == [] && s'.followUp == FollowUpThen(s, t)
      else
        s'.source == FollowUp && Handed(cfg.followUpMode, FollowUpLate(s, t), s'.pending, s'.followUp)
        && s'.steering == t.beforeFollowUp.steering
  {
    TakenHanded(cfg.steeringMode, SteeringThen(s, t));
    TakenHanded(cfg.followUpMode, FollowUpLate(s, t));
    hide Handed, RunTurn, TurnOk, Refused;
    var closed := GoesOn(cfg, s, t);
    assert [] + t.beforeFollowUp.steering == t.beforeFollowUp.steering;
  }

  // ----- What the provider is sent -----

  /** Number of messages that are not the application's own. */
  function Sendable(messages: seq<Message>): nat {
    if messages == [] then 0
    else Sendable(messages[..|messages| - 1]) + if messages[|messages| - 1].Custom? then 0 else 1
  }

  /** The provider is sent every message of the context but the application's own, in order. */
  lemma {:induction false} SentExactly(messages: seq<Message>, k: nat)
    ensures |ConvertToLlm(messages)| == Sendable(messages)
    ensures k < |messages| && !messages[k].Custom? ==>
      Sendable(messages[..k]) < |ConvertToLlm(messages)|
      && ConvertToLlm(messages)[Sendable(messages[..k])] == messages[k]
  {
    if messages != [] {
      var n := |messages| - 1;
      SentExactly(messages[..n], k);
      ConvertConcat(messages[..n], [messages[n]]);
      ConvertFirst(messages[n], []);
      assert messages == messages[..n] + [messages[n]] && [messages[n]] + [] == [messages[n]];
      if k < n {
        assert messages[..n][..k] == messages[..k];
      }
    }
  }

  // ----- Whole runs -----

  /** The history, the events and the new messages only grow. */
  predicate Grows(s: Loop, s': Loop) {
    s.log <= s'.log && s.newMessages <= s'.newMessages
  }

  lemma TurnGrows(cfg: Config, s: Loop, t: Turn)
    requires TurnOk(cfg, t)
    ensures Grows(s, RunTurn(cfg, s, t))
  {
    if !s.ended {
      var ready := OpenTurn(s);
      OpenGrows(s);
      if Callable(ready) {
        AnswerGrows(cfg, ready, t, ToolPhase(cfg, t));
      } else {
        assert Grows(ready, Finish(CloseTurn(Refuse(ready), TranscriptError(), [])));
      }
    }
  }

  lemma OpenGrows(s: Loop)
    ensures Grows(s, OpenTurn(s))
  {
  }

  lemma AnswerGrows(cfg: Config, s: Loop, t: Turn, outcome: Outcome)
    ensures Grows(Ask(s, t.reply), AnswerTurn(cfg, s, t, outcome)) && Grows(s, AnswerTurn(cfg, s, t, outcome))
  {
    var asked := Ask(s, t.reply);
    var added := AddResults(asked, outcome);
    var closed := CloseTurn(added, t.reply.final, outcome.results);
    assert Grows(s, asked) && Grows(asked, added) && Grows(added, closed);
    if !Failed(t.reply.final) {
      NextGrows(cfg, closed, t);
    }
  }

  lemma NextGrows(cfg: Config, s: Loop, t: Turn)
    ensures Grows(s, NextMessages(cfg, s, t))
  {
    var polled := PollSteering(cfg, Arrive(s, t.beforeSteering));
    assert Grows(s, polled) && Grows(polled, PollFollowUp(cfg, Arrive(polled, t.beforeFollowUp)));
  }

  lemma {:induction false} RunGrows(cfg: Config, s: Loop, turns: seq<Turn>)
    requires forall i :: 0 <= i < |turns| ==> TurnOk(cfg, turns[i])
    ensures Grows(s, RunTurns(cfg, s, turns))
  {
    hide RunTurn;
    if turns != [] {
      var n := |turns| - 1;
      RunGrows(cfg, s, turns[..n]);
      TurnGrows(cfg, RunTurns(cfg, s, turns[..n]), turns[n]);
    }
  }

  /** What a turn begins with. */
  function Entry(s: Loop): seq<Observation> {
    s.log + if s.pending == [] then [] else [Injected(s.source, s.pending)]
  }

  /** The next turn begins with what it was handed: the messages enter the conversation, and the provider is called with
      them unless the transcript is refused. */
  lemma EntersNext(cfg: Config, s: Loop, t: Turn)
    requires TurnOk(cfg, t) && !s.ended && !s.refused
    ensures var log := RunTurn(cfg, s, t).log;
      && Entry(s) < log
      && (if Refused(s) then
            log[|Entry(s)|].Closed? && log[|Entry(s)|].refused
            && log[|Entry(s)|].message == Assistant([], Error, Some("INVALID_TOOL_TRANSCRIPT"))
          else log[|Entry(s)|].Called?)
      && log[|Entry(s)|].context == s.messages + s.pending
  {
    var ready := OpenTurn(s);
    EntryLog(s);
    hide OpenTurn, AnswerTurn, Entry, Ask;
    if Callable(ready) {
      AnswerGrows(cfg, ready, t, ToolPhase(cfg, t));
      AskedNext(ready, t.reply, AnswerTurn(cfg, ready, t, ToolPhase(cfg, t)).log);
    }
  }

  lemma EntryLog(s: Loop)
    ensures OpenTurn(s).log == Entry(s) && OpenTurn(s).messages == s.messages + s.pending
  {
  }

  lemma AskedNext(s: Loop, reply: Reply, log: seq<Observation>)
    requires Ask(s, reply).log <= log
    ensures s.log < log && log[|s.log|] == Called(s.messages, |s.events|)
  {
  }

  /** The run was closed by a reply that failed. */
  predicate ClosedFailed(log: seq<Observation>) {
    log != [] && log[|log| - 1].Closed? && Failed(log[|log| - 1].message)
  }

  /** Both queues were found empty, steering first, after a reply without calls. */
  predicate FoundEmpty(log: seq<Observation>) {
    var n := |log|;
    && n >= 3 && log[n - 2] == Polled(Steering, []) && log[n - 1] == Polled(FollowUp, [])
    && log[n - 3].Closed? && !log[n - 3].refused && ToolCalls(log[n - 3].message) == []
  }

  predicate EndedWell(s: Loop) {
    && (s.refused ==> s.ended)
    && (s.ended && !s.refused ==> ClosedFailed(s.log) || (FoundEmpty(s.log) && s.followUp == [] && s.pending == []))
  }

  lemma TurnEndsWell(cfg: Config, s: Loop, t: Turn)
    requires TurnOk(cfg, t) && EndedWell(s)
    ensures EndedWell(RunTurn(cfg, s, t))
  {
    if !s.ended && Callable(OpenTurn(s)) {
      var asked := Ask(OpenTurn(s), t.reply);
      if !Failed(t.reply.final) {
        var outcome := ToolPhase(cfg, t);
        NextEndsWell(cfg, CloseTurn(AddResults(asked, outcome), t.reply.final, outcome.results), t);
      }
    }
  }

  lemma NextEndsWell(cfg: Config, s: Loop, t: Turn)
    requires !s.ended && !s.refused && s.log != []
    requires s.log[|s.log| - 1].Closed? && s.log[|s.log| - 1].message == t.reply.final && !s.log[|s.log| - 1].refused
    ensures EndedWell(NextMessages(cfg, s, t)) && !NextMessages(cfg, s, t).refused
  {
    var polled := PollSteering(cfg, Arrive(s, t.beforeSteering));
    if ToolCalls(t.reply.final) == [] && polled.pending == [] {
      var again := PollFollowUp(cfg, Arrive(polled, t.beforeFollowUp));
      TakenHanded(cfg.followUpMode, polled.followUp + t.beforeFollowUp.followUp);
      assert again.log == s.log + [Polled(Steering, [])] + [Polled(FollowUp, again.pending)];
    }
  }

  /** No follow-up is forgotten. A run that has ended was refused, or its last reply failed, or it found both queues empty
      after a reply without calls, and the follow-up queue is empty. */
  lemma {:induction false} EndsEmpty(cfg: Config, o: Opening, turns: seq<Turn>)
    requires forall i :: 0 <= i < |turns| ==> TurnOk(cfg, turns[i])
    ensures EndedWell(RunTurns(cfg, Begin(cfg, o), turns))
  {
    hide RunTurn, EndedWell;
    if turns == [] {
      BeginOpen(cfg, o);
    } else {
      var n := |turns| - 1;
      EndsEmpty(cfg, o, turns[..n]);
      TurnEndsWell(cfg, RunTurns(cfg, Begin(cfg, o), turns[..n]), turns[n]);
    }
  }

  lemma BeginOpen(cfg: Config, o: Opening)
    ensures EndedWell(Begin(cfg, o))
  {
  }

  // ----- How commands start runs -----

  /** The last run of a session. */
  function LastRun(x: Session): Loop
    requires x.runs != []
  {
    x.runs[|x.runs| - 1]
  }

  /** The command ran once. */
  predicate RanOnce(x: Session, x': Session) {
    |x'.runs| == |x.runs| + 1 && x'.runs[..|x.runs|] == x.runs
  }

  /** The run's history opens with messages from a queue, and then a steering poll that finds nothing. */
  ghost predicate OpensWith(log: seq<Observation>, q: Queue, mode: QueueMode, queue: seq<Message>) {
    && |log| >= 2 && log[0].Injected? && log[0].queue == q && log[0].messages != []
    && (exists left :: Handed(mode, queue, log[0].messages, left))
    && log[1] == Polled(Steering, [])
  }

  /** The run's history opens with a steering poll. */
  ghost predicate OpensPolling(log: seq<Observation>, mode: QueueMode, queue: seq<Message>) {
    log != [] && log[0].Polled? && log[0].queue == Steering && exists left :: Handed(mode, queue, log[0].taken, left)
  }

  /** After the first poll what it has found enters, and the first provider call, or its refusal, is on `conversation` and
      those messages. */
  predicate StartsOn(log: seq<Observation>, at: nat, conversation: seq<Message>) {
    && at < |log| && log[at].Polled?
    && var taken := log[at].taken;
       var next := at + if taken == [] then 1 else 2;
    && next < |log| && (taken != [] ==> log[at + 1] == Injected(Steering, taken))
    && (log[next].Called? || (log[next].Closed? && log[next].refused))
    && log[next].context == conversation + taken
  }

  lemma {:induction false} FirstTurnGrows(cfg: Config, s: Loop, turns: seq<Turn>)
    requires turns != [] && forall i :: 0 <= i < |turns| ==> TurnOk(cfg, turns[i])
    ensures Grows(RunTurn(cfg, s, turns[0]), RunTurns(cfg, s, turns))
  {
    hide RunTurn;
    var n := |turns| - 1;
    if n > 0 {
      FirstTurnGrows(cfg, s, turns[..n]);
      TurnGrows(cfg, RunTurns(cfg, s, turns[..n]), turns[n]);
    } else {
      assert turns[..0] == [];
    }
  }

  lemma OpeningState(cfg: Config, o: Opening)
    ensures var b := Begin(cfg, o);
      && !b.ended && !b.refused && b.source == Steering && b.messages == o.context + o.prompts
      && |b.log| == (if o.origin.Some? then 2 else 1) && b.log[|b.log| - 1] == Polled(Steering, b.pending)
  {
  }

  lemma FirstEntry(cfg: Config, o: Opening, t: Turn)
    requires TurnOk(cfg, t)
    ensures StartsOn(RunTurn(cfg, Begin(cfg, o), t).log, if o.origin.Some? then 1 else 0, o.context + o.prompts)
  {
    hide RunTurn, Begin, Refused;
    var b, log := Begin(cfg, o), RunTurn(cfg, Begin(cfg, o), t).log;
    OpeningState(cfg, o);
    EntersNext(cfg, b, t);
    var at := |b.log| - 1;
    assert log[at] == Entry(b)[at] && log[at].taken == b.pending;
    if b.pending != [] {
      assert log[at + 1] == Entry(b)[at + 1];
    }
  }

  lemma RunStartsOn(cfg: Config, x: Session, c: Command)
    requires CommandOk(cfg, x, c) && OpeningOf(cfg, x, c).Some?
    ensures RanOnce(x, Do(cfg, x, c))
    ensures var o := OpeningOf(cfg, x, c).value;
      StartsOn(LastRun(Do(cfg, x, c)).log, if o.origin.Some? then 1 else 0, o.context + o.prompts)
  {
    hide RunTurn, ContinueOpening, PromptOpening, StartsOn;
    var o := OpeningOf(cfg, x, c).value;
    assert TurnsOf(c) != [];
    FirstEntry(cfg, o, TurnsOf(c)[0]);
    FirstTurnGrows(cfg, Begin(cfg, o), TurnsOf(c));
    StillStartsOn(RunTurn(cfg, Begin(cfg, o), TurnsOf(c)[0]).log, EndOf(cfg, o, TurnsOf(c)).log,
                  if o.origin.Some? then 1 else 0, o.context + o.prompts);
    assert Do(cfg, x, c).runs == x.runs + [EndOf(cfg, o, TurnsOf(c))];
  }

  lemma StillStartsOn(log: seq<Observation>, longer: seq<Observation>, at: nat, conversation: seq<Message>)
    requires StartsOn(log, at, conversation) && log <= longer
    ensures StartsOn(longer, at, conversation)
  {
  }

  lemma CommandRuns(cfg: Config, x: Session, c: Command)
    requires CommandOk(cfg, x, c) && OpeningOf(cfg, x, c).Some?
    ensures RanOnce(x, Do(cfg, x, c))
    ensures Grows(Begin(cfg, OpeningOf(cfg, x, c).value), LastRun(Do(cfg, x, c)))
  {
    hide RunTurns, Begin, ContinueOpening, PromptOpening;
    var end := EndOf(cfg, OpeningOf(cfg, x, c).value, TurnsOf(c));
    assert Do(cfg, x, c).runs == x.runs + [end];
    RunGrows(cfg, Begin(cfg, OpeningOf(cfg, x, c).value), TurnsOf(c));
  }

  /** `continue`, exactly. It throws, and changes nothing, if and only if the Agent is streaming, has no messages, or its
      last message is a reply and both queues are empty. After a reply a run opens with steering messages if there are
      any, and with follow-ups only if there are none; a steering poll that finds nothing follows either way. After any
      other message it opens without prompts. */
  lemma ContinueExactly(cfg: Config, x: Session, turns: seq<Turn>)
    requires CommandOk(cfg, x, Continue(turns))
    ensures var x' := Do(cfg, x, Continue(turns));
      var messages := x.agent.messages;
      if x.agent.isStreaming || messages == [] || (messages[|messages| - 1].Assistant? && x.steering == [] && x.followUp == [])
      then x' == x && OpeningOf(cfg, x, Continue(turns)) == None
      else
        && OpeningOf(cfg, x, Continue(turns)).Some? && RanOnce(x, x')
        && var log := LastRun(x').log;
        && if !messages[|messages| - 1].Assistant? then
             OpensPolling(log, cfg.steeringMode, x.steering) && StartsOn(log, 0, messages)
           else if x.steering != [] then
             OpensWith(log, Steering, cfg.steeringMode, x.steering) && StartsOn(log, 1, messages + log[0].messages)
           else
             OpensWith(log, FollowUp, cfg.followUpMode, x.followUp) && StartsOn(log, 1, messages + log[0].messages)
  {
    hide RunTurns, AfterRun, StartsOn, Begin, ScriptOk;
    TakenHanded(cfg.steeringMode, x.steering);
    TakenHanded(cfg.followUpMode, x.followUp);
    if OpeningOf(cfg, x, Continue(turns)).Some? {
      CommandRuns(cfg, x, Continue(turns));
      RunStartsOn(cfg, x, Continue(turns));
      assert x.agent.messages + [] == x.agent.messages;
      OpeningLog(cfg, OpeningOf(cfg, x, Continue(turns)).value);
    }
  }

  /** The history before the first turn. */
  lemma OpeningLog(cfg: Config, o: Opening)
    ensures var log := Begin(cfg, o).log;
      var n := if o.origin.Some? then 1 else 0;
      && |log| == n + 1
      && (o.origin.Some? ==> log[0] == Injected(o.origin.value, o.prompts))
      && log[n] == Polled(Steering, if o.skipPoll then [] else Taken(cfg.steeringMode, o.steering))
  {
  }

  /** `prompt`, exactly. It throws, and changes nothing, if and only if the Agent is streaming; otherwise it runs, the
      prompts are the first new messages, and the first thing is a steering poll. */
  lemma PromptExactly(cfg: Config, x: Session, prompts: seq<Message>, turns: seq<Turn>)
    requires CommandOk(cfg, x, Prompt(prompts, turns))
    ensures var x' := Do(cfg, x, Prompt(prompts, turns));
      if x.agent.isStreaming then x' == x
      else
        && RanOnce(x, x') && prompts <= LastRun(x').newMessages
        && OpensPolling(LastRun(x').log, cfg.steeringMode, x.steering)
        && StartsOn(LastRun(x').log, 0, x.agent.messages + prompts)
  {
    hide RunTurns, AfterRun, StartsOn;
    TakenHanded(cfg.steeringMode, x.steering);
    if !x.agent.isStreaming {
      CommandRuns(cfg, x, Prompt(prompts, turns));
      RunStartsOn(cfg, x, Prompt(prompts, turns));
      OpeningLog(cfg, OpeningOf(cfg, x, Prompt(prompts, turns)).value);
    }
  }

  /** What a run leaves of the Agent: it is idle, its conversation has grown by what the run completed, and its error is
      that of the last turn that reported one in this run, if any. */
  lemma AgentAfterRun(cfg: Config, x: Session, c: Command)
    requires CommandOk(cfg, x, c) && OpeningOf(cfg, x, c).Some?
    ensures var x' := Do(cfg, x, c);
      && RanOnce(x, x')
      && var events := LastRun(x').events;
      var failed := LastWhere(events, SetsError);
      && !x'.agent.isStreaming && x'.agent.streamMessage == None && x'.agent.pendingToolCalls == {}
      && x'.agent.messages == x.agent.messages + Ended(events)
      && x'.agent.error == if failed.None? then None else events[failed.value].message.errorMessage
  {
    hide RunTurns, Begin, ContinueOpening, PromptOpening;
    CommandRuns(cfg, x, c);
    var events := EndOf(cfg, OpeningOf(cfg, x, c).value, TurnsOf(c)).events;
    ReplayMessages(AgentSession.Started(x.agent), events);
    ReplayFields(AgentSession.Started(x.agent), events);
  }
}
