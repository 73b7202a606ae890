// The Agent's copy of the conversation, rebuilt from events, against the loop's own.

module Agreement {
  import opened Wrappers
  import opened Messages
  import opened AgentEvents
  import opened AgentToolProofs
  import opened Streaming
  import opened AgentLoop
  import opened StreamProofs
  import opened TurnProofs
  import opened Queues

  /** What an observation says of a run on the conversation `initial`: at a provider call the Agent's messages are the
      context, and at a `turn_end` they are the context followed by the message of a refused turn. */
  predicate Witness(initial: seq<Message>, events: seq<Event>, ob: Observation) {
    match ob
    case Called(context, n) => n <= |events| && initial + Ended(events[..n]) == context
    case Closed(m, refused, context, n) =>
      && n < |events| && events[n].TurnEnd? && events[n].message == m
      && initial + Ended(events[..n]) == context + if refused then [m] else []
    case _ => true
  }

  predicate Witnessed(initial: seq<Message>, events: seq<Event>, log: seq<Observation>) {
    forall i :: 0 <= i < |log| ==> Witness(initial, events, log[i])
  }

  predicate ClosedAt(log: seq<Observation>, n: nat) {
    exists i :: 0 <= i < |log| && log[i].Closed? && log[i].emitted == n
  }

  predicate EveryTurnEnd(events: seq<Event>, log: seq<Observation>) {
    forall n :: 0 <= n < |events| && events[n].TurnEnd? ==> ClosedAt(log, n)
  }

  /** The messages of the run that reached the context: all but a transcript error. */
  function Kept(s: Loop): seq<Message> {
    if s.refused && s.newMessages != [] then s.newMessages[..|s.newMessages| - 1] else s.newMessages
  }

  predicate Copies(initial: seq<Message>, s: Loop) {
    && s.messages == initial + Kept(s)
    && (s.refused ==> s.newMessages != [] && s.newMessages[|s.newMessages| - 1] == TranscriptError())
  }

  ghost predicate Agrees(initial: seq<Message>, s: Loop) {
    && Ended(s.events) == s.newMessages
    && Copies(initial, s)
    && Witnessed(initial, s.events, s.log)
    && EveryTurnEnd(s.events, s.log)
  }

  predicate NoTurnEnd(events: seq<Event>) {
    forall k :: 0 <= k < |events| ==> !events[k].TurnEnd?
  }

  lemma WitnessLasts(initial: seq<Message>, events: seq<Event>, more: seq<Event>, ob: Observation)
    requires Witness(initial, events, ob)
    ensures Witness(initial, events + more, ob)
  {
    if ob.Called? || ob.Closed? {
      assert (events + more)[..ob.emitted] == events[..ob.emitted];
    }
  }

  lemma HistoryLasts(initial: seq<Message>, events: seq<Event>, log: seq<Observation>, more: seq<Event>)
    requires Witnessed(initial, events, log) && EveryTurnEnd(events, log) && NoTurnEnd(more)
    ensures Witnessed(initial, events + more, log) && EveryTurnEnd(events + more, log)
  {
    forall i | 0 <= i < |log| ensures Witness(initial, events + more, log[i]) {
      WitnessLasts(initial, events, more, log[i]);
    }
  }

  lemma ClosedAtLasts(log: seq<Observation>, ob: Observation, n: nat)
    requires ClosedAt(log, n)
    ensures ClosedAt(log + [ob], n)
  {
    var i :| 0 <= i < |log| && log[i].Closed? && log[i].emitted == n;
    assert (log + [ob])[i] == log[i];
  }

  lemma Observed(initial: seq<Message>, events: seq<Event>, log: seq<Observation>, ob: Observation)
    requires Witnessed(initial, events, log) && EveryTurnEnd(events, log) && Witness(initial, events, ob)
    ensures Witnessed(initial, events, log + [ob]) && EveryTurnEnd(events, log + [ob])
  {
    forall n | 0 <= n < |events| && events[n].TurnEnd? ensures ClosedAt(log + [ob], n) {
      ClosedAtLasts(log, ob, n);
    }
  }

  lemma TurnClosed(initial: seq<Message>, events: seq<Event>, log: seq<Observation>, ev: Event, ob: Observation)
    requires Witnessed(initial, events, log) && EveryTurnEnd(events, log) && ev.TurnEnd?
    requires ob.Closed? && ob.emitted == |events| && Witness(initial, events + [ev], ob)
    ensures Witnessed(initial, events + [ev], log + [ob]) && EveryTurnEnd(events + [ev], log + [ob])
  {
    forall i | 0 <= i < |log| ensures Witness(initial, events + [ev], log[i]) {
      WitnessLasts(initial, events, [ev], log[i]);
    }
    forall n | 0 <= n < |events| && events[n].TurnEnd? ensures ClosedAt(log + [ob], n) {
      ClosedAtLasts(log, ob, n);
    }
    assert (log + [ob])[|log|] == ob;
  }

  lemma AddedCopies(initial: seq<Message>, s: Loop, ms: seq<Message>, s': Loop)
    requires Copies(initial, s) && !s.refused && !s'.refused
    requires s'.messages == s.messages + ms && s'.newMessages == s.newMessages + ms
    ensures Copies(initial, s')
  {
  }

  /** Completed messages go to the context and to the new messages alike. */
  lemma Added(initial: seq<Message>, s: Loop, more: seq<Event>, s': Loop)
    requires Agrees(initial, s) && !s.refused && NoTurnEnd(more)
    requires s'.messages == s.messages + Ended(more) && s'.newMessages == s.newMessages + Ended(more)
    requires s'.events == s.events + more && s'.log == s.log && !s'.refused
    ensures Agrees(initial, s')
  {
    var ms := Ended(more);
    EndedConcat(s.events, more);
    AddedCopies(initial, s, ms, s');
    HistoryLasts(initial, s.events, s.log, more);
  }

  lemma Noted(initial: seq<Message>, s: Loop, ob: Observation, s': Loop)
    requires Agrees(initial, s) && Witness(initial, s.events, ob)
    requires s'.messages == s.messages && s'.newMessages == s.newMessages && s'.events == s.events
    requires s'.refused == s.refused && s'.log == s.log + [ob]
    ensures Agrees(initial, s')
  {
    Observed(initial, s.events, s.log, ob);
  }

  lemma {:induction false} NothingEnds(events: seq<Event>)
    requires forall k :: 0 <= k < |events| ==> !events[k].MessageEnd?
    ensures Ended(events) == []
  {
    if events != [] {
      NothingEnds(events[..|events| - 1]);
    }
  }

  lemma OpeningEnds(first: seq<Event>, pending: seq<Message>)
    requires first == [] || first == [TurnStart] || first == [AgentStart, TurnStart]
    ensures Ended(first + Bracketed(pending)) == pending && NoTurnEnd(first + Bracketed(pending))
  {
    BracketedShape(pending);
    NothingEnds(first);
    EndedConcat(first, Bracketed(pending));
  }

  lemma OpenAgrees(initial: seq<Message>, s: Loop)
    requires Agrees(initial, s) && !s.refused
    ensures Agrees(initial, OpenTurn(s)) && !OpenTurn(s).refused
  {
    var first := if s.firstTurn then [] else [TurnStart];
    var more := first + Bracketed(s.pending);
    OpeningEnds(first, s.pending);
    var ready := s.(messages := s.messages + s.pending, newMessages := s.newMessages + s.pending, events := s.events + more);
    Added(initial, s, more, ready);
    OpenNoted(initial, s, ready);
  }

  lemma OpenNoted(initial: seq<Message>, s: Loop, ready: Loop)
    requires Agrees(initial, ready) && !ready.refused
    requires ready.messages == OpenTurn(s).messages && ready.newMessages == OpenTurn(s).newMessages
    requires ready.events == OpenTurn(s).events && ready.log == s.log && !s.refused
    ensures Agrees(initial, OpenTurn(s))
  {
    if s.pending == [] {
      assert s.log + [] == s.log;
    } else {
      Noted(initial, ready, Injected(s.source, s.pending), OpenTurn(s));
    }
  }

  lemma AskAgrees(initial: seq<Message>, s: Loop, reply: Reply)
    requires Agrees(initial, s) && !s.refused && OneStart(reply)
    ensures Agrees(initial, Ask(s, reply)) && !Ask(s, reply).refused
  {
    var noted := s.(log := s.log + [Called(s.messages, |s.events|)]);
    assert s.events[..|s.events|] == s.events;
    Noted(initial, s, Called(s.messages, |s.events|), noted);
    AnswerExact(s.messages, reply);
    AnswerShape(s.messages, reply);
    AnswerInner(s.messages, reply);
    Added(initial, noted, AnswerEvents(s.messages, reply), Ask(s, reply));
  }

  lemma AddAgrees(initial: seq<Message>, s: Loop, outcome: Outcome)
    requires Agrees(initial, s) && !s.refused && Inner(outcome.events) && Ended(outcome.events) == outcome.results
    ensures Agrees(initial, AddResults(s, outcome)) && !AddResults(s, outcome).refused
  {
    Added(initial, s, outcome.events, AddResults(s, outcome));
  }

  lemma CloseAgrees(initial: seq<Message>, s: Loop, m: Message, results: seq<Message>)
    requires Agrees(initial, s) && (s.refused ==> m == TranscriptError())
    ensures Agrees(initial, CloseTurn(s, m, results))
  {
    var ev := TurnEnd(m, results);
    var ob := Closed(m, s.refused, s.messages, |s.events|);
    assert (s.events + [ev])[..|s.events|] == s.events;
    if s.refused {
      assert Kept(s) + [m] == s.newMessages;
      assert initial + Kept(s) + [m] == initial + s.newMessages;
    }
    TurnClosed(initial, s.events, s.log, ev, ob);
    EndedConcat(s.events, [ev]);
    OneEvent(INSIDE, ev);
  }

  lemma FinishAgrees(initial: seq<Message>, s: Loop)
    requires Agrees(initial, s)
    ensures Agrees(initial, Finish(s)) && Finish(s).refused == s.refused
  {
    var ev := AgentEnd(s.newMessages);
    EndedConcat(s.events, [ev]);
    OneEvent(INSIDE, ev);
    HistoryLasts(initial, s.events, s.log, [ev]);
  }

  lemma RefuseAgrees(initial: seq<Message>, s: Loop)
    requires Agrees(initial, s) && !s.refused
    ensures Agrees(initial, Refuse(s))
  {
    var m := TranscriptError();
    OneMessageShape(m);
    EndedConcat(s.events, [MessageStart(m), MessageEnd(m)]);
    HistoryLasts(initial, s.events, s.log, [MessageStart(m), MessageEnd(m)]);
    assert (s.newMessages + [m])[..|s.newMessages|] == s.newMessages;
  }

  lemma NextAgrees(initial: seq<Message>, cfg: Config, s: Loop, t: Turn)
    requires Agrees(initial, s) && !s.refused
    ensures Agrees(initial, NextMessages(cfg, s, t)) && !NextMessages(cfg, s, t).refused
  {
    var arrived := Arrive(s, t.beforeSteering);
    var polled := PollSteering(cfg, arrived);
    Noted(initial, arrived, Polled(Steering, polled.pending), polled);
    if ToolCalls(t.reply.final) == [] && polled.pending == [] {
      var late := Arrive(polled, t.beforeFollowUp);
      var again := PollFollowUp(cfg, late);
      Noted(initial, late, Polled(FollowUp, again.pending), again);
      FinishAgrees(initial, again);
    }
  }

  lemma AnswerTurnAgrees(initial: seq<Message>, cfg: Config, s: Loop, t: Turn, outcome: Outcome)
    requires Agrees(initial, s) && !s.refused && OneStart(t.reply)
    requires Inner(outcome.events) && Ended(outcome.events) == outcome.results
    ensures Agrees(initial, AnswerTurn(cfg, s, t, outcome)) && !AnswerTurn(cfg, s, t, outcome).refused
  {
    var asked := Ask(s, t.reply);
    AskAgrees(initial, s, t.reply);
    if Failed(t.reply.final) {
      CloseAgrees(initial, asked, t.reply.final, []);
      FinishAgrees(initial, CloseTurn(asked, t.reply.final, []));
    } else {
      AddAgrees(initial, asked, outcome);
      CloseAgrees(initial, AddResults(asked, outcome), t.reply.final, outcome.results);
      NextAgrees(initial, cfg, CloseTurn(AddResults(asked, outcome), t.reply.final, outcome.results), t);
    }
  }

  lemma TurnAgrees(initial: seq<Message>, cfg: Config, s: Loop, t: Turn)
    requires TurnOk(cfg, t) && OneStart(t.reply)
    requires Agrees(initial, s) && (s.refused ==> s.ended)
    ensures var s' := RunTurn(cfg, s, t); Agrees(initial, s') && (s'.refused ==> s'.ended)
  {
    if !s.ended {
      OpenAgrees(initial, s);
      var ready := OpenTurn(s);
      if Callable(ready) {
        ToolPhaseNeutral(cfg, t);
        AnswerTurnAgrees(initial, cfg, ready, t, ToolPhase(cfg, t));
      } else {
        RefuseAgrees(initial, ready);
        CloseAgrees(initial, Refuse(ready), TranscriptError(), []);
        FinishAgrees(initial, CloseTurn(Refuse(ready), TranscriptError(), []));
      }
    }
  }

  predicate NothingSeen(log: seq<Observation>) {
    forall i :: 0 <= i < |log| ==> !log[i].Called? && !log[i].Closed?
  }

  lemma BeginAgrees(cfg: Config, o: Opening)
    ensures Agrees(o.context, Begin(cfg, o)) && !Begin(cfg, o).refused
  {
    OpeningEnds([AgentStart, TurnStart], o.prompts);
    assert NothingSeen(Begin(cfg, o).log);
    assert Witnessed(o.context, Begin(cfg, o).events, Begin(cfg, o).log);
  }

  lemma {:induction false} RunAgrees(cfg: Config, o: Opening, turns: seq<Turn>)
    requires ScriptOk(cfg, turns)
    ensures var s := RunTurns(cfg, Begin(cfg, o), turns); Agrees(o.context, s) && (s.refused ==> s.ended)
  {
    if turns == [] {
      BeginAgrees(cfg, o);
    } else {
      var n := |turns| - 1;
      RunAgrees(cfg, o, turns[..n]);
      TurnAgrees(o.context, cfg, RunTurns(cfg, Begin(cfg, o), turns[..n]), turns[n]);
    }
  }

  /** An observation in terms of the Agent's state at that moment. */
  predicate ObservedOk(agent: AgentState, events: seq<Event>, ob: Observation) {
    match ob
    case Called(context, n) => n <= |events| && Replay(agent, events[..n]).messages == context
    case Closed(m, refused, context, n) =>
      && n < |events| && events[n].TurnEnd? && events[n].message == m
      && Replay(agent, events[..n]).messages == context + if refused then [m] else []
    case _ => true
  }

  lemma WitnessMeans(agent: AgentState, events: seq<Event>, ob: Observation)
    requires Witness(agent.messages, events, ob)
    ensures ObservedOk(agent, events, ob)
  {
    if ob.Called? || ob.Closed? {
      ReplayMessages(agent, events[..ob.emitted]);
    }
  }

  predicate AllObservedOk(agent: AgentState, s: Loop) {
    forall i :: 0 <= i < |s.log| ==> ObservedOk(agent, s.events, s.log[i])
  }

  lemma AgreesMeans(agent: AgentState, s: Loop)
    requires Agrees(agent.messages, s)
    ensures AllObservedOk(agent, s)
    ensures Replay(agent, s.events).messages == agent.messages + s.newMessages
    ensures Replay(agent, s.events).messages == if s.refused then s.messages + [TranscriptError()] else s.messages
  {
    forall i | 0 <= i < |s.log| ensures ObservedOk(agent, s.events, s.log[i]) {
      WitnessMeans(agent, s.events, s.log[i]);
    }
    ReplayMessages(agent, s.events);
    if s.refused {
      assert Kept(s) + [TranscriptError()] == s.newMessages;
    }
  }

  /** Event-sourced agreement. `agent` is the Agent's state when the run starts: its messages are the context. At
      every provider call its messages are the loop's context, and at every `turn_end` too, but for the turn whose
      transcript was refused: there it has one message more, the transcript error, which ends the run. At all times it
      holds the initial messages followed by `newMessages`. */
  lemma EventSourcedAgreement(cfg: Config, o: Opening, agent: AgentState, turns: seq<Turn>, s: Loop)
    requires ScriptOk(cfg, turns) && agent.messages == o.context && s == RunTurns(cfg, Begin(cfg, o), turns)
    ensures AllObservedOk(agent, s) && EveryTurnEnd(s.events, s.log)
    ensures Replay(agent, s.events).messages == o.context + s.newMessages
    ensures Replay(agent, s.events).messages == if s.refused then s.messages + [TranscriptError()] else s.messages
    ensures s.refused ==> s.ended
  {
    RunAgrees(cfg, o, turns);
    AgreesMeans(agent, s);
  }
}
