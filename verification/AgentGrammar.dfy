// The grammar of a run's events.

module Grammar {
  import opened Wrappers
  import opened Messages
  import opened AgentEvents
  import opened AgentToolProofs
  import opened Streaming
  import opened AgentLoop
  import opened StreamProofs
  import opened TurnProofs
  import opened Queues

  const BETWEEN := Shape(Between, false, multiset{})
  const AFTER := Shape(After, false, multiset{})

  /** Where a run stands at the end of a turn. */
  function Standing(s: Loop): Shape {
    if s.ended then AFTER else if s.firstTurn then INSIDE else BETWEEN
  }

  predicate At(s: Loop, g: Shape) {
    FollowAll(OUTSIDE, s.events) == g
  }

  lemma Emits(s: Loop, more: seq<Event>, s': Loop, mid: Shape, end: Shape)
    requires At(s, mid) && s'.events == s.events + more && FollowAll(mid, more) == end
    ensures At(s', end)
  {
    FollowConcat(OUTSIDE, s.events, more);
  }

  lemma TurnMoves(m: Message, results: seq<Message>)
    ensures FollowAll(BETWEEN, [TurnStart]) == INSIDE
    ensures FollowAll(INSIDE, [TurnEnd(m, results)]) == BETWEEN
    ensures FollowAll(BETWEEN, [AgentEnd(results)]) == AFTER
  {
    OneEvent(BETWEEN, TurnStart);
    OneEvent(INSIDE, TurnEnd(m, results));
    OneEvent(BETWEEN, AgentEnd(results));
  }

  lemma OpenMoves(s: Loop)
    requires !s.ended && At(s, Standing(s))
    ensures At(OpenTurn(s), INSIDE)
  {
    BracketedShape(s.pending);
    TurnMoves(TranscriptError(), []);
    if s.firstTurn {
      assert s.events + [] + Bracketed(s.pending) == s.events + Bracketed(s.pending);
      Emits(s, Bracketed(s.pending), OpenTurn(s), INSIDE, INSIDE);
    } else {
      var turn := s.(events := s.events + [TurnStart]);
      Emits(s, [TurnStart], turn, BETWEEN, INSIDE);
      Emits(turn, Bracketed(s.pending), OpenTurn(s), INSIDE, INSIDE);
    }
  }

  lemma AskMoves(s: Loop, reply: Reply)
    requires At(s, INSIDE) && OneStart(reply)
    ensures At(Ask(s, reply), INSIDE)
  {
    AnswerShape(s.messages, reply);
    Emits(s, AnswerEvents(s.messages, reply), Ask(s, reply), INSIDE, INSIDE);
  }

  lemma CloseMoves(s: Loop, m: Message, results: seq<Message>)
    requires At(s, INSIDE)
    ensures At(CloseTurn(s, m, results), BETWEEN)
  {
    TurnMoves(m, results);
    Emits(s, [TurnEnd(m, results)], CloseTurn(s, m, results), INSIDE, BETWEEN);
  }

  lemma FinishMoves(s: Loop)
    requires At(s, BETWEEN)
    ensures At(Finish(s), AFTER)
  {
    TurnMoves(TranscriptError(), s.newMessages);
    Emits(s, [AgentEnd(s.newMessages)], Finish(s), BETWEEN, AFTER);
  }

  lemma NextMoves(cfg: Config, s: Loop, t: Turn)
    requires At(s, BETWEEN) && !s.ended && !s.firstTurn
    ensures At(NextMessages(cfg, s, t), Standing(NextMessages(cfg, s, t)))
  {
    var polled := PollSteering(cfg, Arrive(s, t.beforeSteering));
    FinishMoves(PollFollowUp(cfg, Arrive(polled, t.beforeFollowUp)));
  }

  lemma AnswerTurnMoves(cfg: Config, s: Loop, t: Turn, outcome: Outcome)
    requires At(s, INSIDE) && !s.ended && !s.firstTurn && OneStart(t.reply) && FollowAll(INSIDE, outcome.events) == INSIDE
    ensures At(AnswerTurn(cfg, s, t, outcome), Standing(AnswerTurn(cfg, s, t, outcome)))
  {
    var asked := Ask(s, t.reply);
    AskMoves(s, t.reply);
    if Failed(t.reply.final) {
      CloseMoves(asked, t.reply.final, []);
      FinishMoves(CloseTurn(asked, t.reply.final, []));
    } else {
      Emits(asked, outcome.events, AddResults(asked, outcome), INSIDE, INSIDE);
      CloseMoves(AddResults(asked, outcome), t.reply.final, outcome.results);
      NextMoves(cfg, CloseTurn(AddResults(asked, outcome), t.reply.final, outcome.results), t);
    }
  }

  lemma RefuseMoves(s: Loop)
    requires At(s, INSIDE)
    ensures At(Finish(CloseTurn(Refuse(s), TranscriptError(), [])), AFTER)
  {
    OneMessageShape(TranscriptError());
    Emits(s, [MessageStart(TranscriptError()), MessageEnd(TranscriptError())], Refuse(s), INSIDE, INSIDE);
    CloseMoves(Refuse(s), TranscriptError(), []);
    FinishMoves(CloseTurn(Refuse(s), TranscriptError(), []));
  }

  lemma TurnKeepsGrammar(cfg: Config, s: Loop, t: Turn)
    requires TurnOk(cfg, t) && OneStart(t.reply) && At(s, Standing(s))
    ensures At(RunTurn(cfg, s, t), Standing(RunTurn(cfg, s, t)))
  {
    if !s.ended {
      OpenMoves(s);
      if Callable(OpenTurn(s)) {
        ToolPhaseNeutral(cfg, t);
        AnswerTurnMoves(cfg, OpenTurn(s), t, ToolPhase(cfg, t));
      } else {
        RefuseMoves(OpenTurn(s));
      }
    }
  }

  lemma BeginStands(cfg: Config, o: Opening)
    ensures At(Begin(cfg, o), INSIDE)
  {
    OneEvent(OUTSIDE, AgentStart);
    OneEvent(OUTSIDE.(at := Between), TurnStart);
    FollowConcat(OUTSIDE, [AgentStart], [TurnStart]);
    assert [AgentStart, TurnStart] == [AgentStart] + [TurnStart];
    BracketedShape(o.prompts);
    FollowConcat(OUTSIDE, [AgentStart, TurnStart], Bracketed(o.prompts));
  }

  /** Event grammar. `agent_start`, then strictly alternating `turn_start` and `turn_end`, then, once the run has
      ended, one final `agent_end`; message brackets never nest, and each started tool call is ended once before its
      turn ends. */
  lemma {:induction false} EventGrammar(cfg: Config, o: Opening, turns: seq<Turn>)
    requires ScriptOk(cfg, turns)
    ensures FollowAll(OUTSIDE, RunTurns(cfg, Begin(cfg, o), turns).events) == Standing(RunTurns(cfg, Begin(cfg, o), turns))
  {
    if turns == [] {
      BeginStands(cfg, o);
    } else {
      var n := |turns| - 1;
      EventGrammar(cfg, o, turns[..n]);
      TurnKeepsGrammar(cfg, RunTurns(cfg, Begin(cfg, o), turns[..n]), turns[n]);
    }
  }

  /** So at every `turn_end` of every run the Agent has no pending tool call and no stream message. */
  lemma QuietTurnEnds(cfg: Config, o: Opening, agent: AgentState, turns: seq<Turn>, k: nat)
    requires ScriptOk(cfg, turns) && Quiet(agent)
    requires k < |RunTurns(cfg, Begin(cfg, o), turns).events| && RunTurns(cfg, Begin(cfg, o), turns).events[k].TurnEnd?
    ensures Quiet(Replay(agent, RunTurns(cfg, Begin(cfg, o), turns).events[..k]))
    ensures Quiet(Replay(agent, RunTurns(cfg, Begin(cfg, o), turns).events[..k + 1]))
  {
    EventGrammar(cfg, o, turns);
    QuietAtTurnEnd(agent, RunTurns(cfg, Begin(cfg, o), turns).events, k);
  }
}
