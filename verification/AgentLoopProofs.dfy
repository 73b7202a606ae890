// Every run of the agent loop, turn by turn: agreement with the Agent's own copy, and the event grammar.

module StreamProofs {
  import opened Wrappers
  import opened Messages
  import opened AgentEvents
  import opened AgentToolProofs
  import opened Streaming

  const MESSAGE_OPEN := Shape(InTurn, true, multiset{})

  function StreamShape(starts: nat): Shape {
    if starts == 0 then INSIDE else if starts == 1 then MESSAGE_OPEN else Broken
  }

  lemma ReplacedLast(a: seq<Message>, b: Message, c: Message)
    ensures ReplaceLast(a + [b], c) == a + [c]
  {
  }

  /** Every `start` puts one more message into the context. */
  lemma {:induction false} StreamGrows(messages: seq<Message>, stream: seq<StreamEvent>)
    ensures ReadStream(messages, stream).partial.Some? <==> Starts(stream) > 0
    ensures |ReadStream(messages, stream).messages| == |messages| + Starts(stream)
  {
    if stream != [] {
      StreamGrows(messages, stream[..|stream| - 1]);
    }
  }

  lemma {:induction false} StreamContext(messages: seq<Message>, stream: seq<StreamEvent>)
    requires Starts(stream) <= 1
    ensures var r := ReadStream(messages, stream);
      r.messages == messages + if r.partial.Some? then [r.partial.value] else []
  {
    if stream != [] {
      var before := stream[..|stream| - 1];
      StreamContext(messages, before);
      StreamGrows(messages, before);
      var r := ReadStream(messages, before);
      if stream[|stream| - 1].Delta? && r.partial.Some? {
        ReplacedLast(messages, r.partial.value, stream[|stream| - 1].partial);
      }
    }
  }

  lemma EventAfter(events: seq<Event>, ev: Event)
    ensures FollowAll(INSIDE, events + [ev]) == Follow(FollowAll(INSIDE, events), ev)
    ensures Ended(events + [ev]) == Ended(events) + if ev.MessageEnd? then [ev.message] else []
  {
    assert (events + [ev])[..|events|] == events;
  }

  lemma MessageMoves(starts: nat, p: Message)
    ensures Follow(StreamShape(starts), MessageStart(p)) == StreamShape(starts + 1)
    ensures starts > 0 ==> Follow(StreamShape(starts), MessageUpdate(p)) == StreamShape(starts)
  {
  }

  lemma StreamStep(r: Reading, starts: nat, ev: StreamEvent)
    requires r.partial.Some? <==> starts > 0
    requires FollowAll(INSIDE, r.events) == StreamShape(starts) && Ended(r.events) == []
    ensures FollowAll(INSIDE, ReadEvent(r, ev).events) == StreamShape(if ev.Started? then starts + 1 else starts)
    ensures Ended(ReadEvent(r, ev).events) == []
  {
    if ev.Started? {
      EventAfter(r.events, MessageStart(ev.partial));
      MessageMoves(starts, ev.partial);
    } else if ev.Delta? && r.partial.Some? {
      EventAfter(r.events, MessageUpdate(ev.partial));
      MessageMoves(starts, ev.partial);
    }
  }

  lemma {:induction false} StreamEvents(messages: seq<Message>, stream: seq<StreamEvent>)
    ensures FollowAll(INSIDE, ReadStream(messages, stream).events) == StreamShape(Starts(stream))
    ensures Ended(ReadStream(messages, stream).events) == []
  {
    if stream != [] {
      var n := |stream| - 1;
      StreamEvents(messages, stream[..n]);
      StreamGrows(messages, stream[..n]);
      StreamStep(ReadStream(messages, stream[..n]), Starts(stream[..n]), stream[n]);
    }
  }

  lemma CachedShape(events: seq<Event>, starts: nat)
    requires FollowAll(INSIDE, events) == StreamShape(starts) && Ended(events) == []
    ensures FollowAll(INSIDE, events + [ContextCache]) == StreamShape(starts) && Ended(events + [ContextCache]) == []
  {
    EventAfter(events, ContextCache);
  }

  lemma OpenClosed(events: seq<Event>, starts: nat, final: Message)
    requires FollowAll(INSIDE, events) == StreamShape(starts) && Ended(events) == [] && starts > 0
    ensures FollowAll(INSIDE, events + [MessageEnd(final)]) == if starts == 1 then INSIDE else Broken
    ensures Ended(events + [MessageEnd(final)]) == [final]
  {
    EventAfter(events, MessageEnd(final));
  }

  lemma NotOpenClosed(events: seq<Event>, final: Message)
    requires FollowAll(INSIDE, events) == INSIDE && Ended(events) == []
    ensures FollowAll(INSIDE, events + [MessageStart(final)] + [MessageEnd(final)]) == INSIDE
    ensures Ended(events + [MessageStart(final)] + [MessageEnd(final)]) == [final]
  {
    var open := events + [MessageStart(final)];
    EventAfter(events, MessageStart(final));
    EventAfter(open, MessageEnd(final));
  }

  lemma AnswerShape(messages: seq<Message>, reply: Reply)
    ensures Ended(AnswerEvents(messages, reply)) == [reply.final]
    ensures FollowAll(INSIDE, AnswerEvents(messages, reply)) == if OneStart(reply) then INSIDE else Broken
  {
    var stream := Live(reply.stream);
    var r := ReadStream(messages, stream);
    var cached := r.events + [ContextCache];
    StreamGrows(messages, stream);
    StreamEvents(messages, stream);
    CachedShape(r.events, Starts(stream));
    if r.partial.Some? {
      OpenClosed(cached, Starts(stream), reply.final);
      assert cached + [] == cached;
    } else {
      NotOpenClosed(cached, reply.final);
    }
  }

  /** What the Agent sees of a reply is one completed message. The context agrees with that exactly when at most one
      `start` is read. */
  lemma AnswerExact(messages: seq<Message>, reply: Reply)
    ensures Answered(messages, reply) == messages + [reply.final] <==> OneStart(reply)
  {
    var stream := Live(reply.stream);
    var r := ReadStream(messages, stream);
    StreamGrows(messages, stream);
    if OneStart(reply) {
      StreamContext(messages, stream);
      if r.partial.Some? {
        ReplacedLast(messages, r.partial.value, reply.final);
      }
    }
  }
}

module TurnProofs {
  import opened Wrappers
  import opened Messages
  import opened AgentEvents
  import opened AgentTools
  import opened AgentToolProofs
  import opened Streaming
  import opened AgentLoop
  import T = Transcript

  /** The calls a turn runs. */
  function CallsOf(t: Turn): seq<ToolCall> {
    if Failed(t.reply.final) then [] else ToolCalls(t.reply.final)
  }

  /** What the loop relies on: the tool phase keeps to its turn, completes exactly its results, and answers every call
      once. */
  predicate Neutral(calls: seq<ToolCall>, outcome: Outcome) {
    && Inner(outcome.events)
    && FollowAll(INSIDE, outcome.events) == INSIDE
    && Ended(outcome.events) == outcome.results
    && T.AllResults(outcome.results)
    && |outcome.results| == |calls|
    && multiset(T.ResultIds(outcome.results)) == multiset(T.Ids(calls))
  }

  lemma SequentialNeutral(calls: seq<ToolCall>, envs: seq<ToolEnv>)
    requires |envs| == |calls|
    ensures Neutral(calls, Outcome(SequentialEvents(calls, envs), SequentialResults(calls, envs)))
  {
    SequentialInner(calls, envs);
    SequentialShape(calls, envs);
    SequentialResultOrder(calls, envs);
  }

  lemma ParallelNeutral(calls: seq<ToolCall>, tools: ToolTurn)
    requires ParallelOk(calls, tools)
    ensures (ParallelIndices(calls, tools); Neutral(calls, Outcome(ParallelEvents(calls, tools), ParallelResults(calls, tools))))
  {
    ParallelInner(calls, tools);
    ParallelShape(calls, tools);
    ParallelResultOrder(calls, tools);
  }

  /** Both execution modes and every schedule give a neutral tool phase. */
  lemma ToolPhaseNeutral(cfg: Config, t: Turn)
    requires TurnOk(cfg, t)
    ensures Neutral(CallsOf(t), ToolPhase(cfg, t))
  {
    var calls := ToolCalls(t.reply.final);
    if Failed(t.reply.final) || calls == [] {
      assert T.ResultIds([]) == [] == T.Ids([]);
    } else if cfg.mode == Sequential {
      SequentialNeutral(calls, t.tools.envs);
    } else {
      ParallelNeutral(calls, t.tools);
    }
  }

  lemma {:induction false} BracketedShape(messages: seq<Message>)
    ensures FollowAll(INSIDE, Bracketed(messages)) == INSIDE
    ensures Ended(Bracketed(messages)) == messages
    ensures Inner(Bracketed(messages))
  {
    if messages != [] {
      hide FollowAll, Ended;
      var n := |messages| - 1;
      BracketedShape(messages[..n]);
      OneMessageShape(messages[n]);
      Then(INSIDE, Bracketed(messages[..n]), [MessageStart(messages[n]), MessageEnd(messages[n])], INSIDE, INSIDE);
    }
  }

  lemma OneMessageShape(m: Message)
    ensures FollowAll(INSIDE, [MessageStart(m), MessageEnd(m)]) == INSIDE
    ensures Ended([MessageStart(m), MessageEnd(m)]) == [m]
  {
    OneEvent(INSIDE, MessageStart(m));
    OneEvent(INSIDE.(open := true), MessageEnd(m));
    Then(INSIDE, [MessageStart(m)], [MessageEnd(m)], INSIDE.(open := true), INSIDE);
    assert [MessageStart(m), MessageEnd(m)] == [MessageStart(m)] + [MessageEnd(m)];
  }

  lemma {:induction false} StreamInner(messages: seq<Message>, stream: seq<StreamEvent>)
    ensures Inner(ReadStream(messages, stream).events)
  {
    if stream != [] {
      StreamInner(messages, stream[..|stream| - 1]);
    }
  }

  lemma AnswerInner(messages: seq<Message>, reply: Reply)
    ensures Inner(AnswerEvents(messages, reply))
  {
    StreamInner(messages, Live(reply.stream));
  }
}
