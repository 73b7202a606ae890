// What the events of a run carry, and what the Agent's fields say after any trace.

module AgentPayloads {
  import opened Wrappers
  import opened Messages
  import opened AgentEvents
  import opened AgentToolProofs
  import opened Streaming
  import opened AgentLoop
  import opened StreamProofs
  import opened TurnProofs
  import opened Agreement

  // ----- The Agent's fields after any trace -----

  /** The last event that satisfies `p`. */
  function LastWhere(trace: seq<Event>, p: Event -> bool): (r: Option<nat>)
    ensures r.Some? ==> r.value < |trace| && p(trace[r.value])
    ensures forall k :: 0 <= k < |trace| && (r.Some? ==> r.value < k) ==> !p(trace[k])
  {
    if trace == [] then None
    else
      var n := |trace| - 1;
      if p(trace[n]) then Some(n) else LastWhere(trace[..n], p)
  }

  predicate TouchesMessage(ev: Event) {
    ev.MessageStart? || ev.MessageUpdate? || ev.MessageEnd? || ev.AgentEnd?
  }

  /** A turn that ended with an error text. */
  predicate SetsError(ev: Event) {
    ev.TurnEnd? && ev.message.Assistant? && ev.message.errorMessage.Some? && ev.message.errorMessage.value != ""
  }

  function TouchesCall(id: string): Event -> bool {
    (ev: Event) => (ev.ToolStart? || ev.ToolEnd?) && ev.id == id
  }

  predicate IsAgentEnd(ev: Event) {
    ev.AgentEnd?
  }

  /** The fields `st` has reached from `before` over a trace: the stream message is the one of the last event about a
      message, if that did not complete it; the error is that of the last turn that reported one; a call is pending if the
      last event about it started it; and the Agent streams until `agent_end`. */
  ghost predicate FieldsAfter(before: AgentState, trace: seq<Event>, st: AgentState) {
    var touched, failed := LastWhere(trace, TouchesMessage), LastWhere(trace, SetsError);
    && st.streamMessage == (if touched.None? then before.streamMessage
                            else match trace[touched.value]
                              case MessageStart(m) => Some(m)
                              case MessageUpdate(m) => Some(m)
                              case _ => None)
    && st.error == (if failed.None? then before.error else trace[failed.value].message.errorMessage)
    && st.isStreaming == (before.isStreaming && LastWhere(trace, IsAgentEnd).None?)
    && forall id :: id in st.pendingToolCalls <==> PendingAfter(before, trace, id)
  }

  predicate PendingAfter(before: AgentState, trace: seq<Event>, id: string) {
    var last := LastWhere(trace, TouchesCall(id));
    if last.None? then id in before.pendingToolCalls else trace[last.value].ToolStart?
  }

  lemma LastSnoc(trace: seq<Event>, ev: Event, p: Event -> bool)
    ensures LastWhere(trace + [ev], p) == if p(ev) then Some(|trace|) else LastWhere(trace, p)
  {
    assert (trace + [ev])[..|trace|] == trace;
  }

  lemma FieldsNext(before: AgentState, trace: seq<Event>, st: AgentState, ev: Event)
    requires FieldsAfter(before, trace, st)
    ensures FieldsAfter(before, trace + [ev], ProcessEvent(st, ev))
  {
    LastSnoc(trace, ev, TouchesMessage);
    LastSnoc(trace, ev, SetsError);
    LastSnoc(trace, ev, IsAgentEnd);
    hide LastWhere;
    forall id ensures id in ProcessEvent(st, ev).pendingToolCalls <==> PendingAfter(before, trace + [ev], id) {
      LastSnoc(trace, ev, TouchesCall(id));
      assert id in st.pendingToolCalls <==> PendingAfter(before, trace, id);
    }
  }

  /** The Agent's fields after any trace. */
  lemma {:induction false} ReplayFields(before: AgentState, trace: seq<Event>)
    ensures FieldsAfter(before, trace, Replay(before, trace))
  {
    if trace != [] {
      var n := |trace| - 1;
      ReplayFields(before, trace[..n]);
      FieldsNext(before, trace[..n], Replay(before, trace[..n]), trace[n]);
      assert trace == trace[..n] + [trace[n]];
    }
  }

  // ----- What a reply emits -----

  /** The stream is read up to its first `done` or `error`. */
  lemma {:induction false} LiveExactly(stream: seq<StreamEvent>)
    ensures Live(stream) <= stream
    ensures forall k :: 0 <= k < |Live(stream)| ==> !Live(stream)[k].Finished?
    ensures |Live(stream)| < |stream| ==> stream[|Live(stream)|].Finished?
  {
    if stream != [] && !stream[0].Finished? {
      LiveExactly(stream[1..]);
      assert stream == [stream[0]] + stream[1..];
    }
  }

  function Deltas(partials: seq<Message>): seq<StreamEvent> {
    seq(|partials|, k requires 0 <= k < |partials| => Delta(partials[k]))
  }

  function Updates(partials: seq<Message>): seq<Event> {
    seq(|partials|, k requires 0 <= k < |partials| => MessageUpdate(partials[k]))
  }

  function Latest(first: Message, partials: seq<Message>): Message {
    if partials == [] then first else partials[|partials| - 1]
  }

  /** While a reply streams, the context ends with its latest partial message, and each partial is emitted once. */
  lemma {:induction false} StreamEmits(messages: seq<Message>, first: Message, partials: seq<Message>)
    ensures ReadStream(messages, [Started(first)] + Deltas(partials)) ==
      Reading(messages + [Latest(first, partials)], [MessageStart(first)] + Updates(partials), Some(Latest(first, partials)))
  {
    if partials == [] {
      assert [Started(first)] + Deltas([]) == [Started(first)] && [Started(first)][..0] == [];
      assert ReadStream(messages, []) == Reading(messages, [], None);
    } else {
      var n := |partials| - 1;
      StreamEmits(messages, first, partials[..n]);
      StreamSnoc(messages, [Started(first)] + Deltas(partials[..n]), Delta(partials[n]));
      assert [Started(first)] + Deltas(partials) == [Started(first)] + Deltas(partials[..n]) + [Delta(partials[n])];
      ReplacedLast(messages, Latest(first, partials[..n]), partials[n]);
      assert Updates(partials) == Updates(partials[..n]) + [MessageUpdate(partials[n])];
    }
  }

  lemma StreamSnoc(messages: seq<Message>, stream: seq<StreamEvent>, ev: StreamEvent)
    ensures ReadStream(messages, stream + [ev]) == ReadEvent(ReadStream(messages, stream), ev)
  {
    assert (stream + [ev])[..|stream|] == stream;
  }

  /** Without a `start` nothing of the stream is emitted. */
  lemma {:induction false} DeltasIgnored(messages: seq<Message>, partials: seq<Message>)
    ensures ReadStream(messages, Deltas(partials)) == Reading(messages, [], None)
  {
    if partials != [] {
      var n := |partials| - 1;
      DeltasIgnored(messages, partials[..n]);
      StreamSnoc(messages, Deltas(partials[..n]), Delta(partials[n]));
      assert Deltas(partials) == Deltas(partials[..n]) + [Delta(partials[n])];
    }
  }

  /** The events of a reply: its start and partials as they stream, or the finished message alone. */
  lemma AnswerEmits(messages: seq<Message>, reply: Reply, first: Message, partials: seq<Message>)
    ensures Live(reply.stream) == [Started(first)] + Deltas(partials) ==>
      AnswerEvents(messages, reply) ==
        [MessageStart(first)] + Updates(partials) + [ContextCache, MessageEnd(reply.final)]
    ensures Live(reply.stream) == Deltas(partials) ==>
      AnswerEvents(messages, reply) == [ContextCache, MessageStart(reply.final), MessageEnd(reply.final)]
  {
    StreamEmits(messages, first, partials);
    DeltasIgnored(messages, partials);
  }

  // ----- What the ends of turns and runs carry -----

  /** The trace has completed these messages last. */
  predicate EndsWith(completed: seq<Message>, last: seq<Message>) {
    |last| <= |completed| && completed[|completed| - |last|..] == last
  }

  predicate PaidAt(events: seq<Event>, n: nat)
    requires n < |events| && events[n].TurnEnd?
  {
    EndsWith(Ended(events[..n]), [events[n].message] + events[n].results)
  }

  /** Every `turn_end` carries the last reply and the results completed after it. */
  predicate TurnsPaid(events: seq<Event>) {
    forall n :: 0 <= n < |events| && events[n].TurnEnd? ==> PaidAt(events, n)
  }

  lemma PaidLasts(events: seq<Event>, more: seq<Event>)
    requires TurnsPaid(events) && NoTurnEnd(more)
    ensures TurnsPaid(events + more)
  {
    forall n | 0 <= n < |events + more| && (events + more)[n].TurnEnd? ensures PaidAt(events + more, n) {
      assert n < |events|;
      assert PaidAt(events, n) && (events + more)[..n] == events[..n];
    }
  }

  lemma PaidNext(events: seq<Event>, m: Message, results: seq<Message>)
    requires TurnsPaid(events) && EndsWith(Ended(events), [m] + results)
    ensures TurnsPaid(events + [TurnEnd(m, results)])
  {
    var all := events + [TurnEnd(m, results)];
    forall n | 0 <= n < |all| && all[n].TurnEnd? ensures PaidAt(all, n) {
      if n < |events| {
        assert PaidAt(events, n) && all[..n] == events[..n];
      } else {
        assert all[..n] == events;
      }
    }
  }

  /** The last event of a run that has ended. */
  predicate Paid(s: Loop) {
    && TurnsPaid(s.events)
    && (s.ended ==> s.events != [] && s.events[|s.events| - 1] == AgentEnd(s.newMessages))
  }

  lemma EndsWithSnoc(completed: seq<Message>, last: seq<Message>)
    ensures EndsWith(completed + last, last)
  {
  }

  lemma OpenPaid(s: Loop)
    requires Paid(s) && !s.ended
    ensures Paid(OpenTurn(s)) && !OpenTurn(s).ended
  {
    var first := if s.firstTurn then [] else [TurnStart];
    OpeningEnds(first, s.pending);
    PaidLasts(s.events, first + Bracketed(s.pending));
    assert s.events + first + Bracketed(s.pending) == s.events + (first + Bracketed(s.pending));
  }

  lemma RefusePaid(s: Loop)
    requires TurnsPaid(s.events) && !s.ended
    ensures Paid(Finish(CloseTurn(Refuse(s), TranscriptError(), [])))
  {
    var m := TranscriptError();
    var said := [MessageStart(m), MessageEnd(m)];
    OneMessageShape(m);
    EndedConcat(s.events, said);
    PaidLasts(s.events, said);
    EndsWithSnoc(Ended(s.events), [m]);
    assert [m] + [] == [m];
    PaidNext(s.events + said, m, []);
    PaidLasts(s.events + said + [TurnEnd(m, [])], [AgentEnd(Refuse(s).newMessages)]);
  }

  lemma AskPaid(s: Loop, reply: Reply)
    requires TurnsPaid(s.events)
    ensures TurnsPaid(Ask(s, reply).events)
    ensures Ended(Ask(s, reply).events) == Ended(s.events) + [reply.final]
  {
    AnswerInner(s.messages, reply);
    AnswerShape(s.messages, reply);
    EndedConcat(s.events, AnswerEvents(s.messages, reply));
    PaidLasts(s.events, AnswerEvents(s.messages, reply));
  }

  lemma ResultsPaid(s: Loop, m: Message, outcome: Outcome, before: seq<Message>)
    requires TurnsPaid(s.events) && Ended(s.events) == before + [m]
    requires Inner(outcome.events) && Ended(outcome.events) == outcome.results
    ensures TurnsPaid(CloseTurn(AddResults(s, outcome), m, outcome.results).events)
  {
    EndedConcat(s.events, outcome.events);
    PaidLasts(s.events, outcome.events);
    EndsWithSnoc(before, [m] + outcome.results);
    assert before + [m] + outcome.results == before + ([m] + outcome.results);
    PaidNext(s.events + outcome.events, m, outcome.results);
  }

  lemma NextPaid(cfg: Config, s: Loop, t: Turn)
    requires TurnsPaid(s.events) && !s.ended
    ensures Paid(NextMessages(cfg, s, t))
  {
    var polled := PollSteering(cfg, Arrive(s, t.beforeSteering));
    PaidLasts(s.events, [AgentEnd(s.newMessages)]);
  }

  lemma AnswerPaid(cfg: Config, s: Loop, t: Turn, outcome: Outcome)
    requires TurnsPaid(s.events) && !s.ended
    requires Inner(outcome.events) && Ended(outcome.events) == outcome.results
    ensures Paid(AnswerTurn(cfg, s, t, outcome))
  {
    var asked := Ask(s, t.reply);
    AskPaid(s, t.reply);
    if Failed(t.reply.final) {
      EndsWithSnoc(Ended(s.events), [t.reply.final]);
      assert [t.reply.final] + [] == [t.reply.final];
      PaidNext(asked.events, t.reply.final, []);
      PaidLasts(CloseTurn(asked, t.reply.final, []).events, [AgentEnd(asked.newMessages)]);
    } else {
      ResultsPaid(asked, t.reply.final, outcome, Ended(s.events));
      NextPaid(cfg, CloseTurn(AddResults(asked, outcome), t.reply.final, outcome.results), t);
    }
  }

  lemma TurnPaid(cfg: Config, s: Loop, t: Turn)
    requires TurnOk(cfg, t) && Paid(s)
    ensures Paid(RunTurn(cfg, s, t))
  {
    if !s.ended {
      OpenPaid(s);
      if Callable(OpenTurn(s)) {
        ToolPhaseNeutral(cfg, t);
        AnswerPaid(cfg, OpenTurn(s), t, ToolPhase(cfg, t));
      } else {
        RefusePaid(OpenTurn(s));
      }
    }
  }

  lemma BeginPaid(cfg: Config, o: Opening)
    ensures Paid(Begin(cfg, o))
  {
    OpeningEnds([AgentStart, TurnStart], o.prompts);
  }

  lemma {:induction false} RunPaid(cfg: Config, o: Opening, turns: seq<Turn>)
    requires ScriptOk(cfg, turns)
    ensures Paid(RunTurns(cfg, Begin(cfg, o), turns))
  {
    hide RunTurn, Paid, Begin;
    if turns == [] {
      BeginPaid(cfg, o);
    } else {
      var n := |turns| - 1;
      RunPaid(cfg, o, turns[..n]);
      TurnPaid(cfg, RunTurns(cfg, Begin(cfg, o), turns[..n]), turns[n]);
    }
  }

  /** Over every run: each `turn_end` carries its reply and the results completed since, and `agent_end` carries all
      messages the run has completed. */
  lemma RunPayloads(cfg: Config, o: Opening, turns: seq<Turn>)
    requires ScriptOk(cfg, turns)
    ensures var s := RunTurns(cfg, Begin(cfg, o), turns);
      && TurnsPaid(s.events)
      && (s.ended ==> s.events != [] && s.events[|s.events| - 1] == AgentEnd(Ended(s.events)))
  {
    RunPaid(cfg, o, turns);
    RunAgrees(cfg, o, turns);
  }
}
