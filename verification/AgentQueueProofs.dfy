// The steering and follow-up queues over a whole run.

module QueueProofs {
  import opened Wrappers
  import opened Messages
  import opened Streaming
  import opened AgentLoop
  import opened Queues
  import Pairing
  import Transcript
  import opened TurnProofs

  // ----- Conservation -----

  /** The messages a run has put into the conversation from a queue, in order. */
  function Entered(log: seq<Observation>, q: Queue): seq<Message> {
    if log == [] then []
    else
      var ob := log[|log| - 1];
      Entered(log[..|log| - 1], q) + if ob.Injected? && ob.queue == q then ob.messages else []
  }

  function QueueOf(s: Loop, q: Queue): seq<Message> {
    if q == Steering then s.steering else s.followUp
  }

  function EverQueued(s: Loop, q: Queue): seq<Message> {
    if q == Steering then s.steered else s.followed
  }

  function PendingOf(s: Loop, q: Queue): seq<Message> {
    if s.source == q then s.pending else []
  }

  /** All messages ever queued are those that entered in earlier runs, entered in this run, are about to enter, or are
      still queued, in that order. */
  predicate Conserved(earlier: seq<Message>, q: Queue, s: Loop) {
    EverQueued(s, q) == earlier + Entered(s.log, q) + PendingOf(s, q) + QueueOf(s, q)
  }

  lemma EnteredSnoc(log: seq<Observation>, ob: Observation, q: Queue)
    ensures Entered(log + [ob], q) == Entered(log, q) + if ob.Injected? && ob.queue == q then ob.messages else []
  {
    assert (log + [ob])[..|log|] == log;
  }

  lemma TakenLeft(mode: QueueMode, queue: seq<Message>)
    ensures Taken(mode, queue) + Left(mode, queue) == queue
    ensures mode == OneAtATime ==> |Taken(mode, queue)| <= 1
    ensures Taken(mode, queue) == [] <==> queue == []
  {
  }

  lemma OpenConserves(earlier: seq<Message>, q: Queue, s: Loop)
    requires Conserved(earlier, q, s)
    ensures Conserved(earlier, q, OpenTurn(s)) && OpenTurn(s).pending == []
  {
    var entered := Entered(s.log, q);
    if s.pending == [] {
      assert s.log + [] == s.log;
    } else {
      EnteredSnoc(s.log, Injected(s.source, s.pending), q);
      EnteredRegroup(earlier, entered, PendingOf(s, q), QueueOf(s, q));
    }
  }

  lemma EnteredRegroup(earlier: seq<Message>, entered: seq<Message>, pending: seq<Message>, queue: seq<Message>)
    ensures earlier + entered + pending + queue == earlier + (entered + pending) + [] + queue
  {
  }

  /** A step that injects nothing and leaves the queues alone. */
  lemma NotedConserves(earlier: seq<Message>, q: Queue, s: Loop, ob: Observation, s': Loop)
    requires Conserved(earlier, q, s) && !ob.Injected? && s'.log == s.log + [ob]
    requires QueueOf(s', q) == QueueOf(s, q) && EverQueued(s', q) == EverQueued(s, q) && PendingOf(s', q) == PendingOf(s, q)
    ensures Conserved(earlier, q, s')
  {
    EnteredSnoc(s.log, ob, q);
    assert Entered(s.log, q) + [] == Entered(s.log, q);
  }

  lemma ArriveConserves(earlier: seq<Message>, q: Queue, s: Loop, a: Arrivals)
    requires Conserved(earlier, q, s)
    ensures Conserved(earlier, q, Arrive(s, a))
  {
  }

  lemma Regroup(before: seq<Message>, taken: seq<Message>, left: seq<Message>, queue: seq<Message>)
    requires taken + left == queue
    ensures before + [] + queue == before + taken + left
    ensures before + [] + taken + left == before + taken + left
  {
  }

  lemma SteeringConserves(earlier: seq<Message>, q: Queue, cfg: Config, s: Loop)
    requires Conserved(earlier, q, s) && s.pending == []
    ensures Conserved(earlier, q, PollSteering(cfg, s))
  {
    var polled := PollSteering(cfg, s);
    TakenLeft(cfg.steeringMode, s.steering);
    EnteredSnoc(s.log, Polled(Steering, polled.pending), q);
    Regroup(earlier + Entered(s.log, q), polled.pending, polled.steering, s.steering);
  }

  lemma FollowUpConserves(earlier: seq<Message>, q: Queue, cfg: Config, s: Loop)
    requires Conserved(earlier, q, s) && s.pending == []
    ensures Conserved(earlier, q, PollFollowUp(cfg, s))
  {
    var polled := PollFollowUp(cfg, s);
    TakenLeft(cfg.followUpMode, s.followUp);
    EnteredSnoc(s.log, Polled(FollowUp, polled.pending), q);
    Regroup(earlier + Entered(s.log, q), polled.pending, polled.followUp, s.followUp);
  }

  lemma NextConserves(earlier: seq<Message>, q: Queue, cfg: Config, s: Loop, t: Turn)
    requires Conserved(earlier, q, s) && s.pending == [] && !s.ended
    ensures Conserved(earlier, q, NextMessages(cfg, s, t))
    ensures NextMessages(cfg, s, t).ended ==> NextMessages(cfg, s, t).pending == []
  {
    var arrived := Arrive(s, t.beforeSteering);
    ArriveConserves(earlier, q, s, t.beforeSteering);
    SteeringConserves(earlier, q, cfg, arrived);
    var polled := PollSteering(cfg, arrived);
    if ToolCalls(t.reply.final) == [] && polled.pending == [] {
      LastPollConserves(earlier, q, cfg, polled, t.beforeFollowUp);
    }
  }

  lemma LastPollConserves(earlier: seq<Message>, q: Queue, cfg: Config, polled: Loop, a: Arrivals)
    requires Conserved(earlier, q, polled) && polled.pending == []
    ensures Conserved(earlier, q, PollFollowUp(cfg, Arrive(polled, a)))
    ensures Conserved(earlier, q, Finish(PollFollowUp(cfg, Arrive(polled, a))))
  {
    ArriveConserves(earlier, q, polled, a);
    FollowUpConserves(earlier, q, cfg, Arrive(polled, a));
  }

  lemma AnswerTurnConserves(earlier: seq<Message>, q: Queue, cfg: Config, s: Loop, t: Turn, outcome: Outcome)
    requires Conserved(earlier, q, s) && s.pending == [] && !s.ended
    ensures Conserved(earlier, q, AnswerTurn(cfg, s, t, outcome))
    ensures AnswerTurn(cfg, s, t, outcome).ended ==> AnswerTurn(cfg, s, t, outcome).pending == []
  {
    var asked := Ask(s, t.reply);
    var m := t.reply.final;
    NotedConserves(earlier, q, s, Called(s.messages, |s.events|), asked);
    if Failed(m) {
      var closed := CloseTurn(asked, m, []);
      NotedConserves(earlier, q, asked, Closed(m, asked.refused, asked.messages, |asked.events|), closed);
    } else {
      var added := AddResults(asked, outcome);
      var closed := CloseTurn(added, m, outcome.results);
      NotedConserves(earlier, q, added, Closed(m, added.refused, added.messages, |added.events|), closed);
      NextConserves(earlier, q, cfg, closed, t);
    }
  }

  lemma TurnConserves(earlier: seq<Message>, q: Queue, cfg: Config, s: Loop, t: Turn)
    requires TurnOk(cfg, t) && Conserved(earlier, q, s) && (s.ended ==> s.pending == [])
    ensures Conserved(earlier, q, RunTurn(cfg, s, t))
    ensures RunTurn(cfg, s, t).ended ==> RunTurn(cfg, s, t).pending == []
  {
    if !s.ended {
      var ready := OpenTurn(s);
      OpenConserves(earlier, q, s);
      if Callable(ready) {
        AnswerTurnConserves(earlier, q, cfg, ready, t, ToolPhase(cfg, t));
      } else {
        var r := Refuse(ready);
        NotedConserves(earlier, q, r, Closed(TranscriptError(), true, r.messages, |r.events|), CloseTurn(r, TranscriptError(), []));
      }
    }
  }

  /** The prompts come out of a queue, or from the caller. */
  predicate OpeningConserved(earlier: seq<Message>, q: Queue, o: Opening) {
    var queued := (if o.origin == Some(q) then o.prompts else []) + if q == Steering then o.steering else o.followUp;
    (if q == Steering then o.steered else o.followed) == earlier + queued
  }

  /** Before the first poll: only prompts that came from a queue have entered. */
  lemma PromptsConserved(earlier: seq<Message>, q: Queue, o: Opening, s: Loop)
    requires OpeningConserved(earlier, q, o) && s.pending == []
    requires s.log == if o.origin.Some? then [Injected(o.origin.value, o.prompts)] else []
    requires s.steering == o.steering && s.followUp == o.followUp && s.steered == o.steered && s.followed == o.followed
    ensures Conserved(earlier, q, s)
  {
    var entered := if o.origin == Some(q) then o.prompts else [];
    EnteredOne(s.log, q);
    assert Entered(s.log, q) == entered;
    PromptsRegroup(earlier, entered, QueueOf(s, q));
  }

  lemma EnteredOne(log: seq<Observation>, q: Queue)
    requires |log| <= 1
    ensures Entered(log, q) == if log != [] && log[0].Injected? && log[0].queue == q then log[0].messages else []
  {
    if log != [] {
      EnteredSnoc([], log[0], q);
      assert [] + log == log && [log[0]] == log;
    }
  }

  lemma PromptsRegroup(earlier: seq<Message>, entered: seq<Message>, queue: seq<Message>)
    ensures earlier + (entered + queue) == earlier + entered + [] + queue
  {
  }

  lemma BeginConserves(earlier: seq<Message>, q: Queue, cfg: Config, o: Opening)
    requires OpeningConserved(earlier, q, o)
    ensures Conserved(earlier, q, Begin(cfg, o))
  {
    var s := Entering(o);
    PromptsConserved(earlier, q, o, s);
    if o.skipPoll {
      NotedConserves(earlier, q, s, Polled(Steering, []), Begin(cfg, o));
    } else {
      SteeringConserves(earlier, q, cfg, s);
    }
  }

  /** Queue conservation. However `steer` and `followUp` interleave with a run, the messages queued are the messages
      that entered the conversation, first come first, then those still queued; an ended run holds none back. */
  lemma {:induction false} QueueConservation(earlier: seq<Message>, q: Queue, cfg: Config, o: Opening, turns: seq<Turn>)
    requires ScriptOk(cfg, turns) && OpeningConserved(earlier, q, o)
    ensures Conserved(earlier, q, RunTurns(cfg, Begin(cfg, o), turns))
    ensures RunTurns(cfg, Begin(cfg, o), turns).ended ==> RunTurns(cfg, Begin(cfg, o), turns).pending == []
  {
    if turns == [] {
      BeginConserves(earlier, q, cfg, o);
    } else {
      var n := |turns| - 1;
      QueueConservation(earlier, q, cfg, o, turns[..n]);
      TurnConserves(earlier, q, cfg, RunTurns(cfg, Begin(cfg, o), turns[..n]), turns[n]);
    }
  }

  // ----- When messages enter -----

  /** Steering messages that entered since the provider was last called. */
  function SteeredSinceCall(log: seq<Observation>): nat {
    if log == [] then 0
    else match log[|log| - 1]
      case Called(_, _) => 0
      case Injected(Steering, ms) => SteeredSinceCall(log[..|log| - 1]) + |ms|
      case _ => SteeredSinceCall(log[..|log| - 1])
  }

  predicate AtMostOneSteered(log: seq<Observation>) {
    forall k :: 0 <= k <= |log| ==> SteeredSinceCall(log[..k]) <= 1
  }

  /** The context ends with the reply and one result for each of its calls. */
  predicate AnsweredLast(context: seq<Message>, m: Message) {
    var from := |context| - |ToolCalls(m)|;
    && from > 0 && context[from - 1] == m && Transcript.AllResults(context[from..])
    && multiset(Transcript.ResultIds(context[from..])) == multiset(Transcript.Ids(ToolCalls(m)))
  }

  /** The `turn_end` of a reply that did not fail. */
  predicate ClosedWell(ob: Observation) {
    ob.Closed? && !ob.refused && !Failed(ob.message)
  }

  /** The steering queue is polled when the run opens, after its own prompts at most, and otherwise only right after a
      turn that did not fail. A follow-up is only looked for after a reply without tool calls and an empty steering
      poll, and messages enter right after the poll that took them. */
  predicate Grounded(log: seq<Observation>, i: nat)
    requires i < |log|
  {
    match log[i]
    case Polled(FollowUp, _) =>
      && i >= 2 && log[i - 1] == Polled(Steering, [])
      && ClosedWell(log[i - 2]) && ToolCalls(log[i - 2].message) == []
    case Polled(Steering, _) => i == 0 || (i == 1 && log[0].Injected?) || ClosedWell(log[i - 1])
    case Injected(q, ms) => i == 0 || log[i - 1] == Polled(q, ms)
    case Called(context, _) => Pairing.Sound(context)
    case Closed(m, refused, context, _) => !refused && !Failed(m) ==> AnsweredLast(context, m)
  }

  predicate AllGrounded(log: seq<Observation>) {
    forall i :: 0 <= i < |log| ==> Grounded(log, i)
  }

  lemma StillGrounded(log: seq<Observation>, ob: Observation)
    requires AllGrounded(log) && Grounded(log + [ob], |log|)
    ensures AllGrounded(log + [ob])
  {
    forall i | 0 <= i < |log| ensures Grounded(log + [ob], i) {
      assert Grounded(log, i);
    }
  }

  lemma SteeredSnoc(log: seq<Observation>, ob: Observation)
    ensures SteeredSinceCall(log + [ob]) ==
      if ob.Called? then 0
      else SteeredSinceCall(log) + if ob.Injected? && ob.queue == Steering then |ob.messages| else 0
    ensures AtMostOneSteered(log) && SteeredSinceCall(log + [ob]) <= 1 ==> AtMostOneSteered(log + [ob])
  {
    assert (log + [ob])[..|log|] == log;
    if AtMostOneSteered(log) && SteeredSinceCall(log + [ob]) <= 1 {
      forall k | 0 <= k <= |log| + 1 ensures SteeredSinceCall((log + [ob])[..k]) <= 1 {
        if k <= |log| {
          assert (log + [ob])[..k] == log[..k];
        } else {
          assert (log + [ob])[..k] == log + [ob];
        }
      }
    }
  }

  /** The state of the history between two turns: pending messages were taken by the last poll. */
  predicate Orderly(cfg: Config, s: Loop) {
    && AllGrounded(s.log)
    && (!s.ended && s.pending != [] ==> s.log != [] && s.log[|s.log| - 1] == Polled(s.source, s.pending))
    && (cfg.steeringMode == OneAtATime ==>
          AtMostOneSteered(s.log) && (!s.ended ==> SteeredSinceCall(s.log) + |PendingOf(s, Steering)| <= 1))
  }

  /** Inside a turn nothing is pending. */
  predicate OrderlyTurn(cfg: Config, s: Loop) {
    && AllGrounded(s.log) && s.pending == [] && !s.ended
    && (cfg.steeringMode == OneAtATime ==> AtMostOneSteered(s.log))
  }

  lemma OpenOrderly(cfg: Config, s: Loop)
    requires Orderly(cfg, s) && !s.ended
    ensures OrderlyTurn(cfg, OpenTurn(s))
  {
    if s.pending == [] {
      assert s.log + [] == s.log;
    } else {
      var ob := Injected(s.source, s.pending);
      assert (s.log + [ob])[|s.log| - 1] == s.log[|s.log| - 1];
      StillGrounded(s.log, ob);
      SteeredSnoc(s.log, ob);
    }
  }

  /** One more observation that injects nothing. */
  lemma NotedOrderly(cfg: Config, log: seq<Observation>, ob: Observation)
    requires AllGrounded(log) && Grounded(log + [ob], |log|) && !ob.Injected?
    ensures AllGrounded(log + [ob])
    ensures AtMostOneSteered(log) ==> AtMostOneSteered(log + [ob])
    ensures SteeredSinceCall(log + [ob]) == if ob.Called? then 0 else SteeredSinceCall(log)
  {
    StillGrounded(log, ob);
    SteeredSnoc(log, ob);
    if AtMostOneSteered(log) {
      assert log[..|log|] == log;
    }
  }

  lemma NextOrderly(cfg: Config, s: Loop, t: Turn)
    requires OrderlyTurn(cfg, s) && SteeredSinceCall(s.log) == 0 && !Failed(t.reply.final)
    requires s.log != [] && s.log[|s.log| - 1].Closed?
    requires s.log[|s.log| - 1].message == t.reply.final && !s.log[|s.log| - 1].refused
    ensures Orderly(cfg, NextMessages(cfg, s, t))
  {
    var arrived := Arrive(s, t.beforeSteering);
    var polled := PollSteering(cfg, arrived);
    TakenLeft(cfg.steeringMode, arrived.steering);
    NotedOrderly(cfg, s.log, Polled(Steering, polled.pending));
    if ToolCalls(t.reply.final) == [] && polled.pending == [] {
      assert polled.log[|s.log| - 1] == s.log[|s.log| - 1];
      LastPollOrderly(cfg, polled, t);
    }
  }

  lemma LastPollOrderly(cfg: Config, s: Loop, t: Turn)
    requires OrderlyTurn(cfg, s) && SteeredSinceCall(s.log) == 0 && |s.log| >= 2
    requires s.log[|s.log| - 1] == Polled(Steering, [])
    requires var ob := s.log[|s.log| - 2];
      ob.Closed? && !ob.refused && !Failed(ob.message) && ToolCalls(ob.message) == []
    ensures Orderly(cfg, LastPoll(cfg, s, t))
  {
    var again := PollFollowUp(cfg, Arrive(s, t.beforeFollowUp));
    assert again.log[|s.log| - 1] == s.log[|s.log| - 1] && again.log[|s.log| - 2] == s.log[|s.log| - 2];
    NotedOrderly(cfg, s.log, Polled(FollowUp, again.pending));
  }

  lemma AskOrderly(cfg: Config, s: Loop, reply: Reply)
    requires OrderlyTurn(cfg, s) && Callable(s)
    ensures OrderlyTurn(cfg, Ask(s, reply)) && SteeredSinceCall(Ask(s, reply).log) == 0
  {
    Pairing.CallableExactly(s);
    NotedOrderly(cfg, s.log, Called(s.messages, |s.events|));
  }

  /** The reply is the last message of the context, and the tool phase appends its results. */
  lemma AnswersAppended(messages: seq<Message>, t: Turn, outcome: Outcome)
    requires !Failed(t.reply.final) && Neutral(CallsOf(t), outcome)
    ensures AnsweredLast(Answered(messages, t.reply) + outcome.results, t.reply.final)
  {
    var context := Answered(messages, t.reply);
    assert context != [] && context[|context| - 1] == t.reply.final;
    assert (context + outcome.results)[|context|..] == outcome.results;
  }

  lemma CloseOrderly(cfg: Config, s: Loop, m: Message, results: seq<Message>)
    requires OrderlyTurn(cfg, s) && (!s.refused && !Failed(m) ==> AnsweredLast(s.messages, m))
    ensures OrderlyTurn(cfg, CloseTurn(s, m, results))
    ensures SteeredSinceCall(CloseTurn(s, m, results).log) == SteeredSinceCall(s.log)
  {
    NotedOrderly(cfg, s.log, Closed(m, s.refused, s.messages, |s.events|));
  }

  lemma AnswerTurnOrderly(cfg: Config, s: Loop, t: Turn, outcome: Outcome)
    requires OrderlyTurn(cfg, s) && Callable(s) && !s.refused && Neutral(CallsOf(t), outcome)
    ensures Orderly(cfg, AnswerTurn(cfg, s, t, outcome))
  {
    var asked := Ask(s, t.reply);
    AskOrderly(cfg, s, t.reply);
    if Failed(t.reply.final) {
      CloseOrderly(cfg, asked, t.reply.final, []);
    } else {
      AnswersAppended(s.messages, t, outcome);
      CloseOrderly(cfg, AddResults(asked, outcome), t.reply.final, outcome.results);
      NextOrderly(cfg, CloseTurn(AddResults(asked, outcome), t.reply.final, outcome.results), t);
    }
  }

  lemma TurnOrderly(cfg: Config, s: Loop, t: Turn)
    requires TurnOk(cfg, t) && Orderly(cfg, s) && (s.refused ==> s.ended)
    ensures Orderly(cfg, RunTurn(cfg, s, t)) && (RunTurn(cfg, s, t).refused ==> RunTurn(cfg, s, t).ended)
  {
    if !s.ended {
      OpenOrderly(cfg, s);
      var ready := OpenTurn(s);
      if Callable(ready) {
        ToolPhaseNeutral(cfg, t);
        AnswerTurnOrderly(cfg, ready, t, ToolPhase(cfg, t));
      } else {
        CloseOrderly(cfg, Refuse(ready), TranscriptError(), []);
      }
    }
  }

  /** The only run that starts with a steering message skips the first poll, and takes one at most in
      one-at-a-time mode. */
  predicate OpeningPolled(cfg: Config, o: Opening) {
    o.origin == Some(Steering) ==> o.skipPoll && (cfg.steeringMode == OneAtATime ==> |o.prompts| <= 1)
  }

  lemma BeginOrderly(cfg: Config, o: Opening)
    requires OpeningPolled(cfg, o)
    ensures Orderly(cfg, Begin(cfg, o))
  {
    var s := Entering(o);
    assert AllGrounded(s.log);
    SteeredStart(s.log);
    if o.skipPoll {
      NotedOrderly(cfg, s.log, Polled(Steering, []));
    } else {
      FirstPollOrderly(cfg, s);
    }
  }

  lemma FirstPollOrderly(cfg: Config, s: Loop)
    requires OrderlyTurn(cfg, s) && SteeredSinceCall(s.log) == 0
    requires |s.log| <= 1 && (s.log != [] ==> s.log[0].Injected?)
    ensures Orderly(cfg, PollSteering(cfg, s))
  {
    TakenLeft(cfg.steeringMode, s.steering);
    NotedOrderly(cfg, s.log, Polled(Steering, Taken(cfg.steeringMode, s.steering)));
  }

  lemma NothingSteered()
    ensures SteeredSinceCall([]) == 0 && AtMostOneSteered([])
  {
    var none: seq<Observation> := [];
    forall k | 0 <= k <= |none| ensures SteeredSinceCall(none[..k]) <= 1 {
      assert none[..k] == [];
    }
  }

  lemma {:induction false} SteeredStart(log: seq<Observation>)
    requires |log| <= 1 && (log != [] ==> log[0].Injected?)
    ensures SteeredSinceCall(log) == if log != [] && log[0].queue == Steering then |log[0].messages| else 0
    ensures SteeredSinceCall(log) <= 1 ==> AtMostOneSteered(log)
  {
    NothingSteered();
    if log != [] {
      SteeredSnoc([], log[0]);
      assert log == [] + [log[0]];
    }
  }

  /** Delivery rules. In every run: the steering queue is polled when the run opens, and then only right after the
      `turn_end` of a reply that did not fail, with all its calls answered; a follow-up is looked for only after a reply
      without tool calls and an empty steering poll; messages enter right after the poll that took them; the provider is
      only called with paired transcripts; and in one-at-a-time mode at most one steering message enters between provider
      calls. */
  lemma {:induction false} DeliveryRules(cfg: Config, o: Opening, turns: seq<Turn>)
    requires ScriptOk(cfg, turns) && OpeningPolled(cfg, o)
    ensures Orderly(cfg, RunTurns(cfg, Begin(cfg, o), turns))
    ensures RunTurns(cfg, Begin(cfg, o), turns).refused ==> RunTurns(cfg, Begin(cfg, o), turns).ended
  {
    if turns == [] {
      BeginOrderly(cfg, o);
    } else {
      var n := |turns| - 1;
      DeliveryRules(cfg, o, turns[..n]);
      TurnOrderly(cfg, RunTurns(cfg, Begin(cfg, o), turns[..n]), turns[n]);
    }
  }
}
