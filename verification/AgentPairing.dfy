// Tool calls and their results in the transcripts a run sends to the provider.

module Pairing {
  import opened Wrappers
  import opened Messages
  import opened Transcript
  import opened TranscriptProofs
  import opened Streaming
  import opened AgentLoop
  import opened StreamProofs
  import opened TurnProofs
  import opened Queues
  import AgentTools

  // ----- Pairing is checked block by block -----

  /** The call ids of a relevant transcript. */
  function UsedIn(messages: seq<Message>): set<string> {
    if messages == [] then {} else SetOf(Ids(ToolCalls(messages[0]))) + UsedIn(messages[1..])
  }

  lemma {:induction false} ResultsUseNothing(results: seq<Message>, rest: seq<Message>)
    requires AllResults(results)
    ensures UsedIn(results + rest) == UsedIn(rest)
  {
    if results == [] {
      assert results + rest == rest;
    } else {
      assert AllResults(results[1..]);
      ResultsUseNothing(results[1..], rest);
      assert (results + rest)[1..] == results[1..] + rest;
      assert SetOf([]) == {};
    }
  }

  lemma UsedBlock(m: Message, results: seq<Message>, rest: seq<Message>)
    requires AllResults(results)
    ensures UsedIn([m] + (results + rest)) == SetOf(Ids(ToolCalls(m))) + UsedIn(rest)
  {
    var tail := results + rest;
    ResultsUseNothing(results, rest);
    assert ([m] + tail)[1..] == tail;
  }

  lemma SplitBlock<M>(a: seq<M>, n: nat)
    requires 1 + n <= |a|
    ensures a == [a[0]] + (a[1..1 + n] + a[1 + n..])
  {
  }

  lemma UsedFirst(a: seq<Message>, n: nat, seen: set<string>)
    requires 1 + n <= |a| && AllResults(a[1..1 + n])
    ensures seen + UsedIn(a) == seen + SetOf(Ids(ToolCalls(a[0]))) + UsedIn(a[1 + n..])
  {
    var results, rest := a[1..1 + n], a[1 + n..];
    SplitBlock(a, n);
    UsedBlock(a[0], results, rest);
    assert seen + (SetOf(Ids(ToolCalls(a[0]))) + UsedIn(rest)) == seen + SetOf(Ids(ToolCalls(a[0]))) + UsedIn(rest);
  }

  /** The first block of a paired transcript is complete, so what follows is checked after it. */
  lemma {:induction false} FirstBlock(a: seq<Message>, b: seq<Message>, seen: set<string>, n: nat)
    requires a != [] && Paired(a, seen) && n == |Ids(ToolCalls(a[0]))|
    ensures 1 + n <= |a| && AllResults(a[1..1 + n]) && Paired(a[1 + n..], seen + SetOf(Ids(ToolCalls(a[0]))))
    ensures Paired(a + b, seen) <==> Paired(a[1 + n..] + b, seen + SetOf(Ids(ToolCalls(a[0]))))
  {
    FirstSlices(a, b, n);
  }

  lemma FirstSlices(a: seq<Message>, b: seq<Message>, n: nat)
    requires 1 + n <= |a|
    ensures (a + b)[0] == a[0] && (a + b)[1..1 + n] == a[1..1 + n] && (a + b)[1 + n..] == a[1 + n..] + b
  {
  }

  lemma {:induction false} PairedConcat(a: seq<Message>, b: seq<Message>, seen: set<string>)
    requires Paired(a, seen)
    ensures Paired(a + b, seen) <==> Paired(b, seen + UsedIn(a))
    decreases |a|
  {
    if a == [] {
      assert a + b == b && seen + UsedIn(a) == seen;
    } else {
      var ids := Ids(ToolCalls(a[0]));
      FirstBlock(a, b, seen, |ids|);
      UsedFirst(a, |ids|, seen);
      PairedConcat(a[1 + |ids|..], b, seen + SetOf(ids));
    }
  }

  predicate NoResults(messages: seq<Message>) {
    forall i :: 0 <= i < |messages| ==> !messages[i].ToolResult?
  }

  lemma CutBlock(a: seq<Message>, b: seq<Message>, n: nat)
    requires NoResults(b) && 0 < |a| < 1 + n <= |a + b|
    ensures !AllResults((a + b)[1..1 + n])
  {
    assert (a + b)[1..1 + n][|a| - 1] == b[0];
  }

  lemma {:induction false} PairedPrefix(a: seq<Message>, b: seq<Message>, seen: set<string>)
    requires NoResults(b) && Paired(a + b, seen)
    ensures Paired(a, seen)
    decreases |a|
  {
    if a != [] {
      var ids := Ids(ToolCalls(a[0]));
      var n := |ids|;
      if 1 + n <= |a| {
        WholeBlock(a, b, seen, n);
        PairedPrefix(a[1 + n..], b, seen + SetOf(ids));
        BlockBack(a, seen, n);
      } else {
        CutBlock(a, b, n);
      }
    }
  }

  /** The first block of a paired transcript, where it does not reach into what is appended. */
  lemma {:induction false} WholeBlock(a: seq<Message>, b: seq<Message>, seen: set<string>, n: nat)
    requires a != [] && n == |Ids(ToolCalls(a[0]))| && 1 + n <= |a| && Paired(a + b, seen)
    ensures FirstOk(a, seen, n) && Paired(a[1 + n..] + b, seen + SetOf(Ids(ToolCalls(a[0]))))
  {
    FirstSlices(a, b, n);
  }

  predicate FirstOk(a: seq<Message>, seen: set<string>, n: nat)
    requires a != [] && 1 + n <= |a|
  {
    var ids := Ids(ToolCalls(a[0]));
    !a[0].ToolResult? && FreshIds(ids, seen) && AllResults(a[1..1 + n]) && multiset(ResultIds(a[1..1 + n])) == multiset(ids)
  }

  lemma {:induction false} BlockBack(a: seq<Message>, seen: set<string>, n: nat)
    requires a != [] && n == |Ids(ToolCalls(a[0]))| && 1 + n <= |a| && FirstOk(a, seen, n)
    requires Paired(a[1 + n..], seen + SetOf(Ids(ToolCalls(a[0]))))
    ensures Paired(a, seen)
  {
  }

  lemma BlockPaired(reply: Message, results: seq<Message>, seen: set<string>)
    requires reply.Assistant? && AllResults(results) && |results| == |ToolCalls(reply)|
    requires multiset(ResultIds(results)) == multiset(Ids(ToolCalls(reply)))
    ensures Paired([reply] + results, seen) <==> FreshIds(Ids(ToolCalls(reply)), seen)
    ensures UsedIn([reply] + results) == SetOf(Ids(ToolCalls(reply)))
  {
    var block := [reply] + results;
    var n := |ToolCalls(reply)|;
    assert block[1..1 + n] == results && block[1 + n..] == [];
    ResultsUseNothing(results, []);
    assert results + [] == results == block[1..];
  }

  predicate OnlyUsers(messages: seq<Message>) {
    forall i :: 0 <= i < |messages| ==> messages[i].User?
  }

  lemma {:induction false} UsersPaired(messages: seq<Message>, seen: set<string>)
    requires OnlyUsers(messages)
    ensures Paired(messages, seen) && UsedIn(messages) == {}
    decreases |messages|
  {
    if messages != [] {
      assert ToolCalls(messages[0]) == [] && Ids([]) == [] && SetOf([]) == {};
      UsersPaired(messages[1..], seen);
      assert seen + SetOf([]) == seen && messages[1..1] == [];
      assert ResultIds([]) == [];
    }
  }

  // ----- What matters of a transcript -----

  lemma {:induction false} RelevantConcat(a: seq<Message>, b: seq<Message>)
    ensures Relevant(a + b) == Relevant(a) + Relevant(b)
  {
    if b == [] {
      assert a + b == a;
    } else {
      RelevantConcat(a, b[..|b| - 1]);
      assert (a + b)[..|a + b| - 1] == a + b[..|b| - 1];
    }
  }

  lemma RelevantOne(m: Message)
    ensures Relevant([m]) == if m.Custom? || Failed(m) then [] else [m]
  {
    assert [m][..0] == [];
  }

  lemma {:induction false} ConversionKeepsRelevant(messages: seq<Message>)
    ensures Relevant(ConvertToLlm(messages)) == Relevant(messages)
  {
    if messages != [] {
      var m := messages[0];
      ConversionKeepsRelevant(messages[1..]);
      assert messages == [m] + messages[1..];
      RelevantConcat([m], messages[1..]);
      RelevantOne(m);
      RelevantConcat([m], ConvertToLlm(messages[1..]));
    }
  }

  lemma {:induction false} AllRelevantKept(messages: seq<Message>)
    requires AllRelevant(messages)
    ensures Relevant(messages) == messages
  {
    if messages != [] {
      var n := |messages| - 1;
      AllRelevantKept(messages[..n]);
      assert messages == messages[..n] + [messages[n]];
      assert Relevant(messages) == Relevant(messages[..n]) + [messages[n]];
    }
  }

  /** Messages a user queues: they hold no calls and no results. */
  predicate Plain(messages: seq<Message>) {
    forall i :: 0 <= i < |messages| ==> messages[i].User? || messages[i].Custom?
  }

  lemma {:induction false} PlainRelevant(messages: seq<Message>)
    requires Plain(messages)
    ensures OnlyUsers(Relevant(messages))
  {
    if messages != [] {
      PlainRelevant(messages[..|messages| - 1]);
    }
  }

  predicate Sound(messages: seq<Message>) {
    Paired(Relevant(messages), {})
  }

  function Known(messages: seq<Message>): set<string> {
    UsedIn(Relevant(messages))
  }

  lemma CallableExactly(s: Loop)
    ensures Callable(s) <==> Sound(s.messages)
  {
    ConversionKeepsRelevant(s.messages);
    ValidExactlyPaired(ConvertToLlm(s.messages));
  }

  lemma {:induction false} UsedConcat(a: seq<Message>, b: seq<Message>)
    ensures UsedIn(a + b) == UsedIn(a) + UsedIn(b)
  {
    if a == [] {
      assert a + b == b;
    } else {
      UsedConcat(a[1..], b);
      assert (a + b)[1..] == a[1..] + b;
    }
  }

  lemma PlainAdded(context: seq<Message>, more: seq<Message>)
    requires Plain(more)
    ensures Sound(context + more) <==> Sound(context)
    ensures Known(context + more) == Known(context)
  {
    RelevantConcat(context, more);
    PlainRelevant(more);
    UsedConcat(Relevant(context), Relevant(more));
    UsersPaired(Relevant(more), Known(context));
    if Sound(context) {
      PairedConcat(Relevant(context), Relevant(more), {});
      assert {} + Known(context) == Known(context);
    }
    if Sound(context + more) {
      PairedPrefix(Relevant(context), Relevant(more), {});
    }
  }

  /** A turn keeps the transcript paired exactly when the reply's call ids are fresh: none blank, no two equal, none
      used before. */
  lemma TurnAdded(context: seq<Message>, reply: Message, results: seq<Message>)
    requires Sound(context) && reply.Assistant? && !Failed(reply)
    requires AllResults(results) && |results| == |ToolCalls(reply)|
    requires multiset(ResultIds(results)) == multiset(Ids(ToolCalls(reply)))
    ensures Sound(context + [reply] + results) <==> FreshIds(Ids(ToolCalls(reply)), Known(context))
    ensures Known(context + [reply] + results) == Known(context) + SetOf(Ids(ToolCalls(reply)))
  {
    var block := [reply] + results;
    assert context + [reply] + results == context + block;
    AllRelevantKept(block);
    RelevantConcat(context, block);
    PairedConcat(Relevant(context), block, {});
    assert {} + Known(context) == Known(context);
    BlockPaired(reply, results, Known(context));
    UsedConcat(Relevant(context), block);
  }

  /** A failed reply does not count. */
  lemma FailedAdded(context: seq<Message>, reply: Message)
    requires Failed(reply)
    ensures Sound(context + [reply]) <==> Sound(context)
  {
    RelevantConcat(context, [reply]);
    RelevantOne(reply);
    assert Relevant(context) + [] == Relevant(context);
  }

  // ----- Whole runs -----

  /** The ids of the calls a script's replies make; a failed reply makes none. */
  function CallIds(turns: seq<Turn>): set<string> {
    if turns == [] then {} else CallIds(turns[..|turns| - 1]) + SetOf(Ids(CallsOf(turns[|turns| - 1])))
  }

  predicate FreshScript(known: set<string>, turns: seq<Turn>) {
    if turns == [] then true
    else
      var n := |turns| - 1;
      FreshScript(known, turns[..n]) && FreshIds(Ids(CallsOf(turns[n])), known + CallIds(turns[..n]))
  }

  predicate PlainArrivals(turns: seq<Turn>) {
    forall i :: 0 <= i < |turns| ==>
      && Plain(turns[i].beforeSteering.steering) && Plain(turns[i].beforeSteering.followUp)
      && Plain(turns[i].beforeFollowUp.steering) && Plain(turns[i].beforeFollowUp.followUp)
  }

  predicate PlainQueues(s: Loop) {
    Plain(s.steering) && Plain(s.followUp) && Plain(s.pending)
  }

  predicate PlainOpening(o: Opening) {
    Plain(o.prompts) && Plain(o.steering) && Plain(o.followUp)
  }

  /** The transcript of a run that goes on is paired exactly when all its replies used fresh ids. */
  ghost predicate Tracked(known: set<string>, turns: seq<Turn>, s: Loop) {
    && PlainQueues(s)
    && (!s.ended ==> !s.refused && (Sound(s.messages) <==> FreshScript(known, turns)))
    && (!s.ended && FreshScript(known, turns) ==> Known(s.messages) == known + CallIds(turns))
    && (FreshScript(known, turns) ==> !s.refused)
    && (s.ended ==> (Sound(s.messages) <==> !s.refused))
  }

  lemma PlainQueue(mode: QueueMode, queue: seq<Message>, more: seq<Message>)
    requires Plain(queue) && Plain(more)
    ensures Plain(Taken(mode, queue + more)) && Plain(Left(mode, queue + more))
  {
  }

  lemma SteeringPlain(cfg: Config, s: Loop, a: Arrivals)
    requires Plain(s.steering) && Plain(s.followUp) && Plain(a.steering) && Plain(a.followUp)
    ensures PlainQueues(PollSteering(cfg, Arrive(s, a)))
  {
    PlainQueue(cfg.steeringMode, s.steering, a.steering);
  }

  lemma FollowUpPlain(cfg: Config, s: Loop, a: Arrivals)
    requires Plain(s.steering) && Plain(s.followUp) && Plain(a.steering) && Plain(a.followUp)
    ensures PlainQueues(PollFollowUp(cfg, Arrive(s, a)))
  {
    PlainQueue(cfg.followUpMode, s.followUp, a.followUp);
  }

  lemma NextPlain(cfg: Config, s: Loop, t: Turn)
    requires PlainQueues(s) && PlainArrivals([t])
    ensures PlainQueues(NextMessages(cfg, s, t))
    ensures NextMessages(cfg, s, t).messages == s.messages && NextMessages(cfg, s, t).refused == s.refused
  {
    assert [t][0] == t;
    SteeringPlain(cfg, s, t.beforeSteering);
    FollowUpPlain(cfg, PollSteering(cfg, Arrive(s, t.beforeSteering)), t.beforeFollowUp);
  }

  /** A reply that does not fail leaves the context with the reply and its results, and nothing else. */
  lemma AnswerTurnContext(cfg: Config, s: Loop, t: Turn, outcome: Outcome)
    requires PlainQueues(s) && PlainArrivals([t]) && OneStart(t.reply) && !s.refused && !s.ended
    ensures var s' := AnswerTurn(cfg, s, t, outcome);
      && PlainQueues(s') && !s'.refused
      && (Failed(t.reply.final) ==> s'.ended && s'.messages == s.messages + [t.reply.final])
      && (!Failed(t.reply.final) ==> s'.messages == s.messages + [t.reply.final] + outcome.results)
      && (!Failed(t.reply.final) && s'.ended ==> ToolCalls(t.reply.final) == [])
  {
    AnswerExact(s.messages, t.reply);
    if !Failed(t.reply.final) {
      NextPlain(cfg, CloseTurn(AddResults(Ask(s, t.reply), outcome), t.reply.final, outcome.results), t);
    }
  }

  lemma FreshSnoc(known: set<string>, turns: seq<Turn>, t: Turn)
    ensures CallIds(turns + [t]) == CallIds(turns) + SetOf(Ids(CallsOf(t)))
    ensures FreshScript(known, turns + [t])
      <==> FreshScript(known, turns) && FreshIds(Ids(CallsOf(t)), known + CallIds(turns))
  {
    assert (turns + [t])[..|turns|] == turns;
  }

  lemma AnsweredTracked(cfg: Config, known: set<string>, turns: seq<Turn>, s: Loop, t: Turn, outcome: Outcome)
    requires PlainQueues(s) && !s.refused && !s.ended && Sound(s.messages)
    requires FreshScript(known, turns) && Known(s.messages) == known + CallIds(turns)
    requires OneStart(t.reply) && PlainArrivals([t]) && Neutral(CallsOf(t), outcome)
    ensures Tracked(known, turns + [t], AnswerTurn(cfg, s, t, outcome)) && !AnswerTurn(cfg, s, t, outcome).refused
  {
    hide Sound, Known, FreshScript, CallIds, AnswerTurn;
    AnswerTurnContext(cfg, s, t, outcome);
    FreshSnoc(known, turns, t);
    if Failed(t.reply.final) {
      FailedAdded(s.messages, t.reply.final);
    } else {
      TurnAdded(s.messages, t.reply.final, outcome.results);
      assert known + CallIds(turns + [t]) == known + CallIds(turns) + SetOf(Ids(CallsOf(t)));
    }
  }

  lemma TurnTracked(cfg: Config, known: set<string>, turns: seq<Turn>, s: Loop, t: Turn)
    requires TurnOk(cfg, t) && OneStart(t.reply) && PlainArrivals([t]) && Tracked(known, turns, s) && !s.ended
    ensures Tracked(known, turns + [t], RunTurn(cfg, s, t))
    ensures RunTurn(cfg, s, t).refused <==> !FreshScript(known, turns)
  {
    var ready := OpenTurn(s);
    PlainAdded(s.messages, s.pending);
    CallableExactly(ready);
    if Callable(ready) {
      ToolPhaseNeutral(cfg, t);
      AnsweredTracked(cfg, known, turns, ready, t, ToolPhase(cfg, t));
    } else {
      FreshSnoc(known, turns, t);
    }
  }

  lemma BeginTracked(cfg: Config, o: Opening)
    requires PlainOpening(o) && Sound(o.context)
    ensures Tracked(Known(o.context), [], Begin(cfg, o))
  {
    PlainAdded(o.context, o.prompts);
    PlainQueue(cfg.steeringMode, o.steering, []);
    assert o.steering + [] == o.steering;
    assert Known(o.context) + CallIds([]) == Known(o.context);
  }

  lemma StepTracked(cfg: Config, known: set<string>, turns: seq<Turn>, s: Loop, t: Turn)
    requires TurnOk(cfg, t) && OneStart(t.reply) && PlainArrivals([t]) && Tracked(known, turns, s)
    ensures Tracked(known, turns + [t], RunTurn(cfg, s, t))
  {
    if s.ended {
      assert (turns + [t])[..|turns|] == turns;
    } else {
      TurnTracked(cfg, known, turns, s, t);
    }
  }

  lemma {:induction false} LastTurn(cfg: Config, turns: seq<Turn>)
    requires ScriptOk(cfg, turns) && PlainArrivals(turns) && turns != []
    ensures var n := |turns| - 1;
      && ScriptOk(cfg, turns[..n]) && PlainArrivals(turns[..n])
      && TurnOk(cfg, turns[n]) && OneStart(turns[n].reply) && PlainArrivals([turns[n]])
      && turns == turns[..n] + [turns[n]]
  {
    var n := |turns| - 1;
    assert TurnOk(cfg, turns[n]) && OneStart(turns[n].reply);
    forall i | 0 <= i < n ensures turns[..n][i] == turns[i] {}
  }

  lemma {:induction false} RunTrackedFrom(cfg: Config, known: set<string>, start: Loop, turns: seq<Turn>)
    requires ScriptOk(cfg, turns) && PlainArrivals(turns) && Tracked(known, [], start)
    ensures Tracked(known, turns, RunTurns(cfg, start, turns))
  {
    if turns != [] {
      var n := |turns| - 1;
      LastTurn(cfg, turns);
      RunTrackedFrom(cfg, known, start, turns[..n]);
      StepTracked(cfg, known, turns[..n], RunTurns(cfg, start, turns[..n]), turns[n]);
    }
  }

  lemma RunTracked(cfg: Config, o: Opening, turns: seq<Turn>)
    requires ScriptOk(cfg, turns) && PlainArrivals(turns) && PlainOpening(o) && Sound(o.context)
    ensures Tracked(Known(o.context), turns, RunTurns(cfg, Begin(cfg, o), turns))
  {
    BeginTracked(cfg, o);
    RunTrackedFrom(cfg, Known(o.context), Begin(cfg, o), turns);
  }

  /** Transcript pairing. On a paired conversation, with plain prompts and queue messages, a run is never refused while
      its replies use fresh call ids; and its next provider call is refused exactly when one did not. Both modes. */
  lemma RefusedExactly(cfg: Config, o: Opening, turns: seq<Turn>, next: Turn)
    requires ScriptOk(cfg, turns + [next]) && PlainArrivals(turns + [next]) && PlainOpening(o)
    requires Transcript.Valid(ConvertToLlm(o.context))
    requires ScriptOk(cfg, turns) && !RunTurns(cfg, Begin(cfg, o), turns).ended
    ensures RunTurns(cfg, Begin(cfg, o), turns + [next]).refused <==> !FreshScript(Known(o.context), turns)
  {
    ConversionKeepsRelevant(o.context);
    ValidExactlyPaired(ConvertToLlm(o.context));
    assert (turns + [next])[..|turns|] == turns;
    assert (turns + [next])[|turns|] == next;
    assert forall i :: 0 <= i < |turns| ==> (turns + [next])[i] == turns[i];
    RunTracked(cfg, o, turns);
    TurnTracked(cfg, Known(o.context), turns, RunTurns(cfg, Begin(cfg, o), turns), next);
  }

  lemma NeverRefused(cfg: Config, o: Opening, turns: seq<Turn>)
    requires ScriptOk(cfg, turns) && PlainArrivals(turns) && PlainOpening(o)
    requires Transcript.Valid(ConvertToLlm(o.context)) && FreshScript(Known(o.context), turns)
    ensures !RunTurns(cfg, Begin(cfg, o), turns).refused
  {
    ConversionKeepsRelevant(o.context);
    ValidExactlyPaired(ConvertToLlm(o.context));
    RunTracked(cfg, o, turns);
  }

  /** The first turn of a run on an unpaired conversation is refused. */
  lemma {:induction false} BrokenTurn(cfg: Config, o: Opening, t: Turn)
    requires TurnOk(cfg, t) && PlainOpening(o) && !Sound(o.context)
    ensures var s := RunTurn(cfg, Begin(cfg, o), t); s.refused && s.ended && !Sound(s.messages)
  {
    var s := Begin(cfg, o);
    assert o.steering + [] == o.steering;
    PlainQueue(cfg.steeringMode, o.steering, []);
    PlainAdded(o.context, o.prompts);
    PlainAdded(o.context + o.prompts, s.pending);
    CallableExactly(OpenTurn(s));
  }

  lemma {:induction false} StaysEnded(cfg: Config, start: Loop, turns: seq<Turn>)
    requires (forall i :: 0 <= i < |turns| ==> TurnOk(cfg, turns[i])) && turns != []
    requires RunTurn(cfg, start, turns[0]).ended
    ensures RunTurns(cfg, start, turns) == RunTurn(cfg, start, turns[0])
  {
    var n := |turns| - 1;
    if n == 0 {
      assert turns[..0] == [];
    } else {
      StaysEnded(cfg, start, turns[..n]);
    }
  }

  /** A conversation that is not paired stays so: the next run is refused before the provider is called. */
  lemma {:induction false} BrokenRun(cfg: Config, o: Opening, turns: seq<Turn>)
    requires (forall i :: 0 <= i < |turns| ==> TurnOk(cfg, turns[i])) && PlainOpening(o) && !Sound(o.context) && turns != []
    ensures var s := RunTurns(cfg, Begin(cfg, o), turns); s.refused && s.ended && !Sound(s.messages)
  {
    BrokenTurn(cfg, o, turns[0]);
    StaysEnded(cfg, Begin(cfg, o), turns);
  }
}
