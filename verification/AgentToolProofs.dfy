// Results and events of one reply's tool calls, in both execution modes and under every schedule.

module AgentToolProofs {
  import opened Wrappers
  import opened Sequences
  import opened Messages
  import opened AgentEvents
  import opened AgentTools
  import T = Transcript
  import Sched = SchedulerCalls
  import WavePool
  import SchedulerRun

  const INSIDE := Shape(InTurn, false, multiset{})

  // ----- Order of results -----

  function IdsAt(calls: seq<ToolCall>, ps: seq<nat>): (ids: seq<string>)
    requires forall k :: 0 <= k < |ps| ==> ps[k] < |calls|
    ensures |ids| == |ps|
  {
    seq(|ps|, k requires 0 <= k < |ps| => calls[ps[k]].id)
  }

  lemma {:induction false} PositionsBelow(calls: seq<ToolCall>, envs: seq<ToolEnv>, refused: bool, k: nat)
    requires |envs| == |calls| && k < |Positions(calls, envs, refused)|
    ensures forall j :: 0 <= j < k ==> Positions(calls, envs, refused)[j] < Positions(calls, envs, refused)[k]
  {
    var n := |calls| - 1;
    var before := Positions(calls[..n], envs[..n], refused);
    if k < |before| {
      PositionsBelow(calls[..n], envs[..n], refused, k);
    }
  }

  predicate Increasing(ps: seq<nat>) {
    forall j, k :: 0 <= j < k < |ps| ==> ps[j] < ps[k]
  }

  /** Both lists are strictly increasing, so each keeps source order. */
  lemma {:induction false} PositionsIncrease(calls: seq<ToolCall>, envs: seq<ToolEnv>, refused: bool)
    requires |envs| == |calls|
    ensures Increasing(Positions(calls, envs, refused))
  {
    var ps := Positions(calls, envs, refused);
    forall j, k | 0 <= j < k < |ps| ensures ps[j] < ps[k] {
      PositionsBelow(calls, envs, refused, k);
    }
  }

  lemma {:induction false} PositionsSnoc(calls: seq<ToolCall>, envs: seq<ToolEnv>, refused: bool)
    requires |envs| == |calls| && calls != []
    ensures var n := |calls| - 1;
      Positions(calls, envs, refused) == Positions(calls[..n], envs[..n], refused)
        + if Prepare(calls[n], envs[n]).Immediate? == refused then [n] else []
  {
  }

  lemma {:induction false} IdsAtSnoc(calls: seq<ToolCall>, ps: seq<nat>)
    requires calls != [] && forall k :: 0 <= k < |ps| ==> ps[k] < |calls| - 1
    ensures var n := |calls| - 1;
      && IdsAt(calls, ps) == IdsAt(calls[..n], ps)
      && IdsAt(calls, ps + [n]) == IdsAt(calls[..n], ps) + [calls[n].id]
  {
  }

  function Listed(calls: seq<ToolCall>, envs: seq<ToolEnv>, refused: bool): seq<string>
    requires |envs| == |calls|
  {
    IdsAt(calls, Positions(calls, envs, refused))
  }

  lemma {:induction false} ListedSnoc(calls: seq<ToolCall>, envs: seq<ToolEnv>, refused: bool)
    requires |envs| == |calls| && calls != []
    ensures var n := |calls| - 1;
      Listed(calls, envs, refused) == Listed(calls[..n], envs[..n], refused)
        + if Prepare(calls[n], envs[n]).Immediate? == refused then [calls[n].id] else []
  {
    var n := |calls| - 1;
    PositionsSnoc(calls, envs, refused);
    IdsAtSnoc(calls, Positions(calls[..n], envs[..n], refused));
  }

  /** Two lists that share out a third. */
  ghost predicate Together(a: seq<string>, b: seq<string>, ids: seq<string>) {
    |a| + |b| == |ids| && forall id :: multiset(a)[id] + multiset(b)[id] == multiset(ids)[id]
  }

  lemma TogetherConcat(a: seq<string>, b: seq<string>, ids: seq<string>)
    requires Together(a, b, ids)
    ensures multiset(a + b) == multiset(ids)
  {
  }

  lemma OneMore(a: seq<string>, b: seq<string>, ids: seq<string>, id: string, refused: bool, a': seq<string>, b': seq<string>)
    requires Together(a, b, ids)
    requires a' == (if refused then a + [id] else a) && b' == if refused then b else b + [id]
    ensures Together(a', b', ids + [id])
  {
  }

  /** Refused and runnable calls together are all the calls. */
  lemma {:induction false} PositionsCover(calls: seq<ToolCall>, envs: seq<ToolEnv>)
    requires |envs| == |calls|
    ensures Together(Listed(calls, envs, true), Listed(calls, envs, false), T.Ids(calls))
  {
    if calls != [] {
      var n := |calls| - 1;
      PositionsCover(calls[..n], envs[..n]);
      ListedSnoc(calls, envs, true);
      ListedSnoc(calls, envs, false);
      IdsSnoc(calls);
      OneMore(Listed(calls[..n], envs[..n], true), Listed(calls[..n], envs[..n], false), T.Ids(calls[..n]), calls[n].id,
              Prepare(calls[n], envs[n]).Immediate?, Listed(calls, envs, true), Listed(calls, envs, false));
    }
  }

  lemma IdsSnoc(calls: seq<ToolCall>)
    requires calls != []
    ensures T.Ids(calls) == T.Ids(calls[..|calls| - 1]) + [calls[|calls| - 1].id]
  {
  }

  lemma ParallelIndices(calls: seq<ToolCall>, turn: ToolTurn)
    requires ParallelOk(calls, turn)
    ensures IndicesOk(SchedulerRun.Output(turn.finished), |Positions(calls, turn.envs, false)|)
    ensures |SchedulerRun.Output(turn.finished)| == |Positions(calls, turn.envs, false)|
  {
    var out := SchedulerRun.Output(turn.finished);
    ScheduledInOrder(calls, turn, 0);
    forall k | 0 <= k < |out| ensures out[k].index == k {
      ScheduledInOrder(calls, turn, k);
    }
  }

  /** Parallel mode is a stable partition: first the refused calls, then the scheduled ones, each in source order,
      each call answered once. */
  lemma {:induction false} ParallelResultOrder(calls: seq<ToolCall>, turn: ToolTurn)
    requires ParallelOk(calls, turn)
    ensures IndicesOk(SchedulerRun.Output(turn.finished), |Positions(calls, turn.envs, false)|)
    ensures var results := ParallelResults(calls, turn);
      && T.AllResults(results)
      && T.ResultIds(results) == Listed(calls, turn.envs, true) + Listed(calls, turn.envs, false)
      && multiset(T.ResultIds(results)) == multiset(T.Ids(calls))
      && |results| == |calls|
  {
    ParallelIndices(calls, turn);
    PositionsCover(calls, turn.envs);
    TogetherConcat(Listed(calls, turn.envs, true), Listed(calls, turn.envs, false), T.Ids(calls));
    ScheduledIds(calls, turn);
    ImmediateIds(calls, turn.envs);
    hide ImmediateResults, ScheduledResults, Listed, IndicesOk, ParallelOk;
    ResultIdsConcat(ImmediateResults(calls, turn.envs), ScheduledResults(calls, turn.envs, SchedulerRun.Output(turn.finished)));
  }

  lemma ImmediateIds(calls: seq<ToolCall>, envs: seq<ToolEnv>)
    requires |envs| == |calls|
    ensures T.ResultIds(ImmediateResults(calls, envs)) == Listed(calls, envs, true) && T.AllResults(ImmediateResults(calls, envs))
  {
  }

  lemma {:induction false} ScheduledIds(calls: seq<ToolCall>, turn: ToolTurn)
    requires ParallelOk(calls, turn)
    requires IndicesOk(SchedulerRun.Output(turn.finished), |Positions(calls, turn.envs, false)|)
    ensures var scheduled := ScheduledResults(calls, turn.envs, SchedulerRun.Output(turn.finished));
      T.ResultIds(scheduled) == Listed(calls, turn.envs, false) && T.AllResults(scheduled)
  {
    var out := SchedulerRun.Output(turn.finished);
    var scheduled := ScheduledResults(calls, turn.envs, out);
    ParallelIndices(calls, turn);
    forall k | 0 <= k < |out| ensures T.ResultIds(scheduled)[k] == Listed(calls, turn.envs, false)[k] {
      ScheduledInOrder(calls, turn, k);
    }
  }

  lemma ResultIdsConcat(a: seq<Message>, b: seq<Message>)
    ensures T.ResultIds(a + b) == T.ResultIds(a) + T.ResultIds(b)
    ensures T.AllResults(a) && T.AllResults(b) ==> T.AllResults(a + b)
  {
  }

  /** A refused call follows a runnable one. */
  predicate RefusedAfterRunnable(calls: seq<ToolCall>, envs: seq<ToolEnv>)
    requires |envs| == |calls|
  {
    exists i, j :: 0 <= i < j < |calls| && Prepare(calls[i], envs[i]).Prepared? && Prepare(calls[j], envs[j]).Immediate?
  }

  lemma {:induction false} PositionListed(calls: seq<ToolCall>, envs: seq<ToolEnv>, p: nat) returns (k: nat)
    requires |envs| == |calls| && p < |calls|
    ensures var ps := Positions(calls, envs, Prepare(calls[p], envs[p]).Immediate?); k < |ps| && ps[k] == p
  {
    var n := |calls| - 1;
    if p == n {
      k := |Positions(calls[..n], envs[..n], Prepare(calls[p], envs[p]).Immediate?)|;
    } else {
      k := PositionListed(calls[..n], envs[..n], p);
    }
  }

  lemma {:induction false} IncreasingIsIdentity(ps: seq<nat>, n: nat)
    requires |ps| == n && (forall k :: 0 <= k < n ==> ps[k] < n) && (forall j, k :: 0 <= j < k < n ==> ps[j] < ps[k])
    ensures forall k :: 0 <= k < n ==> ps[k] == k
  {
    if n > 0 {
      var qs := ps[..n - 1];
      assert forall k :: 0 <= k < n - 1 ==> qs[k] == ps[k] && ps[k] < ps[n - 1];
      IncreasingIsIdentity(qs, n - 1);
      assert n > 1 ==> ps[n - 2] == qs[n - 2] == n - 2;
    }
  }

  /** The positions of the answers: refused calls, then scheduled ones. */
  function AnswerPositions(calls: seq<ToolCall>, envs: seq<ToolEnv>): (ps: seq<nat>)
    requires |envs| == |calls|
    ensures forall k :: 0 <= k < |ps| ==> ps[k] < |calls|
  {
    Positions(calls, envs, true) + Positions(calls, envs, false)
  }

  predicate Descends(ps: seq<nat>) {
    exists x, y :: 0 <= x < y < |ps| && ps[x] > ps[y]
  }

  lemma AnswersOutOfOrder(calls: seq<ToolCall>, envs: seq<ToolEnv>)
    requires |envs| == |calls| && RefusedAfterRunnable(calls, envs)
    ensures Descends(AnswerPositions(calls, envs))
  {
    var i, j :| 0 <= i < j < |calls| && Prepare(calls[i], envs[i]).Prepared? && Prepare(calls[j], envs[j]).Immediate?;
    var x := PositionListed(calls, envs, j);
    var y := PositionListed(calls, envs, i);
    DescendsAt(Positions(calls, envs, true), Positions(calls, envs, false), x, y);
  }

  lemma DescendsAt(a: seq<nat>, b: seq<nat>, x: nat, y: nat)
    requires x < |a| && y < |b| && a[x] > b[y]
    ensures Descends(a + b)
  {
    assert (a + b)[x] == a[x] && (a + b)[|a| + y] == b[y];
  }

  lemma RefusedFirst(calls: seq<ToolCall>, envs: seq<ToolEnv>, p: nat, q: nat)
    requires |envs| == |calls| && !RefusedAfterRunnable(calls, envs) && p < |calls| && q < |calls|
    requires Prepare(calls[p], envs[p]).Immediate? && Prepare(calls[q], envs[q]).Prepared?
    ensures p < q
  {
  }

  lemma {:induction false} AnswersInOrder(calls: seq<ToolCall>, envs: seq<ToolEnv>)
    requires |envs| == |calls| && !RefusedAfterRunnable(calls, envs)
    ensures var ps := AnswerPositions(calls, envs); |ps| == |calls| && forall k :: 0 <= k < |ps| ==> ps[k] == k
  {
    var a, b := Positions(calls, envs, true), Positions(calls, envs, false);
    var ps := a + b;
    PositionsCover(calls, envs);
    PositionsIncrease(calls, envs, true);
    PositionsIncrease(calls, envs, false);
    forall j, k | 0 <= j < k < |ps| ensures ps[j] < ps[k] {
      if k < |a| {
        assert a[j] < a[k];
      } else if j < |a| {
        RefusedFirst(calls, envs, a[j], b[k - |a|]);
      } else {
        assert b[j - |a|] < b[k - |a|];
      }
    }
    IncreasingIsIdentity(ps, |calls|);
  }

  lemma SameIdsSamePositions(calls: seq<ToolCall>, ps: seq<nat>, k: nat)
    requires forall i, j :: 0 <= i < j < |calls| ==> calls[i].id != calls[j].id
    requires (forall x :: 0 <= x < |ps| ==> ps[x] < |calls|) && IdsAt(calls, ps) == T.Ids(calls) && k < |ps|
    ensures ps[k] == k
  {
    assert IdsAt(calls, ps)[k] == T.Ids(calls)[k];
    assert |IdsAt(calls, ps)| == |T.Ids(calls)|;
  }

  /** Parallel results stand in source order exactly when no refused call follows a runnable one. */
  lemma SourceOrderExactly(calls: seq<ToolCall>, turn: ToolTurn)
    requires ParallelOk(calls, turn)
    requires forall i, j :: 0 <= i < j < |calls| ==> calls[i].id != calls[j].id
    ensures IndicesOk(SchedulerRun.Output(turn.finished), |Positions(calls, turn.envs, false)|)
    ensures T.ResultIds(ParallelResults(calls, turn)) == T.Ids(calls) <==> !RefusedAfterRunnable(calls, turn.envs)
  {
    ParallelResultOrder(calls, turn);
    hide ParallelResults, Listed, IndicesOk, AnswerPositions, IdsAt;
    AnswerIds(calls, turn.envs);
    OrderOfIds(calls, turn.envs);
  }

  lemma AnswerIds(calls: seq<ToolCall>, envs: seq<ToolEnv>)
    requires |envs| == |calls|
    ensures IdsAt(calls, AnswerPositions(calls, envs)) == Listed(calls, envs, true) + Listed(calls, envs, false)
  {
  }

  lemma OrderOfIds(calls: seq<ToolCall>, envs: seq<ToolEnv>)
    requires |envs| == |calls| && forall i, j :: 0 <= i < j < |calls| ==> calls[i].id != calls[j].id
    ensures IdsAt(calls, AnswerPositions(calls, envs)) == T.Ids(calls) <==> !RefusedAfterRunnable(calls, envs)
  {
    var ps := AnswerPositions(calls, envs);
    if RefusedAfterRunnable(calls, envs) {
      AnswersOutOfOrder(calls, envs);
      var x, y :| 0 <= x < y < |ps| && ps[x] > ps[y];
      if IdsAt(calls, ps) == T.Ids(calls) {
        SameIdsSamePositions(calls, ps, x);
        SameIdsSamePositions(calls, ps, y);
      }
    } else {
      AnswersInOrder(calls, envs);
      assert IdsAt(calls, ps) == T.Ids(calls);
    }
  }

  /** Sequential mode always answers in source order. */
  lemma SequentialResultOrder(calls: seq<ToolCall>, envs: seq<ToolEnv>)
    requires |envs| == |calls|
    ensures T.ResultIds(SequentialResults(calls, envs)) == T.Ids(calls)
    ensures T.AllResults(SequentialResults(calls, envs)) && |SequentialResults(calls, envs)| == |calls|
  {
  }

  // ----- Shape of the events -----

  function Open(tools: multiset<string>): Shape {
    Shape(InTurn, false, tools)
  }

  lemma OutcomeShape(call: ToolCall, output: Option<string>, isError: bool, tools: multiset<string>)
    ensures FollowAll(Open(tools + multiset{call.id}), OutcomeEvents(call, output, isError)) == Open(tools)
    ensures Ended(OutcomeEvents(call, output, isError)) == [ResultMessage(call, output, isError)]
  {
    var m := ResultMessage(call, output, isError);
    var one, two, three := ToolEnd(call.id, call.name, output, isError), MessageStart(m), MessageEnd(m);
    var before := Open(tools + multiset{call.id});
    assert tools + multiset{call.id} - multiset{call.id} == tools;
    OneEvent(before, one);
    OneEvent(Open(tools), two);
    OneEvent(Open(tools).(open := true), three);
    Then(before, [one], [two], Open(tools), Open(tools).(open := true));
    Then(before, [one] + [two], [three], Open(tools).(open := true), Open(tools));
    assert OutcomeEvents(call, output, isError) == [one] + [two] + [three];
  }

  lemma StartShape(call: ToolCall, tools: multiset<string>)
    ensures FollowAll(Open(tools), [StartEvent(call)]) == Open(tools + multiset{call.id})
    ensures Ended([StartEvent(call)]) == []
  {
    OneEvent(Open(tools), StartEvent(call));
  }

  lemma {:induction false} UpdatesShape(events: seq<Event>, tools: multiset<string>)
    requires forall k :: 0 <= k < |events| ==> events[k].ToolUpdate? && events[k].id in tools
    ensures FollowAll(Open(tools), events) == Open(tools)
    ensures Ended(events) == []
  {
    if events != [] {
      UpdatesShape(events[..|events| - 1], tools);
    }
  }

  lemma CallShape(call: ToolCall, env: ToolEnv)
    ensures FollowAll(INSIDE, SequentialCallEvents(call, env)) == INSIDE
    ensures Ended(SequentialCallEvents(call, env))
         == [ResultMessage(call, SequentialOutcome(call, env).0, SequentialOutcome(call, env).1)]
  {
    var (output, isError) := SequentialOutcome(call, env);
    var one := multiset{} + multiset{call.id};
    var updates := if Prepare(call, env).Prepared? then UpdateEvents(call, env.partials) else [];
    StartShape(call, multiset{});
    UpdatesShape(updates, one);
    OutcomeShape(call, output, isError, multiset{});
    Then(INSIDE, [StartEvent(call)], updates, Open(one), Open(one));
    Then(INSIDE, [StartEvent(call)] + updates, OutcomeEvents(call, output, isError), Open(one), INSIDE);
  }

  lemma {:induction false} SequentialShape(calls: seq<ToolCall>, envs: seq<ToolEnv>)
    requires |envs| == |calls|
    ensures FollowAll(INSIDE, SequentialEvents(calls, envs)) == INSIDE
    ensures Ended(SequentialEvents(calls, envs)) == SequentialResults(calls, envs)
  {
    if calls != [] {
      var n := |calls| - 1;
      SequentialShape(calls[..n], envs[..n]);
      CallShape(calls[n], envs[n]);
      Then(INSIDE, SequentialEvents(calls[..n], envs[..n]), SequentialCallEvents(calls[n], envs[n]), INSIDE, INSIDE);
      SequentialSnoc(calls, envs);
    }
  }

  lemma {:induction false} SequentialSnoc(calls: seq<ToolCall>, envs: seq<ToolEnv>)
    requires |envs| == |calls| && calls != []
    ensures var n := |calls| - 1;
      SequentialResults(calls, envs) == SequentialResults(calls[..n], envs[..n])
        + [ResultMessage(calls[n], SequentialOutcome(calls[n], envs[n]).0, SequentialOutcome(calls[n], envs[n]).1)]
  {
  }

  lemma {:induction false} ImmediateSnoc(calls: seq<ToolCall>, envs: seq<ToolEnv>)
    requires |envs| == |calls| && calls != []
    ensures var n := |calls| - 1;
      var p := Prepare(calls[n], envs[n]);
      ImmediateResults(calls, envs) == ImmediateResults(calls[..n], envs[..n])
        + if p.Immediate? then [ResultMessage(calls[n], Some(p.output), true)] else []
  {
    PositionsSnoc(calls, envs, true);
  }

  function PreflightCallEvents(call: ToolCall, env: ToolEnv): seq<Event> {
    var p := Prepare(call, env);
    [StartEvent(call)] + if p.Immediate? then OutcomeEvents(call, Some(p.output), true) else []
  }

  /** One call of the first pass. */
  lemma {:induction false} PreflightCall(call: ToolCall, env: ToolEnv, open: multiset<string>)
    ensures var p := Prepare(call, env);
      var events := PreflightCallEvents(call, env);
      && FollowAll(Open(open), events) == Open(if p.Immediate? then open else open + multiset{call.id})
      && Ended(events) == if p.Immediate? then [ResultMessage(call, Some(p.output), true)] else []
  {
    var p := Prepare(call, env);
    StartShape(call, open);
    if p.Immediate? {
      OutcomeShape(call, Some(p.output), true, open);
      Then(Open(open), [StartEvent(call)], OutcomeEvents(call, Some(p.output), true), Open(open + multiset{call.id}), Open(open));
    } else {
      assert [StartEvent(call)] + [] == [StartEvent(call)];
    }
  }

  /** After the first pass the runnable calls are open and the refused ones have been reported. */
  lemma {:induction false} PreflightShape(calls: seq<ToolCall>, envs: seq<ToolEnv>)
    requires |envs| == |calls|
    ensures FollowAll(INSIDE, PreflightEvents(calls, envs)) == Open(multiset(Listed(calls, envs, false)))
    ensures Ended(PreflightEvents(calls, envs)) == ImmediateResults(calls, envs)
  {
    if calls != [] {
      PreflightShape(calls[..|calls| - 1], envs[..|calls| - 1]);
      PreflightSnoc(calls, envs);
    }
  }

  lemma {:induction false} PreflightSnoc(calls: seq<ToolCall>, envs: seq<ToolEnv>)
    requires |envs| == |calls| && calls != []
    requires var n := |calls| - 1;
      && FollowAll(INSIDE, PreflightEvents(calls[..n], envs[..n])) == Open(multiset(Listed(calls[..n], envs[..n], false)))
      && Ended(PreflightEvents(calls[..n], envs[..n])) == ImmediateResults(calls[..n], envs[..n])
    ensures FollowAll(INSIDE, PreflightEvents(calls, envs)) == Open(multiset(Listed(calls, envs, false)))
    ensures Ended(PreflightEvents(calls, envs)) == ImmediateResults(calls, envs)
  {
    var n := |calls| - 1;
    var last := PreflightCallEvents(calls[n], envs[n]);
    var before := multiset(Listed(calls[..n], envs[..n], false));
    ImmediateSnoc(calls, envs);
    PreflightCall(calls[n], envs[n], before);
    RunnableAfter(calls, envs);
    Then(INSIDE, PreflightEvents(calls[..n], envs[..n]), last, Open(before), FollowAll(Open(before), last));
    PreflightEventsSnoc(calls, envs);
  }

  lemma {:induction false} RunnableAfter(calls: seq<ToolCall>, envs: seq<ToolEnv>)
    requires |envs| == |calls| && calls != []
    ensures var n := |calls| - 1;
      multiset(Listed(calls, envs, false)) == multiset(Listed(calls[..n], envs[..n], false))
        + if Prepare(calls[n], envs[n]).Immediate? then multiset{} else multiset{calls[n].id}
  {
    ListedSnoc(calls, envs, false);
  }

  lemma {:induction false} PreflightEventsSnoc(calls: seq<ToolCall>, envs: seq<ToolEnv>)
    requires |envs| == |calls| && calls != []
    ensures var n := |calls| - 1;
      PreflightEvents(calls, envs) == PreflightEvents(calls[..n], envs[..n]) + PreflightCallEvents(calls[n], envs[n])
  {
  }

  function ScheduledMessage(calls: seq<ToolCall>, envs: seq<ToolEnv>, r: WavePool.Result): Message
    requires |envs| == |calls| && 0 <= r.index < |Positions(calls, envs, false)|
  {
    var p := OwnerOf(Positions(calls, envs, false), r);
    ResultMessage(calls[p], ScheduledOutcome(envs[p], r).0, ScheduledOutcome(envs[p], r).1)
  }

  lemma {:induction false} ScheduledSnoc(calls: seq<ToolCall>, envs: seq<ToolEnv>, results: seq<WavePool.Result>)
    requires |envs| == |calls| && IndicesOk(results, |Positions(calls, envs, false)|) && results != []
    ensures var n := |results| - 1;
      ScheduledResults(calls, envs, results) == ScheduledResults(calls, envs, results[..n]) + [ScheduledMessage(calls, envs, results[n])]
  {
  }

  /** The scheduled results close the runnable calls, one after the other. */
  lemma {:induction false} ScheduledShape(calls: seq<ToolCall>, envs: seq<ToolEnv>, results: seq<WavePool.Result>)
    requires |envs| == |calls| && IndicesOk(results, |Positions(calls, envs, false)|)
    requires |results| <= |Positions(calls, envs, false)| && forall k :: 0 <= k < |results| ==> results[k].index == k
    ensures var ids := Listed(calls, envs, false);
      FollowAll(Open(multiset(ids)), ScheduledEvents(calls, envs, results)) == Open(multiset(ids[|results|..]))
    ensures Ended(ScheduledEvents(calls, envs, results)) == ScheduledResults(calls, envs, results)
  {
    var ids := Listed(calls, envs, false);
    if results == [] {
      assert ids[0..] == ids;
    } else {
      var n := |results| - 1;
      ScheduledShape(calls, envs, results[..n]);
      ScheduledSnoc(calls, envs, results);
      var p := OwnerOf(Positions(calls, envs, false), results[n]);
      var outcome := ScheduledOutcome(envs[p], results[n]);
      HeadOf(ids, n);
      OutcomeShape(calls[p], outcome.0, outcome.1, multiset(ids[n + 1..]));
      Then(Open(multiset(ids)), ScheduledEvents(calls, envs, results[..n]), OutcomeEvents(calls[p], outcome.0, outcome.1),
           Open(multiset(ids[n..])), Open(multiset(ids[n + 1..])));
    }
  }

  lemma HeadOf(ids: seq<string>, n: nat)
    requires n < |ids|
    ensures multiset(ids[n..]) == multiset(ids[n + 1..]) + multiset{ids[n]}
  {
    assert ids[n..] == [ids[n]] + ids[n + 1..];
  }

  /** Parallel tool events leave the turn as they found it, and complete exactly the result messages. */
  lemma ParallelShape(calls: seq<ToolCall>, turn: ToolTurn)
    requires ParallelOk(calls, turn)
    ensures IndicesOk(SchedulerRun.Output(turn.finished), |Positions(calls, turn.envs, false)|)
    ensures FollowAll(INSIDE, ParallelEvents(calls, turn)) == INSIDE
    ensures Ended(ParallelEvents(calls, turn)) == ParallelResults(calls, turn)
  {
    ParallelIndices(calls, turn);
    var out := SchedulerRun.Output(turn.finished);
    forall k | 0 <= k < |out| ensures out[k].index == k {
      ScheduledInOrder(calls, turn, k);
    }
    ParallelPieces(calls, turn.envs, turn.updates, out);
  }

  lemma {:induction false} UpdatesQuiet(calls: seq<ToolCall>, envs: seq<ToolEnv>, reports: seq<(nat, string)>)
    requires |envs| == |calls|
    requires forall k :: 0 <= k < |reports| ==> reports[k].0 < |Positions(calls, envs, false)|
    ensures var open := Open(multiset(Listed(calls, envs, false)));
      FollowAll(open, ParallelUpdates(calls, envs, reports)) == open
    ensures Ended(ParallelUpdates(calls, envs, reports)) == []
  {
    var ids := Listed(calls, envs, false);
    var updates := ParallelUpdates(calls, envs, reports);
    forall k | 0 <= k < |updates| ensures updates[k].ToolUpdate? && updates[k].id in multiset(ids) {
      assert updates[k].id == ids[reports[k].0];
    }
    UpdatesShape(updates, multiset(ids));
  }

  lemma {:induction false} ParallelPieces(calls: seq<ToolCall>, envs: seq<ToolEnv>, reports: seq<(nat, string)>, out: seq<WavePool.Result>)
    requires |envs| == |calls| && |out| == |Positions(calls, envs, false)|
    requires forall k :: 0 <= k < |out| ==> out[k].index == k
    requires forall k :: 0 <= k < |reports| ==> reports[k].0 < |Positions(calls, envs, false)|
    ensures var events := PreflightEvents(calls, envs) + ParallelUpdates(calls, envs, reports) + ScheduledEvents(calls, envs, out);
      && FollowAll(INSIDE, events) == INSIDE
      && Ended(events) == ImmediateResults(calls, envs) + ScheduledResults(calls, envs, out)
  {
    var open := Open(multiset(Listed(calls, envs, false)));
    PreflightShape(calls, envs);
    UpdatesQuiet(calls, envs, reports);
    ScheduledShape(calls, envs, out);
    assert Listed(calls, envs, false)[|out|..] == [];
    ThreeStretches(INSIDE, PreflightEvents(calls, envs), ParallelUpdates(calls, envs, reports),
                   ScheduledEvents(calls, envs, out), open, INSIDE);
  }

  lemma ThreeStretches(g: Shape, a: seq<Event>, b: seq<Event>, c: seq<Event>, open: Shape, end: Shape)
    requires FollowAll(g, a) == open && FollowAll(open, b) == open && FollowAll(open, c) == end && Ended(b) == []
    ensures FollowAll(g, a + b + c) == end
    ensures Ended(a + b + c) == Ended(a) + Ended(c)
  {
    var ab := a + b;
    Then(g, a, b, open, open);
    assert Ended(ab) == Ended(a);
    Then(g, ab, c, open, end);
  }

  // ----- Tool events stay inside their turn -----

  predicate TurnBoundary(ev: Event) {
    ev.AgentStart? || ev.AgentEnd? || ev.TurnStart? || ev.TurnEnd?
  }

  predicate Inner(events: seq<Event>) {
    forall k :: 0 <= k < |events| ==> !TurnBoundary(events[k])
  }

  lemma InnerConcat(a: seq<Event>, b: seq<Event>)
    requires Inner(a) && Inner(b)
    ensures Inner(a + b)
  {
  }

  lemma {:induction false} SequentialInner(calls: seq<ToolCall>, envs: seq<ToolEnv>)
    requires |envs| == |calls|
    ensures Inner(SequentialEvents(calls, envs))
  {
    if calls != [] {
      var n := |calls| - 1;
      SequentialInner(calls[..n], envs[..n]);
      InnerConcat(SequentialEvents(calls[..n], envs[..n]), SequentialCallEvents(calls[n], envs[n]));
    }
  }

  lemma {:induction false} PreflightInner(calls: seq<ToolCall>, envs: seq<ToolEnv>)
    requires |envs| == |calls|
    ensures Inner(PreflightEvents(calls, envs))
  {
    if calls != [] {
      PreflightInner(calls[..|calls| - 1], envs[..|calls| - 1]);
    }
  }

  lemma {:induction false} ScheduledInner(calls: seq<ToolCall>, envs: seq<ToolEnv>, results: seq<WavePool.Result>)
    requires |envs| == |calls| && IndicesOk(results, |Positions(calls, envs, false)|)
    ensures Inner(ScheduledEvents(calls, envs, results))
  {
    if results != [] {
      ScheduledInner(calls, envs, results[..|results| - 1]);
    }
  }

  lemma ParallelInner(calls: seq<ToolCall>, turn: ToolTurn)
    requires ParallelOk(calls, turn)
    ensures IndicesOk(SchedulerRun.Output(turn.finished), |Positions(calls, turn.envs, false)|)
    ensures Inner(ParallelEvents(calls, turn))
  {
    ParallelIndices(calls, turn);
    PreflightInner(calls, turn.envs);
    ScheduledInner(calls, turn.envs, SchedulerRun.Output(turn.finished));
    InnerConcat(PreflightEvents(calls, turn.envs), ParallelUpdates(calls, turn.envs, turn.updates));
  }
}
