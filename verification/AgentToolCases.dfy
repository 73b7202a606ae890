// What becomes of each tool call of a reply, by what the tool, its validation and its hooks do, in both modes.

module AgentToolCases {
  import opened Wrappers
  import opened Messages
  import opened AgentEvents
  import opened AgentTools
  import opened AgentToolProofs
  import opened AgentCancellation
  import Sched = SchedulerCalls
  import CallClasses
  import WavePool
  import Waves
  import WaveIsolation
  import WaveProperties
  import SchedulerRun

  // ----- The three fates of a call -----

  /** The tool is known, the arguments are valid, and the hook lets the call pass. */
  predicate Startable(env: ToolEnv) {
    env.found && env.invalid == None && env.before == NoHook
  }

  /** The call is refused with this text. */
  predicate RefusedWith(call: ToolCall, env: ToolEnv, text: string) {
    if !env.found then text == "Tool " + call.name + " not found"
    else if env.invalid != None then Some(text) == env.invalid
    else match env.before
      case HookThrew(message) => text == message
      case Blocked(Some(reason)) => text == if reason == "" then "Tool execution was blocked" else reason
      case Blocked(None) => text == "Tool execution was blocked"
      case NoHook => false
  }

  /** The output and the error flag, unless the hook after the call gives others. */
  predicate Answered(env: ToolEnv, plain: Option<string>, plainError: bool, m: Message)
    requires m.ToolResult?
  {
    match env.after
    case None => m.output == plain && m.isError == plainError
    case Some(Override(output, isError)) =>
      && (match output case Some(_) => m.output == output case None => m.output == plain)
      && (match isError case Some(e) => m.isError == e case None => m.isError == plainError)
  }

  /** The tool ran, and this is its result. */
  predicate RanWith(env: ToolEnv, m: Message)
    requires m.ToolResult?
  {
    match env.execution
    case Returned(value) => Answered(env, Some(value), false, m)
    case Threw(message) => Answered(env, Some(message), true, m)
  }

  /** The call was cancelled in the scheduler's queue: an error without content. */
  predicate CancelledWith(env: ToolEnv, m: Message)
    requires m.ToolResult?
  {
    Answered(env, None, true, m)
  }

  predicate ResultOfCall(call: ToolCall, m: Message) {
    m.ToolResult? && m.toolCallId == call.id && m.toolName == call.name
  }

  /** The result of a call that is not cancelled. */
  predicate Settled(call: ToolCall, env: ToolEnv, m: Message) {
    && ResultOfCall(call, m)
    && if Startable(env) then RanWith(env, m) else m.isError && m.output.Some? && RefusedWith(call, env, m.output.value)
  }

  lemma PreparedExactly(call: ToolCall, env: ToolEnv)
    ensures Prepare(call, env).Prepared? <==> Startable(env)
    ensures !Startable(env) ==> RefusedWith(call, env, Prepare(call, env).output)
  {
  }

  lemma SettledOnce(call: ToolCall, env: ToolEnv, a: Message, b: Message)
    requires Settled(call, env, a) && Settled(call, env, b)
    ensures a == b
  {
  }

  lemma RanExactly(call: ToolCall, env: ToolEnv, output: Option<string>, isError: bool)
    ensures var (o, e) := Finalized(env, output, isError);
      ResultOfCall(call, ResultMessage(call, o, e)) && Answered(env, output, isError, ResultMessage(call, o, e))
  {
  }

  // ----- Sequential mode -----

  /** In sequential mode a call is refused or has run, as its fields say. */
  lemma SequentialCases(calls: seq<ToolCall>, envs: seq<ToolEnv>, k: nat)
    requires |envs| == |calls| && k < |calls|
    ensures |SequentialResults(calls, envs)| == |calls|
    ensures Settled(calls[k], envs[k], SequentialResults(calls, envs)[k])
  {
    var call, env := calls[k], envs[k];
    PreparedExactly(call, env);
    if Startable(env) {
      RanExactly(call, env, Some(Executed(env).value), Executed(env).isError);
    }
  }

  /** The events of a trace that satisfy `p`. */
  function Kept(trace: seq<Event>, p: Event -> bool): seq<Event> {
    if trace == [] then []
    else
      var last := trace[|trace| - 1];
      Kept(trace[..|trace| - 1], p) + if p(last) then [last] else []
  }

  predicate IsUpdate(ev: Event) {
    ev.ToolUpdate?
  }

  predicate IsStart(ev: Event) {
    ev.ToolStart?
  }

  lemma KeptSnoc(trace: seq<Event>, ev: Event, p: Event -> bool)
    ensures Kept(trace + [ev], p) == Kept(trace, p) + if p(ev) then [ev] else []
  {
    assert (trace + [ev])[..|trace|] == trace;
  }

  lemma {:induction false} KeptConcat(a: seq<Event>, b: seq<Event>, p: Event -> bool)
    ensures Kept(a + b, p) == Kept(a, p) + Kept(b, p)
  {
    if b == [] {
      assert a + b == a;
    } else {
      var n := |b| - 1;
      KeptConcat(a, b[..n], p);
      KeptSnoc(a + b[..n], b[n], p);
      assert a + b == (a + b[..n]) + [b[n]];
    }
  }

  lemma {:induction false} KeptAlike(events: seq<Event>, p: Event -> bool, all: bool)
    requires forall k :: 0 <= k < |events| ==> p(events[k]) == all
    ensures Kept(events, p) == if all then events else []
  {
    if events != [] {
      var n := |events| - 1;
      KeptAlike(events[..n], p, all);
      assert events == events[..n] + [events[n]];
    }
  }

  /** What the tools that were started reported, call by call. */
  function Reported(calls: seq<ToolCall>, envs: seq<ToolEnv>): seq<Event>
    requires |envs| == |calls|
  {
    if calls == [] then []
    else
      var n := |calls| - 1;
      var call, partials := calls[n], envs[n].partials;
      Reported(calls[..n], envs[..n])
      + if !Startable(envs[n]) then []
        else seq(|partials|, k requires 0 <= k < |partials| => ToolUpdate(call.id, call.name, partials[k]))
  }

  lemma KeptBetween(a: seq<Event>, b: seq<Event>, c: seq<Event>, p: Event -> bool)
    requires forall k :: 0 <= k < |a| ==> !p(a[k])
    requires forall k :: 0 <= k < |b| ==> p(b[k])
    requires forall k :: 0 <= k < |c| ==> !p(c[k])
    ensures Kept(a + b + c, p) == b
  {
    KeptAlike(a, p, false);
    KeptAlike(b, p, true);
    KeptAlike(c, p, false);
    KeptConcat(a, b, p);
    KeptConcat(a + b, c, p);
    hide Kept;
    assert [] + b == b && b + [] == b;
  }

  lemma CallUpdates(call: ToolCall, env: ToolEnv)
    ensures Kept(SequentialCallEvents(call, env), IsUpdate) == if Startable(env) then UpdateEvents(call, env.partials) else []
  {
    hide Kept, SequentialOutcome, Startable;
    var (output, isError) := SequentialOutcome(call, env);
    PreparedExactly(call, env);
    KeptBetween([StartEvent(call)], if Prepare(call, env).Prepared? then UpdateEvents(call, env.partials) else [],
                OutcomeEvents(call, output, isError), IsUpdate);
  }

  /** Exactly the tools of startable calls are started: theirs are the progress reports, in source order. */
  lemma {:induction false} SequentialStarts(calls: seq<ToolCall>, envs: seq<ToolEnv>)
    requires |envs| == |calls|
    ensures Kept(SequentialEvents(calls, envs), IsUpdate) == Reported(calls, envs)
  {
    if calls != [] {
      var n := |calls| - 1;
      SequentialStarts(calls[..n], envs[..n]);
      KeptConcat(SequentialEvents(calls[..n], envs[..n]), SequentialCallEvents(calls[n], envs[n]), IsUpdate);
      CallUpdates(calls[n], envs[n]);
    }
  }

  // ----- Parallel mode -----

  /** What the scheduler is told about a call: its identity, what the tool declares, and how it will settle. */
  predicate HandedOver(call: ToolCall, env: ToolEnv, c: Sched.Call) {
    && c.toolCallId == call.id && c.toolName == call.name
    && c.effects == env.effects && c.concurrencySafe == Some(env.concurrencySafe)
    && c.consumes == None && c.resource == None && c.host == None && c.serverId == None
    && match env.execution
       case Returned(value) => c.run == Sched.Resolved(value, false)
       case Threw(message) => c.run == Sched.Resolved(message, true)
  }

  /** Exactly the startable calls are handed to the scheduler, in source order. */
  lemma BatchExactly(calls: seq<ToolCall>, envs: seq<ToolEnv>)
    requires |envs| == |calls|
    ensures var ps, batch := Positions(calls, envs, false), Batch(calls, envs);
      && |batch| == |ps|
      && (forall p :: 0 <= p < |calls| ==> (p in ps <==> Startable(envs[p])))
      && (forall i, j :: 0 <= i < j < |ps| ==> ps[i] < ps[j])
      && forall k :: 0 <= k < |ps| ==> batch[k].index == k && HandedOver(calls[ps[k]], envs[ps[k]], batch[k])
  {
    PositionsIncrease(calls, envs, false);
    forall p | 0 <= p < |calls| ensures p in Positions(calls, envs, false) <==> Startable(envs[p]) {
      PreparedExactly(calls[p], envs[p]);
      PositionListed(calls, envs, false, p);
    }
  }

  lemma {:induction false} PositionListed(calls: seq<ToolCall>, envs: seq<ToolEnv>, refused: bool, p: nat)
    requires |envs| == |calls| && p < |calls|
    ensures p in Positions(calls, envs, refused) <==> Prepare(calls[p], envs[p]).Immediate? == refused
  {
    var n := |calls| - 1;
    var rest := Positions(calls[..n], envs[..n], refused);
    if p < n {
      PositionListed(calls[..n], envs[..n], refused, p);
    } else {
      assert forall k :: 0 <= k < |rest| ==> rest[k] < n;
    }
  }

  /** The tool is declared concurrency-safe for the arguments, and any effects it declares are those of a read. */
  predicate DeclaredSafe(concurrencySafe: bool, effects: Option<Sched.Effects>) {
    concurrencySafe && (effects.Some? ==> CallClasses.ReadEffects(effects.value))
  }

  lemma HandedOverSafe(call: ToolCall, env: ToolEnv, c: Sched.Call)
    requires HandedOver(call, env, c)
    ensures CallClasses.DeclaredSafe(c) <==> DeclaredSafe(env.concurrencySafe, env.effects)
  {
  }

  /** Every call of a batch has a flag. */
  lemma WaveFlagged(batch: seq<Sched.Call>, k: nat, i: nat)
    requires k < |Waves.Partition(batch)| && i < |Waves.Partition(batch)[k]|
    requires forall q :: 0 <= q < |batch| ==> batch[q].concurrencySafe.Some?
    ensures Waves.Partition(batch)[k][i].concurrencySafe.Some?
  {
    hide Waves.Partition;
    WaveProperties.PartitionSound(batch);
    WaveIsolation.FlattenAt(Waves.Partition(batch), k, i);
  }

  lemma BatchWaves(calls: seq<ToolCall>, envs: seq<ToolEnv>)
    requires |envs| == |calls|
    ensures BatchPlan(calls, envs).waves == Waves.Partition(Batch(calls, envs))
  {
    BatchSorted(Batch(calls, envs));
  }

  /** A tool is run together with others only if it is declared safe. */
  lemma TogetherSafe(calls: seq<ToolCall>, envs: seq<ToolEnv>, k: nat, i: nat)
    requires |envs| == |calls|
    requires var waves := BatchPlan(calls, envs).waves; k < |waves| && |waves[k]| >= 2 && i < |waves[k]|
    ensures var c := BatchPlan(calls, envs).waves[k][i];
      c.concurrencySafe.Some? && DeclaredSafe(c.concurrencySafe.value, c.effects)
  {
    hide Waves.Partition, BatchPlan;
    var batch := Batch(calls, envs);
    BatchExactly(calls, envs);
    BatchWaves(calls, envs);
    CallClasses.SharedWavesSafe(batch, k);
    WaveFlagged(batch, k, i);
  }

  /** The startable calls run as one wave exactly when all their tools are declared safe. */
  lemma TogetherExactly(calls: seq<ToolCall>, envs: seq<ToolEnv>)
    requires |envs| == |calls| && |Batch(calls, envs)| >= 2
    ensures BatchPlan(calls, envs).waves == [Batch(calls, envs)] <==>
      forall p :: 0 <= p < |calls| && Startable(envs[p]) ==> DeclaredSafe(envs[p].concurrencySafe, envs[p].effects)
  {
    hide Waves.Partition, BatchPlan, Startable, DeclaredSafe, CallClasses.DeclaredSafe, HandedOver;
    var ps, batch := Positions(calls, envs, false), Batch(calls, envs);
    BatchExactly(calls, envs);
    BatchWaves(calls, envs);
    CallClasses.OneWaveWhenSafe(batch);
    NoneCompete(calls, envs);
    forall k | 0 <= k < |ps|
      ensures Startable(envs[ps[k]])
      ensures CallClasses.DeclaredSafe(batch[k]) <==> DeclaredSafe(envs[ps[k]].concurrencySafe, envs[ps[k]].effects)
    {
      assert ps[k] in ps;
      HandedOverSafe(calls[ps[k]], envs[ps[k]], batch[k]);
    }
    forall p | 0 <= p < |calls| && Startable(envs[p]) ensures exists k :: 0 <= k < |ps| && ps[k] == p {
      assert p in ps;
    }
  }

  lemma NoneCompete(calls: seq<ToolCall>, envs: seq<ToolEnv>)
    requires |envs| == |calls|
    ensures var batch := Batch(calls, envs);
      forall i, j :: 0 <= i < j < |batch| ==> !CallClasses.Compete(batch[i], batch[j])
  {
  }

  /** In parallel mode result `x` belongs to call `p`, the refused calls first. A call is refused or has run, as its fields
      say, or it was cancelled, which takes an abort. */
  lemma ParallelCases(calls: seq<ToolCall>, turn: ToolTurn, x: nat)
    requires ParallelOk(calls, turn) && x < |calls|
    ensures IndicesOk(SchedulerRun.Output(turn.finished), |Positions(calls, turn.envs, false)|)
    ensures |AnswerPositions(calls, turn.envs)| == |ParallelResults(calls, turn)| == |calls|
    ensures var m, p := ParallelResults(calls, turn)[x], AnswerPositions(calls, turn.envs)[x];
      || Settled(calls[p], turn.envs[p], m)
      || (turn.finished.aborted && Startable(turn.envs[p]) && ResultOfCall(calls[p], m) && CancelledWith(turn.envs[p], m))
  {
    hide Settled, CancelledWith, ResultOfCall, Startable;
    ParallelIndices(calls, turn);
    ParallelResultOrder(calls, turn);
    PositionsCover(calls, turn.envs);
    var n := |Positions(calls, turn.envs, true)|;
    if x < n {
      RefusedCase(calls, turn.envs, x);
    } else {
      ScheduledCase(calls, turn, x - n);
    }
  }

  lemma RefusedCase(calls: seq<ToolCall>, envs: seq<ToolEnv>, k: nat)
    requires |envs| == |calls| && k < |Positions(calls, envs, true)|
    ensures |ImmediateResults(calls, envs)| == |Positions(calls, envs, true)|
    ensures var p := Positions(calls, envs, true)[k];
      !Startable(envs[p]) && Settled(calls[p], envs[p], ImmediateResults(calls, envs)[k])
  {
    var p := Positions(calls, envs, true)[k];
    PreparedExactly(calls[p], envs[p]);
  }

  lemma ScheduledCase(calls: seq<ToolCall>, turn: ToolTurn, k: nat)
    requires ParallelOk(calls, turn) && k < |Positions(calls, turn.envs, false)|
    requires IndicesOk(SchedulerRun.Output(turn.finished), |Positions(calls, turn.envs, false)|)
    ensures var out, p := SchedulerRun.Output(turn.finished), Positions(calls, turn.envs, false)[k];
      && |out| == |Positions(calls, turn.envs, false)|
      && var m := ScheduledResults(calls, turn.envs, out)[k];
      || Settled(calls[p], turn.envs[p], m)
      || (turn.finished.aborted && Startable(turn.envs[p]) && ResultOfCall(calls[p], m) && CancelledWith(turn.envs[p], m))
  {
    var out, p := SchedulerRun.Output(turn.finished), Positions(calls, turn.envs, false)[k];
    ScheduledInOrder(calls, turn, k);
    Reports(calls, turn, k);
    PreparedExactly(calls[p], turn.envs[p]);
    RanExactly(calls[p], turn.envs[p], ScheduledOutput(out[k]), out[k].isError);
  }

  /** The modes agree: without an abort, parallel mode gives every call the result that sequential mode gives it. */
  lemma ModesAgree(calls: seq<ToolCall>, turn: ToolTurn, x: nat)
    requires ParallelOk(calls, turn) && x < |calls| && !turn.finished.aborted
    ensures IndicesOk(SchedulerRun.Output(turn.finished), |Positions(calls, turn.envs, false)|)
    ensures |AnswerPositions(calls, turn.envs)| == |ParallelResults(calls, turn)| == |calls|
    ensures |SequentialResults(calls, turn.envs)| == |calls|
    ensures ParallelResults(calls, turn)[x] == SequentialResults(calls, turn.envs)[AnswerPositions(calls, turn.envs)[x]]
  {
    ParallelCases(calls, turn, x);
    var p := AnswerPositions(calls, turn.envs)[x];
    SequentialCases(calls, turn.envs, p);
    SettledOnce(calls[p], turn.envs[p], ParallelResults(calls, turn)[x], SequentialResults(calls, turn.envs)[p]);
  }

  // ----- What the events say -----

  /** Every `tool_execution_end` is followed by the complete result message it announces. */
  predicate EndsReported(trace: seq<Event>) {
    forall k :: 0 <= k < |trace| && trace[k].ToolEnd? ==> ReportedAt(trace, k)
  }

  predicate ReportedAt(trace: seq<Event>, k: nat)
    requires k < |trace| && trace[k].ToolEnd?
  {
    var m := ToolResult(trace[k].id, trace[k].name, trace[k].output, trace[k].isError);
    k + 2 < |trace| && trace[k + 1] == MessageStart(m) && trace[k + 2] == MessageEnd(m)
  }

  /** A `tool_execution_start` for every call, in source order, with its name and arguments. */
  predicate StartsCalls(trace: seq<Event>, calls: seq<ToolCall>) {
    Kept(trace, IsStart)
      == seq(|calls|, k requires 0 <= k < |calls| => ToolStart(calls[k].id, calls[k].name, calls[k].arguments))
  }

  lemma EndsConcat(a: seq<Event>, b: seq<Event>)
    requires EndsReported(a) && EndsReported(b)
    ensures EndsReported(a + b)
  {
    var all := a + b;
    forall k | 0 <= k < |all| && all[k].ToolEnd? ensures ReportedAt(all, k) {
      if k < |a| {
        assert ReportedAt(a, k);
      } else {
        assert ReportedAt(b, k - |a|);
        assert all[k + 1] == b[k - |a| + 1] && all[k + 2] == b[k - |a| + 2];
      }
    }
  }

  lemma OutcomeReported(call: ToolCall, output: Option<string>, isError: bool)
    ensures EndsReported(OutcomeEvents(call, output, isError))
    ensures Kept(OutcomeEvents(call, output, isError), IsStart) == []
  {
    var events := OutcomeEvents(call, output, isError);
    assert ReportedAt(events, 0);
    KeptAlike(events, IsStart, false);
  }

  lemma StartsSnoc(a: seq<Event>, b: seq<Event>, calls: seq<ToolCall>, call: ToolCall)
    requires StartsCalls(a, calls) && Kept(b, IsStart) == [StartEvent(call)]
    ensures StartsCalls(a + b, calls + [call])
  {
    KeptConcat(a, b, IsStart);
  }

  lemma CallStarts(call: ToolCall, rest: seq<Event>)
    requires Kept(rest, IsStart) == []
    ensures Kept([StartEvent(call)] + rest, IsStart) == [StartEvent(call)]
  {
    KeptAlike([StartEvent(call)], IsStart, true);
    KeptConcat([StartEvent(call)], rest, IsStart);
    assert [StartEvent(call)] + [] == [StartEvent(call)];
  }

  lemma SequentialCallReported(call: ToolCall, env: ToolEnv)
    ensures EndsReported(SequentialCallEvents(call, env))
    ensures Kept(SequentialCallEvents(call, env), IsStart) == [StartEvent(call)]
  {
    hide Kept, SequentialOutcome;
    var (output, isError) := SequentialOutcome(call, env);
    var updates := if Prepare(call, env).Prepared? then UpdateEvents(call, env.partials) else [];
    var outcome := OutcomeEvents(call, output, isError);
    OutcomeReported(call, output, isError);
    EndsConcat([StartEvent(call)], updates);
    EndsConcat([StartEvent(call)] + updates, outcome);
    KeptAlike(updates, IsStart, false);
    KeptConcat(updates, outcome, IsStart);
    CallStarts(call, updates + outcome);
    assert [StartEvent(call)] + updates + outcome == [StartEvent(call)] + (updates + outcome);
  }

  /** Sequential mode announces every call and every result. */
  lemma {:induction false} SequentialAnnounced(calls: seq<ToolCall>, envs: seq<ToolEnv>)
    requires |envs| == |calls|
    ensures StartsCalls(SequentialEvents(calls, envs), calls) && EndsReported(SequentialEvents(calls, envs))
  {
    if calls != [] {
      var n := |calls| - 1;
      var before, one := SequentialEvents(calls[..n], envs[..n]), SequentialCallEvents(calls[n], envs[n]);
      SequentialAnnounced(calls[..n], envs[..n]);
      SequentialCallReported(calls[n], envs[n]);
      hide StartsCalls, EndsReported, SequentialCallEvents;
      EndsConcat(before, one);
      StartsSnoc(before, one, calls[..n], calls[n]);
      assert calls == calls[..n] + [calls[n]];
    }
  }

  function PreflightCall(call: ToolCall, env: ToolEnv): seq<Event> {
    var p := Prepare(call, env);
    [StartEvent(call)] + if p.Immediate? then OutcomeEvents(call, Some(p.output), true) else []
  }

  lemma PreflightCallReported(call: ToolCall, env: ToolEnv)
    ensures EndsReported(PreflightCall(call, env)) && Kept(PreflightCall(call, env), IsStart) == [StartEvent(call)]
  {
    var p := Prepare(call, env);
    var after := if p.Immediate? then OutcomeEvents(call, Some(p.output), true) else [];
    if p.Immediate? {
      OutcomeReported(call, Some(p.output), true);
    }
    EndsConcat([StartEvent(call)], after);
    CallStarts(call, after);
  }

  lemma {:induction false} PreflightSnoc(calls: seq<ToolCall>, envs: seq<ToolEnv>)
    requires |envs| == |calls| && calls != []
    ensures var n := |calls| - 1;
      PreflightEvents(calls, envs) == PreflightEvents(calls[..n], envs[..n]) + PreflightCall(calls[n], envs[n])
  {
    hide Prepare, OutcomeEvents;
  }

  lemma {:induction false} PreflightAnnounced(calls: seq<ToolCall>, envs: seq<ToolEnv>)
    requires |envs| == |calls|
    ensures StartsCalls(PreflightEvents(calls, envs), calls) && EndsReported(PreflightEvents(calls, envs))
  {
    if calls != [] {
      var n := |calls| - 1;
      PreflightAnnounced(calls[..n], envs[..n]);
      PreflightCallReported(calls[n], envs[n]);
      PreflightSnoc(calls, envs);
      hide StartsCalls, EndsReported, PreflightCall, PreflightEvents;
      EndsConcat(PreflightEvents(calls[..n], envs[..n]), PreflightCall(calls[n], envs[n]));
      StartsSnoc(PreflightEvents(calls[..n], envs[..n]), PreflightCall(calls[n], envs[n]), calls[..n], calls[n]);
      assert calls == calls[..n] + [calls[n]];
    }
  }

  lemma {:induction false} ScheduledAnnounced(calls: seq<ToolCall>, envs: seq<ToolEnv>, results: seq<WavePool.Result>)
    requires |envs| == |calls| && IndicesOk(results, |Positions(calls, envs, false)|)
    ensures Kept(ScheduledEvents(calls, envs, results), IsStart) == [] && EndsReported(ScheduledEvents(calls, envs, results))
  {
    if results != [] {
      var n := |results| - 1;
      var p := OwnerOf(Positions(calls, envs, false), results[n]);
      var (output, isError) := ScheduledOutcome(envs[p], results[n]);
      ScheduledAnnounced(calls, envs, results[..n]);
      OutcomeReported(calls[p], output, isError);
      hide EndsReported, Kept, ScheduledOutcome;
      EndsConcat(ScheduledEvents(calls, envs, results[..n]), OutcomeEvents(calls[p], output, isError));
      KeptConcat(ScheduledEvents(calls, envs, results[..n]), OutcomeEvents(calls[p], output, isError), IsStart);
    }
  }

  /** Parallel mode announces every call and every result, under every schedule. */
  lemma ParallelAnnounced(calls: seq<ToolCall>, turn: ToolTurn)
    requires ParallelOk(calls, turn)
    ensures IndicesOk(SchedulerRun.Output(turn.finished), |Positions(calls, turn.envs, false)|)
    ensures StartsCalls(ParallelEvents(calls, turn), calls) && EndsReported(ParallelEvents(calls, turn))
  {
    ParallelIndices(calls, turn);
    var out := SchedulerRun.Output(turn.finished);
    var preflight := PreflightEvents(calls, turn.envs);
    var updates := ParallelUpdates(calls, turn.envs, turn.updates);
    var scheduled := ScheduledEvents(calls, turn.envs, out);
    PreflightAnnounced(calls, turn.envs);
    ScheduledAnnounced(calls, turn.envs, out);
    KeptAlike(updates, IsStart, false);
    hide Kept, PreflightEvents, ScheduledEvents;
    KeptConcat(preflight, updates, IsStart);
    KeptConcat(preflight + updates, scheduled, IsStart);
    EndsConcat(preflight, updates);
    EndsConcat(preflight + updates, scheduled);
    assert Kept(preflight, IsStart) + [] + [] == Kept(preflight, IsStart);
  }

  lemma {:induction false} PreflightQuiet(calls: seq<ToolCall>, envs: seq<ToolEnv>)
    requires |envs| == |calls|
    ensures forall ev :: ev in PreflightEvents(calls, envs) ==> !IsUpdate(ev)
  {
    if calls != [] {
      var n := |calls| - 1;
      PreflightQuiet(calls[..n], envs[..n]);
      PreflightSnoc(calls, envs);
    }
  }

  lemma {:induction false} ScheduledQuiet(calls: seq<ToolCall>, envs: seq<ToolEnv>, results: seq<WavePool.Result>)
    requires |envs| == |calls| && IndicesOk(results, |Positions(calls, envs, false)|)
    ensures forall ev :: ev in ScheduledEvents(calls, envs, results) ==> !IsUpdate(ev)
  {
    if results != [] {
      ScheduledQuiet(calls, envs, results[..|results| - 1]);
    }
  }

  /** In parallel mode too only tools of startable calls report progress, each for its own call. */
  lemma ParallelStarts(calls: seq<ToolCall>, turn: ToolTurn)
    requires ParallelOk(calls, turn)
    ensures IndicesOk(SchedulerRun.Output(turn.finished), |Positions(calls, turn.envs, false)|)
    ensures var updates := Kept(ParallelEvents(calls, turn), IsUpdate);
      && |updates| == |turn.updates|
      && forall k :: 0 <= k < |updates| ==>
           var p := Positions(calls, turn.envs, false)[turn.updates[k].0];
           Startable(turn.envs[p]) && updates[k] == ToolUpdate(calls[p].id, calls[p].name, turn.updates[k].1)
  {
    hide Kept, PreflightEvents, ScheduledEvents, Startable;
    ParallelIndices(calls, turn);
    var out, ps := SchedulerRun.Output(turn.finished), Positions(calls, turn.envs, false);
    PreflightQuiet(calls, turn.envs);
    ScheduledQuiet(calls, turn.envs, out);
    KeptBetween(PreflightEvents(calls, turn.envs), ParallelUpdates(calls, turn.envs, turn.updates),
                ScheduledEvents(calls, turn.envs, out), IsUpdate);
    forall k | 0 <= k < |turn.updates| ensures Startable(turn.envs[ps[turn.updates[k].0]]) {
      var p := ps[turn.updates[k].0];
      PreparedExactly(calls[p], turn.envs[p]);
    }
  }
}
