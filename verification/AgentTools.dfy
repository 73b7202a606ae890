// packages/agent/src/agent-loop.ts: preparing, executing and reporting the tool calls of one reply.

module AgentTools {
  import opened Wrappers
  import opened Sequences
  import opened Messages
  import opened AgentEvents
  import Sched = SchedulerCalls
  import Slots
  import WavePool
  import SchedulerRun
  import ExactlyOnce
  import WaveProperties

  /** What `beforeToolCall` decides; `NoHook` also covers a hook that returns nothing. */
  datatype HookDecision = NoHook | Blocked(reason: Option<string>) | HookThrew(message: string)

  datatype Execution = Returned(value: string) | Threw(message: string)

  /** The fields `afterToolCall` replaces. */
  datatype Override = Override(output: Option<string>, isError: Option<bool>)

  /** How the world treats one tool call: the tool, its validation, its hooks and its execution. */
  datatype ToolEnv = ToolEnv(
    found: bool,
    invalid: Option<string>,
    before: HookDecision,
    effects: Option<Sched.Effects>,
    concurrencySafe: bool,
    partials: seq<string>,
    execution: Execution,
    after: Option<Override>)

  datatype Preparation = Immediate(output: string) | Prepared

  /** `prepareToolCall`: every refusal is an immediate error result. */
  function Prepare(call: ToolCall, env: ToolEnv): Preparation {
    if !env.found then Immediate("Tool " + call.name + " not found")
    else if env.invalid.Some? then Immediate(env.invalid.value)
    else match env.before
      case Blocked(reason) =>
        Immediate(if reason.Some? && reason.value != "" then reason.value else "Tool execution was blocked")
      case HookThrew(message) => Immediate(message)
      case NoHook => Prepared
  }

  /** `executePreparedToolCall` turns an exception into an error result, so its promise always resolves. */
  function Executed(env: ToolEnv): Sched.Settlement {
    match env.execution
    case Returned(value) => Sched.Resolved(value, false)
    case Threw(message) => Sched.Resolved(message, true)
  }

  function ResultMessage(call: ToolCall, output: Option<string>, isError: bool): Message {
    ToolResult(call.id, call.name, output, isError)
  }

  /** `emitToolCallOutcome`. */
  function OutcomeEvents(call: ToolCall, output: Option<string>, isError: bool): seq<Event> {
    var m := ResultMessage(call, output, isError);
    [ToolEnd(call.id, call.name, output, isError), MessageStart(m), MessageEnd(m)]
  }

  /** The result fields after `afterToolCall`. */
  function Finalized(env: ToolEnv, output: Option<string>, isError: bool): (Option<string>, bool) {
    if env.after.None? then (output, isError)
    else (if env.after.value.output.Some? then env.after.value.output else output, env.after.value.isError.GetOr(isError))
  }

  function StartEvent(call: ToolCall): Event {
    ToolStart(call.id, call.name, call.arguments)
  }

  function UpdateEvents(call: ToolCall, partials: seq<string>): seq<Event> {
    seq(|partials|, k requires 0 <= k < |partials| => ToolUpdate(call.id, call.name, partials[k]))
  }

  // ----- Sequential mode -----

  /** Output and error flag of one call executed in sequential mode. */
  function SequentialOutcome(call: ToolCall, env: ToolEnv): (Option<string>, bool) {
    match Prepare(call, env)
    case Immediate(output) => (Some(output), true)
    case Prepared => Finalized(env, Some(Executed(env).value), Executed(env).isError)
  }

  function SequentialCallEvents(call: ToolCall, env: ToolEnv): seq<Event> {
    var (output, isError) := SequentialOutcome(call, env);
    [StartEvent(call)]
    + (if Prepare(call, env).Prepared? then UpdateEvents(call, env.partials) else [])
    + OutcomeEvents(call, output, isError)
  }

  function SequentialEvents(calls: seq<ToolCall>, envs: seq<ToolEnv>): seq<Event>
    requires |envs| == |calls|
  {
    if calls == [] then []
    else
      var n := |calls| - 1;
      SequentialEvents(calls[..n], envs[..n]) + SequentialCallEvents(calls[n], envs[n])
  }

  function SequentialResults(calls: seq<ToolCall>, envs: seq<ToolEnv>): seq<Message>
    requires |envs| == |calls|
  {
    seq(|calls|, k requires 0 <= k < |calls| =>
      ResultMessage(calls[k], SequentialOutcome(calls[k], envs[k]).0, SequentialOutcome(calls[k], envs[k]).1))
  }

  // ----- Parallel mode -----

  /** The first pass over the calls, one by one. */
  function PreflightEvents(calls: seq<ToolCall>, envs: seq<ToolEnv>): seq<Event>
    requires |envs| == |calls|
  {
    if calls == [] then []
    else
      var n := |calls| - 1;
      var p := Prepare(calls[n], envs[n]);
      PreflightEvents(calls[..n], envs[..n]) + [StartEvent(calls[n])]
      + if p.Immediate? then OutcomeEvents(calls[n], Some(p.output), true) else []
  }

  /** Positions of the calls that are refused (`refused`) or runnable (`!refused`), in source order. */
  function Positions(calls: seq<ToolCall>, envs: seq<ToolEnv>, refused: bool): (ps: seq<nat>)
    requires |envs| == |calls|
    ensures forall k :: 0 <= k < |ps| ==> ps[k] < |calls|
    ensures forall k :: 0 <= k < |ps| ==> Prepare(calls[ps[k]], envs[ps[k]]).Immediate? == refused
  {
    if calls == [] then []
    else
      var n := |calls| - 1;
      Positions(calls[..n], envs[..n], refused) + if Prepare(calls[n], envs[n]).Immediate? == refused then [n] else []
  }

  function ImmediateResults(calls: seq<ToolCall>, envs: seq<ToolEnv>): seq<Message>
    requires |envs| == |calls|
  {
    var ps := Positions(calls, envs, true);
    seq(|ps|, k requires 0 <= k < |ps| => ResultMessage(calls[ps[k]], Some(Prepare(calls[ps[k]], envs[ps[k]]).output), true))
  }

  /** The batch handed to the scheduler: runnable call `k` gets index `k`; no host, server or dependency is ever set. */
  function Batch(calls: seq<ToolCall>, envs: seq<ToolEnv>): (batch: seq<Sched.Call>)
    requires |envs| == |calls|
    ensures |batch| == |Positions(calls, envs, false)|
    ensures forall k :: 0 <= k < |batch| ==> batch[k].index == k
  {
    var ps := Positions(calls, envs, false);
    seq(|ps|, k requires 0 <= k < |ps| =>
      Sched.Call(k, calls[ps[k]].id, calls[ps[k]].name, envs[ps[k]].effects, Some(envs[ps[k]].concurrencySafe),
                 None, None, None, None, Executed(envs[ps[k]])))
  }

  function BatchPlan(calls: seq<ToolCall>, envs: seq<ToolEnv>): SchedulerRun.Plan
    requires |envs| == |calls|
  {
    SchedulerRun.MakePlan(Batch(calls, envs), Slots.DEFAULT_LIMITS, 0)
  }

  /** The environment of one reply's calls. In parallel mode `finished` is the scheduler state its run ends in, and
      `updates` are the progress reports of the runnable calls, by position in the batch, as they interleave. */
  datatype ToolTurn = ToolTurn(envs: seq<ToolEnv>, updates: seq<(nat, string)>, finished: SchedulerRun.State)

  predicate IsPlanOf(plan: SchedulerRun.Plan, calls: seq<ToolCall>, envs: seq<ToolEnv>)
    requires |envs| == |calls|
  {
    plan == BatchPlan(calls, envs)
  }

  /** The scheduler's run of a plan can end in this state. */
  ghost predicate EndsIn(plan: SchedulerRun.Plan, finished: SchedulerRun.State) {
    SchedulerRun.Reachable(plan, finished) && SchedulerRun.Final(plan, finished)
  }

  ghost predicate ParallelOk(calls: seq<ToolCall>, turn: ToolTurn) {
    && |turn.envs| == |calls|
    && (forall plan :: IsPlanOf(plan, calls, turn.envs) ==> EndsIn(plan, turn.finished))
    && forall k :: 0 <= k < |turn.updates| ==> turn.updates[k].0 < |Positions(calls, turn.envs, false)|
  }

  function ParallelUpdates(calls: seq<ToolCall>, envs: seq<ToolEnv>, updates: seq<(nat, string)>): seq<Event>
    requires |envs| == |calls|
    requires forall k :: 0 <= k < |updates| ==> updates[k].0 < |Positions(calls, envs, false)|
  {
    var ps := Positions(calls, envs, false);
    seq(|updates|, k requires 0 <= k < |updates| =>
      ToolUpdate(calls[ps[updates[k].0]].id, calls[ps[updates[k].0]].name, updates[k].1))
  }

  /** `scheduled.result` as a tool result: a plain string, as a cancelled call has, carries no content. */
  function ScheduledOutput(r: WavePool.Result): Option<string> {
    match r.payload
    case Value(v) => Some(v)
    case Text(_) => None
  }

  /** `runnableCalls[scheduled.index]`, where the index is one of the batch. */
  function OwnerOf(ps: seq<nat>, r: WavePool.Result): nat
    requires 0 <= r.index < |ps|
  {
    ps[r.index]
  }

  predicate IndicesOk(results: seq<WavePool.Result>, n: nat) {
    forall k :: 0 <= k < |results| ==> 0 <= results[k].index < n
  }

  function ScheduledOutcome(env: ToolEnv, r: WavePool.Result): (Option<string>, bool) {
    Finalized(env, ScheduledOutput(r), r.isError)
  }

  function ScheduledResults(calls: seq<ToolCall>, envs: seq<ToolEnv>, results: seq<WavePool.Result>): seq<Message>
    requires |envs| == |calls| && IndicesOk(results, |Positions(calls, envs, false)|)
  {
    var ps := Positions(calls, envs, false);
    seq(|results|, k requires 0 <= k < |results| =>
      var p := OwnerOf(ps, results[k]);
      ResultMessage(calls[p], ScheduledOutcome(envs[p], results[k]).0, ScheduledOutcome(envs[p], results[k]).1))
  }

  function ScheduledEvents(calls: seq<ToolCall>, envs: seq<ToolEnv>, results: seq<WavePool.Result>): seq<Event>
    requires |envs| == |calls| && IndicesOk(results, |Positions(calls, envs, false)|)
  {
    if results == [] then []
    else
      var n := |results| - 1;
      var p := OwnerOf(Positions(calls, envs, false), results[n]);
      var (output, isError) := ScheduledOutcome(envs[p], results[n]);
      ScheduledEvents(calls, envs, results[..n]) + OutcomeEvents(calls[p], output, isError)
  }

  function ParallelResults(calls: seq<ToolCall>, turn: ToolTurn): seq<Message>
    requires |turn.envs| == |calls|
    requires IndicesOk(SchedulerRun.Output(turn.finished), |Positions(calls, turn.envs, false)|)
  {
    ImmediateResults(calls, turn.envs) + ScheduledResults(calls, turn.envs, SchedulerRun.Output(turn.finished))
  }

  function ParallelEvents(calls: seq<ToolCall>, turn: ToolTurn): seq<Event>
    requires |turn.envs| == |calls|
    requires IndicesOk(SchedulerRun.Output(turn.finished), |Positions(calls, turn.envs, false)|)
    requires forall k :: 0 <= k < |turn.updates| ==> turn.updates[k].0 < |Positions(calls, turn.envs, false)|
  {
    PreflightEvents(calls, turn.envs)
    + ParallelUpdates(calls, turn.envs, turn.updates)
    + ScheduledEvents(calls, turn.envs, SchedulerRun.Output(turn.finished))
  }

  // ----- What the scheduler hands back -----

  lemma BatchSorted(batch: seq<Sched.Call>)
    requires forall k :: 0 <= k < |batch| ==> batch[k].index == k
    ensures SchedulerRun.SortCalls(batch) == batch && ExactlyOnce.DistinctIndices(batch)
  {
    ExactlyOnce.ResultLeqPreorder();
    ExactlyOnce.SortOfOrdered(batch);
  }

  /** Scheduled result `k` belongs to runnable call `k`, whatever the schedule. */
  lemma ScheduledInOrder(calls: seq<ToolCall>, turn: ToolTurn, k: nat)
    requires ParallelOk(calls, turn)
    ensures var ps := Positions(calls, turn.envs, false);
      var out := SchedulerRun.Output(turn.finished);
      && |out| == |ps|
      && (k < |out| ==> out[k].index == k && out[k].toolCallId == calls[ps[k]].id)
  {
    var batch := Batch(calls, turn.envs);
    assert IsPlanOf(BatchPlan(calls, turn.envs), calls, turn.envs);
    BatchSorted(batch);
    ExactlyOnce.ReportedOnce(batch, Slots.DEFAULT_LIMITS, 0, turn.finished);
    if k < |batch| {
      WaveProperties.WaveIndexCorrect(batch, k);
      ExactlyOnce.OrderedResults(batch, Slots.DEFAULT_LIMITS, 0, turn.finished, k, WaveProperties.WaveIndex(batch, k));
    }
  }
}
