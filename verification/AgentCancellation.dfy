// What an abort during a parallel batch does to the tool results of a reply.

module AgentCancellation {
  import opened Wrappers
  import opened Messages
  import opened AgentTools
  import opened AgentToolProofs
  import WavePool
  import WaveProperties
  import SchedulerRun
  import ExactlyOnce
  import Slots
  import PoolSafety

  /** `afterToolCall` gives the result other content. */
  predicate Replaced(env: ToolEnv) {
    env.after.Some? && env.after.value.output.Some?
  }

  /** The report of runnable call `k`, had it been cancelled in the queue of the scheduler. */
  function CancelledReport(calls: seq<ToolCall>, envs: seq<ToolEnv>, k: nat): WavePool.Result
    requires |envs| == |calls| && k < |Positions(calls, envs, false)|
  {
    var batch := Batch(calls, envs);
    WavePool.CancelledResult(batch[k], WaveProperties.WaveIndex(batch, k) + 1)
  }

  /** The tool result message of runnable call `k`. */
  ghost function ResultOf(calls: seq<ToolCall>, turn: ToolTurn, k: nat): Message
    requires ParallelOk(calls, turn) && k < |Positions(calls, turn.envs, false)|
  {
    ParallelIndices(calls, turn);
    ParallelResults(calls, turn)[|ImmediateResults(calls, turn.envs)| + k]
  }

  /** What the scheduler reports for runnable call `k`: what the call returned, or, once aborted, that it was cancelled. */
  lemma Reports(calls: seq<ToolCall>, turn: ToolTurn, k: nat)
    requires ParallelOk(calls, turn) && k < |Positions(calls, turn.envs, false)|
    ensures var ps, out := Positions(calls, turn.envs, false), SchedulerRun.Output(turn.finished);
      && |out| == |ps|
      && (out[k] == CancelledReport(calls, turn.envs, k) ==> turn.finished.aborted)
      && (out[k] != CancelledReport(calls, turn.envs, k) ==>
            !out[k].cancelled && out[k].payload == WavePool.Value(Executed(turn.envs[ps[k]]).value)
            && out[k].isError == Executed(turn.envs[ps[k]]).isError)
  {
    hide SchedulerRun.Reachable, SchedulerRun.Final, SchedulerRun.Output, SchedulerRun.SortCalls;
    hide WaveProperties.InWave, WaveProperties.WaveIndex;
    var batch := Batch(calls, turn.envs);
    assert IsPlanOf(BatchPlan(calls, turn.envs), calls, turn.envs);
    BatchSorted(batch);
    WaveProperties.WaveIndexCorrect(batch, k);
    ExactlyOnce.OrderedResults(batch, Slots.DEFAULT_LIMITS, 0, turn.finished, k, WaveProperties.WaveIndex(batch, k));
  }

  /** A cancelled call gets a tool result without content. In parallel mode, whatever the schedule and the abort point, the
      result of a runnable call has no content if and only if the scheduler cancelled the call and `afterToolCall` puts
      nothing in its place; that takes an abort. */
  lemma NoContentExactly(calls: seq<ToolCall>, turn: ToolTurn, k: nat)
    requires ParallelOk(calls, turn) && k < |Positions(calls, turn.envs, false)|
    ensures var ps, out := Positions(calls, turn.envs, false), SchedulerRun.Output(turn.finished);
      var m := ResultOf(calls, turn, k);
      && m.ToolResult? && m.toolCallId == calls[ps[k]].id
      && |out| == |ps|
      && (m.output == None <==> out[k] == CancelledReport(calls, turn.envs, k) && !Replaced(turn.envs[ps[k]]))
      && (m.output == None ==> turn.finished.aborted)
      && (m.output == None && turn.envs[ps[k]].after == None ==> m.isError)
  {
    ParallelIndices(calls, turn);
    Reports(calls, turn, k);
    ScheduledInOrder(calls, turn, k);
  }
}
