// packages/agent/src/scheduler.ts: the scheduler as code, driven by a schedule of events.

module SchedulerObject {
  import opened Wrappers
  import opened Sequences
  import opened SchedulerCalls
  import opened Waves
  import opened WaveProperties
  import opened Slots
  import opened WavePool
  import opened PoolSafety
  import opened SchedulerRun
  import opened ExactlyOnce

  /** The limits a caller gives; the others keep their defaults. */
  datatype SomeLimits = SomeLimits(globalMax: Option<int>, perTool: Option<int>, perHost: Option<int>, perServer: Option<int>)

  function WithDefaults(some: SomeLimits): Limits {
    Limits(some.globalMax.GetOr(DEFAULT_LIMITS.globalMax), some.perTool.GetOr(DEFAULT_LIMITS.perTool),
           some.perHost.GetOr(DEFAULT_LIMITS.perHost), some.perServer.GetOr(DEFAULT_LIMITS.perServer))
  }

  class DeterministicParallelScheduler {
    const limits: Limits
    var groupSeq: nat

    constructor (some: SomeLimits)
      ensures limits == WithDefaults(some) && groupSeq == 0
      ensures limits.globalMax == some.globalMax.GetOr(8) && limits.perTool == some.perTool.GetOr(4)
      ensures limits.perHost == some.perHost.GetOr(3) && limits.perServer == some.perServer.GetOr(2)
    {
      limits := Limits(some.globalMax.GetOr(8), some.perTool.GetOr(4), some.perHost.GetOr(3), some.perServer.GetOr(2));
      groupSeq := 0;
    }

    /** One event of the schedule: a timer fires or a call settles, or the signal is aborted. An event that cannot happen
        now is passed over. */
    method Happen(event: Label, runner: Runner, aborted: bool, ghost plan: Plan, ghost s: State)
      returns (aborted': bool, ghost s': State)
      requires s.pos < |plan.waves| && runner.job == JobOf(plan, s.pos) && runner.Indexed()
      requires s == State(s.pos, runner.View(), aborted, s.done)
      modifies runner, runner.slots
      ensures s' == State(s.pos, runner.View(), aborted', s.done) && runner.Indexed()
      ensures if event.Advance? || !Enabled(plan, s, event) then s' == s else s' == Apply(plan, s, event)
    {
      aborted' := aborted;
      s' := s;
      match event {
        case Abort => aborted' := true;
        case Poll(w) =>
          if w < |runner.workers| && runner.workers[w].Polling? {
            runner.Poll(aborted, w);
          }
        case Begin(w) =>
          if w < |runner.workers| && runner.workers[w].Ready? {
            runner.BeginCall(aborted, w);
          }
        case Finish(w) =>
          if w < |runner.workers| && runner.workers[w].Running? {
            runner.FinishCall(aborted, w);
          }
        case Advance =>
      }
      s' := State(s.pos, runner.View(), aborted', s.done);
    }

    /** `runWave`: the workers run until all have returned, or the schedule is used up. `taken` is the schedule so far. */
    method RunWave(wave: seq<Call>, group: nat, aborted: bool, schedule: seq<Label>, from: nat,
                   ghost plan: Plan, ghost start: State, ghost s: State, ghost taken: seq<Label>)
      returns (results: seq<Result>, aborted': bool, i: nat, finished: bool, ghost s': State, ghost taken': seq<Label>)
      requires s.pos < |plan.waves| && JobOf(plan, s.pos) == Job(wave, limits, group) && from <= |schedule|
      requires s == Enter(plan, s.pos, aborted, s.done) && Leads(plan, start, taken, s)
      ensures from <= i <= |schedule| && s'.pos == s.pos && s'.done == s.done && s'.aborted == aborted'
      ensures Leads(plan, start, taken', s')
      ensures finished ==> Enabled(plan, s', Advance) && results == s'.pool.results
    {
      var runner := new Runner(Job(wave, limits, group));
      runner.LaunchWorkers(aborted);
      aborted', i, s', taken' := aborted, from, s, taken;
      while !AllExited(runner.View())
        invariant from <= i <= |schedule| && runner.Indexed() && fresh(runner) && fresh(runner.slots)
        invariant s' == State(s.pos, runner.View(), aborted', s.done) && Leads(plan, start, taken', s')
        decreases |schedule| - i
      {
        if i == |schedule| {
          return [], aborted', i, false, s', taken';
        }
        ghost var before := s';
        aborted', s' := Happen(schedule[i], runner, aborted', plan, before);
        if s' != before {
          LeadsSnoc(plan, start, taken', before, schedule[i]);
          taken' := taken' + [schedule[i]];
        }
        i := i + 1;
      }
      results := runner.results;
      finished := true;
    }

    /** `run`. When the schedule reaches the end of the run, each call is reported once, in order of index. */
    method Run(calls: seq<Call>, aborted: bool, schedule: seq<Label>)
      returns (results: seq<Result>, finished: bool, ghost s: State)
      modifies this
      ensures Reachable(MakePlan(calls, limits, old(groupSeq)), s)
      ensures finished ==> Final(MakePlan(calls, limits, old(groupSeq)), s) && results == Output(s)
      ensures finished ==> groupSeq == old(groupSeq) + |Partition(SortCalls(calls))|
      ensures finished ==> |results| == |calls| && forall tag :: ResultCount(results, tag) == CallCount(calls, tag)
      ensures finished ==> forall i, j :: 0 <= i < j < |results| ==> results[i].index <= results[j].index
    {
      var waves := PartitionWaves(SortCalls(calls));
      ghost var plan := MakePlan(calls, limits, groupSeq);
      ghost var start := Init(plan, aborted);
      ghost var taken: seq<Label> := [];
      var allResults: seq<Result> := [];
      var signal, i := aborted, 0;
      s := start;
      for k := 0 to |waves|
        invariant groupSeq == old(groupSeq) + k && i <= |schedule|
        invariant s == Enter(plan, k, signal, allResults) && Leads(plan, start, taken, s)
      {
        groupSeq := groupSeq + 1;
        var waveResults, done;
        ghost var end, taken';
        waveResults, signal, i, done, end, taken' := RunWave(waves[k], groupSeq, signal, schedule, i, plan, start, s, taken);
        if !done {
          ReachedBy(plan, aborted, taken', end);
          return [], false, end;
        }
        LeadsSnoc(plan, start, taken', end, Advance);
        taken := taken' + [Advance];
        s := Apply(plan, end, Advance);
        allResults := allResults + SortResults(waveResults);
      }
      ReachedBy(plan, aborted, taken, s);
      results := SortResults(allResults);
      finished := true;
      ReportedOnce(calls, limits, old(groupSeq), s);
    }
  }

  lemma ReachedBy(plan: Plan, aborted: bool, labels: seq<Label>, s: State)
    requires Leads(plan, Init(plan, aborted), labels, s)
    ensures Reachable(plan, s)
  {
    ReachableBySchedule(plan, s);
    assert Scheduled(plan, s);
  }
}
