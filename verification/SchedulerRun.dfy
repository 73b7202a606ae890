// packages/agent/src/scheduler.ts: `run` as a transition system over whole batches.

module SchedulerRun {
  import opened Wrappers
  import opened Sequences
  import opened Sorting
  import opened SchedulerCalls
  import opened Waves
  import opened WaveProperties
  import opened Slots
  import opened WavePool
  import opened PoolSafety

  /** A partitioned batch. `groupSeq` is the scheduler's counter when `run` is called. */
  datatype Plan = Plan(waves: seq<seq<Call>>, limits: Limits, groupSeq: nat)

  /** `pos` waves are complete; `pool` runs wave `pos`; `done` is `allResults`. */
  datatype State = State(pos: nat, pool: Pool, aborted: bool, done: seq<Result>)

  datatype Label = Poll(w: nat) | Begin(w: nat) | Finish(w: nat) | Advance | Abort

  function CallLeq(): (Call, Call) -> bool { (a: Call, b: Call) => a.index <= b.index }

  function ResultLeq(): (Result, Result) -> bool { (a: Result, b: Result) => a.index <= b.index }

  function SortCalls(calls: seq<Call>): seq<Call> { Sort(CallLeq(), calls) }

  function SortResults(results: seq<Result>): seq<Result> { Sort(ResultLeq(), results) }

  function MakePlan(calls: seq<Call>, limits: Limits, groupSeq: nat): Plan {
    Plan(Partition(SortCalls(calls)), limits, groupSeq)
  }

  function JobOf(plan: Plan, k: nat): Job
    requires k < |plan.waves|
  {
    Job(plan.waves[k], plan.limits, plan.groupSeq + k + 1)
  }

  const IDLE := Pool(0, [], NO_SLOTS, [])

  /** The next wave starts at once when the previous one has been collected. */
  function Enter(plan: Plan, k: nat, aborted: bool, done: seq<Result>): State {
    State(k, if k < |plan.waves| then Launch(JobOf(plan, k), aborted) else IDLE, aborted, done)
  }

  function Init(plan: Plan, aborted: bool): State {
    Enter(plan, 0, aborted, [])
  }

  predicate Final(plan: Plan, s: State) {
    s.pos >= |plan.waves|
  }

  /** What `run` returns from a final state. */
  function Output(s: State): seq<Result> {
    SortResults(s.done)
  }

  predicate AllExited(p: Pool) {
    forall w :: 0 <= w < |p.workers| ==> p.workers[w].Exited?
  }

  predicate WorkerAt(plan: Plan, s: State, w: nat) {
    s.pos < |plan.waves| && w < |s.pool.workers| && !s.pool.workers[w].Exited?
    && s.pool.workers[w].i < |plan.waves[s.pos]|
  }

  predicate Enabled(plan: Plan, s: State, l: Label) {
    match l
    case Poll(w) => WorkerAt(plan, s, w) && s.pool.workers[w].Polling?
    case Begin(w) => WorkerAt(plan, s, w) && s.pool.workers[w].Ready?
    case Finish(w) => WorkerAt(plan, s, w) && s.pool.workers[w].Running?
    case Advance => s.pos < |plan.waves| && AllExited(s.pool)
    case Abort => !s.aborted
  }

  function Apply(plan: Plan, s: State, l: Label): State
    requires Enabled(plan, s, l)
  {
    match l
    case Poll(w) => s.(pool := Check(JobOf(plan, s.pos), s.aborted, s.pool, w, s.pool.workers[w].i))
    case Begin(w) => s.(pool := WavePool.Begin(JobOf(plan, s.pos), s.aborted, s.pool, w))
    case Finish(w) => s.(pool := WavePool.Finish(JobOf(plan, s.pos), s.aborted, s.pool, w))
    case Advance => Enter(plan, s.pos + 1, s.aborted, s.done + SortResults(s.pool.results))
    case Abort => s.(aborted := true)
  }

  /** `labels` is a schedule that leads from `s` to `t`. */
  predicate Leads(plan: Plan, s: State, labels: seq<Label>, t: State)
    decreases |labels|
  {
    if labels == [] then s == t
    else Enabled(plan, s, labels[0]) && Leads(plan, Apply(plan, s, labels[0]), labels[1..], t)
  }

  /** A set of states that no step leaves and that holds the initial states. */
  ghost predicate Closed(plan: Plan, states: iset<State>) {
    && (forall aborted :: Init(plan, aborted) in states)
    && (forall s, l :: s in states && Enabled(plan, s, l) ==> Apply(plan, s, l) in states)
  }

  /** Reachable: in every closed set. `ReachableBySchedule` gives the equivalent form with a schedule. */
  ghost predicate Reachable(plan: Plan, s: State) {
    forall states: iset<State> :: Closed(plan, states) ==> s in states
  }

  // ----- The invariant of whole runs -----

  ghost predicate RunInv(plan: Plan, s: State) {
    && s.pos <= |plan.waves|
    && (s.pos < |plan.waves| ==>
          && Inv(JobOf(plan, s.pos), s.aborted, s.pool)
          && |s.pool.workers| == SlotLimit(JobOf(plan, s.pos)))
    && (forall tag :: ResultCount(s.done, tag) == CallCount(Flatten(plan.waves[..s.pos]), tag))
  }

  lemma {:induction false} CallCountConcat(a: seq<Call>, b: seq<Call>, tag: Tag)
    ensures CallCount(a + b, tag) == CallCount(a, tag) + CallCount(b, tag)
  {
    if b == [] {
      assert a + b == a;
    } else {
      CallCountConcat(a, b[..|b| - 1], tag);
      assert (a + b)[..|a + b| - 1] == a + b[..|b| - 1];
    }
  }

  lemma {:induction false} ResultCountConcat(a: seq<Result>, b: seq<Result>, tag: Tag)
    ensures ResultCount(a + b, tag) == ResultCount(a, tag) + ResultCount(b, tag)
  {
    if b == [] {
      assert a + b == a;
    } else {
      ResultCountConcat(a, b[..|b| - 1], tag);
      assert (a + b)[..|a + b| - 1] == a + b[..|b| - 1];
    }
  }

  lemma {:induction false} ResultCountMultiset(rs: seq<Result>, tag: Tag)
    ensures ResultCount(rs, tag) == multiset(Map(ResultTag, rs))[tag]
  {
    if rs != [] {
      var n := |rs| - 1;
      ResultCountMultiset(rs[..n], tag);
      assert Map(ResultTag, rs) == Map(ResultTag, rs[..n]) + [ResultTag(rs[n])];
    }
  }

  lemma {:induction false} CallCountMultiset(cs: seq<Call>, tag: Tag)
    ensures CallCount(cs, tag) == multiset(Map(CallTag, cs))[tag]
  {
    if cs != [] {
      var n := |cs| - 1;
      CallCountMultiset(cs[..n], tag);
      assert Map(CallTag, cs) == Map(CallTag, cs[..n]) + [CallTag(cs[n])];
    }
  }

  lemma SortKeepsCount(rs: seq<Result>, tag: Tag)
    ensures ResultCount(SortResults(rs), tag) == ResultCount(rs, tag)
  {
    SortPermutes(ResultLeq(), rs);
    MapMultiset(ResultTag, SortResults(rs), rs);
    ResultCountMultiset(SortResults(rs), tag);
    ResultCountMultiset(rs, tag);
  }

  /** No worker has anything in hand. */
  lemma {:induction false} NothingPending(job: Job, workers: seq<Phase>, tag: Tag)
    requires forall w :: 0 <= w < |workers| ==> workers[w].Exited?
    ensures Pending(job, workers, tag) == 0
  {
    if workers != [] {
      NothingPending(job, workers[..|workers| - 1], tag);
    }
  }

  /** A wave ends with one report for each of its calls. */
  lemma WaveComplete(job: Job, aborted: bool, p: Pool, tag: Tag)
    requires Inv(job, aborted, p) && p.workers != [] && AllExited(p)
    ensures ResultCount(p.results, tag) == CallCount(job.wave, tag)
  {
    NothingPending(job, p.workers, tag);
    assert p.workers[0].Exited?;
    assert Claimed(job, p.next) == job.wave;
    assert ResultCount(p.results, tag) + Pending(job, p.workers, tag) == CallCount(Claimed(job, p.next), tag);
  }

  lemma EnterKeeps(plan: Plan, k: nat, aborted: bool, done: seq<Result>)
    requires k <= |plan.waves|
    requires forall tag :: ResultCount(done, tag) == CallCount(Flatten(plan.waves[..k]), tag)
    ensures RunInv(plan, Enter(plan, k, aborted, done))
  {
    if k < |plan.waves| {
      LaunchedKeeps(JobOf(plan, k), aborted, SlotLimit(JobOf(plan, k)));
    }
  }

  lemma AdvanceKeeps(plan: Plan, s: State)
    requires RunInv(plan, s) && Enabled(plan, s, Advance)
    ensures RunInv(plan, Apply(plan, s, Advance))
  {
    var sorted := SortResults(s.pool.results);
    var job := JobOf(plan, s.pos);
    forall tag
      ensures ResultCount(s.done + sorted, tag) == CallCount(Flatten(plan.waves[..s.pos + 1]), tag)
    {
      ResultCountConcat(s.done, sorted, tag);
      SortKeepsCount(s.pool.results, tag);
      WaveComplete(job, s.aborted, s.pool, tag);
      assert plan.waves[..s.pos + 1][..s.pos] == plan.waves[..s.pos];
      CallCountConcat(Flatten(plan.waves[..s.pos]), plan.waves[s.pos], tag);
    }
    EnterKeeps(plan, s.pos + 1, s.aborted, s.done + sorted);
  }

  lemma StepKeeps(plan: Plan, s: State, l: Label)
    requires RunInv(plan, s) && Enabled(plan, s, l)
    ensures RunInv(plan, Apply(plan, s, l))
  {
    match l
    case Poll(w) => PollKeeps(JobOf(plan, s.pos), s.aborted, s.pool, w);
    case Begin(w) => BeginKeeps(JobOf(plan, s.pos), s.aborted, s.pool, w);
    case Finish(w) => FinishKeeps(JobOf(plan, s.pos), s.aborted, s.pool, w);
    case Advance => AdvanceKeeps(plan, s);
    case Abort =>
      if s.pos < |plan.waves| {
        AbortKeeps(JobOf(plan, s.pos), s.pool);
      }
  }

  lemma ReachableInv(plan: Plan, s: State)
    requires Reachable(plan, s)
    ensures RunInv(plan, s)
  {
    var states := iset t | RunInv(plan, t);
    assert Flatten(plan.waves[..0]) == [];
    forall aborted ensures Init(plan, aborted) in states {
      EnterKeeps(plan, 0, aborted, []);
    }
    forall t, l | t in states && Enabled(plan, t, l) ensures Apply(plan, t, l) in states {
      StepKeeps(plan, t, l);
    }
    assert Closed(plan, states);
  }

  lemma {:induction false} LeadsSnoc(plan: Plan, s: State, labels: seq<Label>, t: State, l: Label)
    requires Leads(plan, s, labels, t) && Enabled(plan, t, l)
    ensures Leads(plan, s, labels + [l], Apply(plan, t, l))
    decreases |labels|
  {
    if labels == [] {
      assert [l][1..] == [];
    } else {
      LeadsSnoc(plan, Apply(plan, s, labels[0]), labels[1..], t, l);
      assert (labels + [l])[1..] == labels[1..] + [l];
    }
  }

  lemma ReachableStep(plan: Plan, s: State, l: Label)
    requires Reachable(plan, s) && Enabled(plan, s, l)
    ensures Reachable(plan, Apply(plan, s, l))
  {
  }

  lemma {:induction false} LeadsReachable(plan: Plan, s: State, labels: seq<Label>, t: State)
    requires Reachable(plan, s) && Leads(plan, s, labels, t)
    ensures Reachable(plan, t)
    decreases |labels|
  {
    if labels != [] {
      ReachableStep(plan, s, labels[0]);
      LeadsReachable(plan, Apply(plan, s, labels[0]), labels[1..], t);
    }
  }

  ghost predicate Scheduled(plan: Plan, s: State) {
    exists aborted, labels :: Leads(plan, Init(plan, aborted), labels, s)
  }

  lemma ScheduledClosed(plan: Plan)
    ensures Closed(plan, iset t | Scheduled(plan, t))
  {
    forall aborted ensures Scheduled(plan, Init(plan, aborted)) {
      assert Leads(plan, Init(plan, aborted), [], Init(plan, aborted));
    }
    forall t, l | Scheduled(plan, t) && Enabled(plan, t, l) ensures Scheduled(plan, Apply(plan, t, l)) {
      ScheduledStep(plan, t, l);
    }
  }

  lemma ScheduledStep(plan: Plan, t: State, l: Label)
    requires Scheduled(plan, t) && Enabled(plan, t, l)
    ensures Scheduled(plan, Apply(plan, t, l))
  {
    var aborted, labels :| Leads(plan, Init(plan, aborted), labels, t);
    LeadsSnoc(plan, Init(plan, aborted), labels, t, l);
    assert Leads(plan, Init(plan, aborted), labels + [l], Apply(plan, t, l));
  }

  /** A state is reachable exactly when some schedule leads to it from a start, aborted or not. */
  lemma ReachableBySchedule(plan: Plan, s: State)
    ensures Reachable(plan, s) <==> Scheduled(plan, s)
  {
    ScheduledClosed(plan);
    if Scheduled(plan, s) {
      var aborted, labels :| Leads(plan, Init(plan, aborted), labels, s);
      assert Reachable(plan, Init(plan, aborted));
      LeadsReachable(plan, Init(plan, aborted), labels, s);
    } else {
      assert s !in iset t | Scheduled(plan, t);
    }
  }
}
