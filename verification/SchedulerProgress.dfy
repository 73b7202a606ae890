// Termination and freedom from deadlock of `run`, and the exact condition on the limits.

module SchedulerProgress {
  import opened Wrappers
  import opened Sequences
  import opened SchedulerCalls
  import opened Slots
  import opened WavePool
  import opened PoolSafety
  import opened SchedulerRun

  // ----- Every step that changes anything makes the measure smaller -----

  function Weight(phase: Phase): nat {
    match phase
    case Polling(_) => 3
    case Ready(_, _) => 2
    case Running(_) => 1
    case Exited => 0
  }

  function Weights(workers: seq<Phase>): nat {
    if workers == [] then 0 else Weights(workers[..|workers| - 1]) + Weight(workers[|workers| - 1])
  }

  lemma {:induction false} WeightsUpdate(workers: seq<Phase>, w: nat, phase: Phase)
    requires w < |workers|
    ensures Weights(workers[w := phase]) + Weight(workers[w]) == Weights(workers) + Weight(phase)
  {
    var n := |workers| - 1;
    if w < n {
      WeightsUpdate(workers[..n], w, phase);
      assert workers[w := phase][..n] == workers[..n][w := phase];
    } else {
      assert workers[w := phase][..n] == workers[..n];
    }
  }

  function PoolMeasure(job: Job, p: Pool): nat {
    Weights(p.workers) + 4 * (|job.wave| - Min(p.next, |job.wave|))
  }

  function LaterMeasure(plan: Plan, k: nat): nat
    decreases |plan.waves| - k
  {
    if k >= |plan.waves| then 0 else 4 * |plan.waves[k]| + 1 + LaterMeasure(plan, k + 1)
  }

  function Measure(plan: Plan, s: State): nat {
    (if s.aborted then 0 else 1)
    + (if s.pos < |plan.waves| then PoolMeasure(JobOf(plan, s.pos), s.pool) + 1 + LaterMeasure(plan, s.pos + 1) else 0)
  }

  lemma ClaimMeasure(job: Job, aborted: bool, p: Pool, w: nat)
    requires w < |p.workers|
    ensures PoolMeasure(job, Claim(job, aborted, p, w)) + Weight(p.workers[w]) <= PoolMeasure(job, p)
    ensures p.next < |job.wave| ==>
      PoolMeasure(job, Claim(job, aborted, p, w)) + Weight(p.workers[w]) < PoolMeasure(job, p)
  {
    WeightsUpdate(p.workers, w, Claim(job, aborted, p, w).workers[w]);
  }

  lemma {:induction false} LaunchMeasure(job: Job, aborted: bool, n: nat)
    ensures PoolMeasure(job, Launched(job, aborted, n)) <= 4 * |job.wave|
  {
    if n > 0 {
      LaunchMeasure(job, aborted, n - 1);
      var p := Launched(job, aborted, n - 1);
      var q := p.(workers := p.workers + [Exited]);
      assert q.workers[..n - 1] == p.workers;
      ClaimMeasure(job, aborted, q, n - 1);
    }
  }

  lemma EnterMeasure(plan: Plan, k: nat, aborted: bool, done: seq<Result>)
    ensures Measure(plan, Enter(plan, k, aborted, done)) <= (if aborted then 0 else 1) + LaterMeasure(plan, k)
  {
    if k < |plan.waves| {
      LaunchMeasure(JobOf(plan, k), aborted, SlotLimit(JobOf(plan, k)));
    }
  }

  lemma WorkerStepMeasure(plan: Plan, s: State, l: Label)
    requires Enabled(plan, s, l) && (l.Begin? || l.Finish?)
    ensures Measure(plan, Apply(plan, s, l)) < Measure(plan, s)
  {
    var job := JobOf(plan, s.pos);
    var p := s.pool;
    var w := l.w;
    var i := p.workers[w].i;
    if l.Begin? && !s.aborted {
      WeightsUpdate(p.workers, w, Running(i));
    } else {
      var r := if l.Begin? then CancelledResult(job.wave[i], job.group) else SettledResult(job.wave[i], job.group, s.aborted);
      ClaimMeasure(job, s.aborted, p.(counters := Release(job.wave[i], p.counters), results := p.results + [r]), w);
    }
  }

  /** Termination: a step either changes nothing, as only a failed poll does, or lowers the measure. */
  lemma StepDecreases(plan: Plan, s: State, l: Label)
    requires Enabled(plan, s, l)
    ensures Measure(plan, Apply(plan, s, l)) < Measure(plan, s) || (Apply(plan, s, l) == s && l.Poll?)
  {
    match l
    case Poll(w) =>
      WeightsUpdate(s.pool.workers, w, Apply(plan, s, l).pool.workers[w]);
      assert s.pool.workers[w := Polling(s.pool.workers[w].i)] == s.pool.workers;
    case Begin(_) => WorkerStepMeasure(plan, s, l);
    case Finish(_) => WorkerStepMeasure(plan, s, l);
    case Advance => EnterMeasure(plan, s.pos + 1, s.aborted, s.done + SortResults(s.pool.results));
    case Abort =>
  }

  /** The number of steps of a schedule that change the state. */
  function Moves(plan: Plan, s: State, labels: seq<Label>, t: State): nat
    requires Leads(plan, s, labels, t)
    decreases |labels|
  {
    if labels == [] then 0
    else
      var s' := Apply(plan, s, labels[0]);
      (if s' == s then 0 else 1) + Moves(plan, s', labels[1..], t)
  }

  /** However a schedule interleaves, its moves are bounded by the measure it starts with. */
  lemma {:induction false} BoundedMoves(plan: Plan, s: State, labels: seq<Label>, t: State)
    requires Leads(plan, s, labels, t)
    ensures Moves(plan, s, labels, t) + Measure(plan, t) <= Measure(plan, s)
    decreases |labels|
  {
    if labels != [] {
      StepDecreases(plan, s, labels[0]);
      BoundedMoves(plan, Apply(plan, s, labels[0]), labels[1..], t);
    }
  }

  // ----- No deadlock -----

  /** A step of `run` itself that changes the state. */
  predicate Productive(plan: Plan, s: State, l: Label) {
    !l.Abort? && Enabled(plan, s, l) && Apply(plan, s, l) != s
  }

  /** Every limit that some call of the plan counts against is at least one. */
  predicate LimitsAdmit(plan: Plan) {
    forall k, i, kind :: 0 <= k < |plan.waves| && 0 <= i < |plan.waves[k]| && Key(kind, plan.waves[k][i]).Some?
      ==> LimitOf(plan.limits, kind) >= 1
  }

  lemma {:induction false} NoHolders(job: Job, workers: seq<Phase>, kind: Kind, key: string)
    requires forall w :: 0 <= w < |workers| ==> workers[w].Polling? || workers[w].Exited?
    ensures Held(job, workers, kind, key) == 0
  {
    if workers != [] {
      NoHolders(job, workers[..|workers| - 1], kind, key);
    }
  }

  lemma PollSucceeds(plan: Plan, s: State, w: nat)
    requires RunInv(plan, s) && WorkerAt(plan, s, w) && s.pool.workers[w].Polling?
    requires forall v :: 0 <= v < |s.pool.workers| ==> s.pool.workers[v].Polling? || s.pool.workers[v].Exited?
    requires s.aborted || LimitsAdmit(plan)
    ensures Productive(plan, s, Poll(w))
  {
    var job := JobOf(plan, s.pos);
    var c := job.wave[s.pool.workers[w].i];
    if !s.aborted {
      forall kind ensures HasRoom(kind, c, s.pool.counters, job.limits) {
        if Key(kind, c).Some? {
          var key := Key(kind, c).value;
          NoHolders(job, s.pool.workers, kind, key);
          assert CounterOk(false, Get(s.pool.counters.Of(kind), key), Held(job, s.pool.workers, kind, key), LimitOf(job.limits, kind));
        }
      }
    }
    assert Apply(plan, s, Poll(w)).pool.workers[w].Ready?;
  }

  /** No deadlock: a reachable unfinished state has a productive step if the limits admit every call, and always
      after an abort. */
  lemma NoDeadlock(plan: Plan, s: State)
    requires Reachable(plan, s) && !Final(plan, s) && (s.aborted || LimitsAdmit(plan))
    ensures exists l :: Productive(plan, s, l)
  {
    ReachableInv(plan, s);
    var job := JobOf(plan, s.pos);
    if w :| 0 <= w < |s.pool.workers| && s.pool.workers[w].Running? {
      assert PhaseOk(job, s.aborted, s.pool.next, s.pool.workers[w]);
      WorkerStepMeasure(plan, s, Finish(w));
      assert Productive(plan, s, Finish(w));
    } else if w :| 0 <= w < |s.pool.workers| && s.pool.workers[w].Ready? {
      assert PhaseOk(job, s.aborted, s.pool.next, s.pool.workers[w]);
      WorkerStepMeasure(plan, s, Begin(w));
      assert Productive(plan, s, Begin(w));
    } else if w :| 0 <= w < |s.pool.workers| && s.pool.workers[w].Polling? {
      assert PhaseOk(job, s.aborted, s.pool.next, s.pool.workers[w]);
      PollSucceeds(plan, s, w);
    } else {
      assert Productive(plan, s, Advance);
    }
  }

  // ----- The condition is necessary -----

  /** Call `i` of wave `j` counts against a limit below one. */
  predicate Starved(plan: Plan, j: nat, i: nat, kind: Kind) {
    j < |plan.waves| && i < |plan.waves[j]| && Key(kind, plan.waves[j][i]).Some? && LimitOf(plan.limits, kind) < 1
  }

  /** Once claimed, a starved call polls for ever. */
  predicate StillPolling(p: Pool, i: nat) {
    p.next > i ==> exists w :: 0 <= w < |p.workers| && p.workers[w] == Polling(i)
  }

  predicate Stuck(s: State, j: nat, i: nat) {
    !s.aborted ==> s.pos <= j && (s.pos == j ==> StillPolling(s.pool, i))
  }

  lemma CannotTake(job: Job, p: Pool, i: nat, kind: Kind)
    requires i < |job.wave| && Inv(job, false, p) && Key(kind, job.wave[i]).Some? && LimitOf(job.limits, kind) < 1
    ensures !CanTake(job.wave[i], p.counters, job.limits)
  {
    var key := Key(kind, job.wave[i]).value;
    assert CounterOk(false, Get(p.counters.Of(kind), key), Held(job, p.workers, kind, key), LimitOf(job.limits, kind));
    assert !HasRoom(kind, job.wave[i], p.counters, job.limits);
  }

  lemma CannotTakeFrom(job: Job, p: Pool, i: nat, kind: Kind)
    requires i < |job.wave| && Key(kind, job.wave[i]).Some? && LimitOf(job.limits, kind) < 1
    requires forall k :: Positive(p.counters.Of(k))
    ensures !CanTake(job.wave[i], p.counters, job.limits)
  {
    assert Positive(p.counters.Of(kind));
    assert !HasRoom(kind, job.wave[i], p.counters, job.limits);
  }

  lemma ClaimStillPolling(job: Job, p: Pool, w: nat, i: nat, kind: Kind)
    requires w < |p.workers| && p.workers[w] != Polling(i) && StillPolling(p, i)
    requires i < |job.wave| && Key(kind, job.wave[i]).Some? && LimitOf(job.limits, kind) < 1
    requires forall k :: Positive(p.counters.Of(k))
    ensures StillPolling(Claim(job, false, p, w), i)
  {
    var p' := Claim(job, false, p, w);
    CannotTakeFrom(job, p, i, kind);
    if p.next == i {
      assert p'.workers[w] == Polling(i);
    } else if p.next > i {
      var v :| 0 <= v < |p.workers| && p.workers[v] == Polling(i);
      assert p'.workers[v] == Polling(i);
    }
  }

  lemma {:induction false} LaunchStillPolling(job: Job, n: nat, i: nat, kind: Kind)
    requires i < |job.wave| && Key(kind, job.wave[i]).Some? && LimitOf(job.limits, kind) < 1
    ensures StillPolling(Launched(job, false, n), i)
  {
    if n > 0 {
      LaunchStillPolling(job, n - 1, i, kind);
      LaunchedKeeps(job, false, n - 1);
      var p := Launched(job, false, n - 1);
      var q := p.(workers := p.workers + [Exited]);
      if p.next > i {
        var v :| 0 <= v < |p.workers| && p.workers[v] == Polling(i);
        assert q.workers[v] == Polling(i);
      }
      ClaimStillPolling(job, q, n - 1, i, kind);
    }
  }

  lemma CompleteStillPolling(job: Job, p: Pool, w: nat, i: nat, kind: Kind, own: nat, r: Result)
    requires w < |p.workers| && own < |job.wave| && p.workers[w] == Running(own) && StillPolling(p, i)
    requires i < |job.wave| && Key(kind, job.wave[i]).Some? && LimitOf(job.limits, kind) < 1
    requires Inv(job, false, p)
    ensures StillPolling(Complete(job, false, p, w, own, r), i)
  {
    var q := p.(counters := Release(job.wave[own], p.counters), results := p.results + [r]);
    ReleaseKeepsSlots(job, false, p, w, own);
    assert StillPolling(q, i);
    ClaimStillPolling(job, q, w, i, kind);
  }

  lemma PollStillPolling(job: Job, p: Pool, w: nat, i: nat, kind: Kind)
    requires w < |p.workers| && p.workers[w].Polling? && p.workers[w].i < |job.wave| && StillPolling(p, i)
    requires i < |job.wave| && Key(kind, job.wave[i]).Some? && LimitOf(job.limits, kind) < 1
    requires Inv(job, false, p)
    ensures StillPolling(Check(job, false, p, w, p.workers[w].i), i)
  {
    var p' := Check(job, false, p, w, p.workers[w].i);
    CannotTake(job, p, i, kind);
    if p.next > i {
      var v :| 0 <= v < |p.workers| && p.workers[v] == Polling(i);
      assert p'.workers[v] == Polling(i);
    }
  }

  lemma StepStuck(plan: Plan, s: State, l: Label, j: nat, i: nat, kind: Kind)
    requires RunInv(plan, s) && Starved(plan, j, i, kind) && Stuck(s, j, i) && Enabled(plan, s, l)
    ensures Stuck(Apply(plan, s, l), j, i)
  {
    if !s.aborted && s.pos < |plan.waves| {
      var job := JobOf(plan, s.pos);
      match l
      case Poll(w) =>
        if s.pos == j {
          PollStillPolling(job, s.pool, w, i, kind);
        }
      case Begin(w) =>
        if s.pos == j && s.pool.next > i {
          var v :| 0 <= v < |s.pool.workers| && s.pool.workers[v] == Polling(i);
          assert Apply(plan, s, l).pool.workers[v] == Polling(i);
        }
      case Finish(w) =>
        if s.pos == j {
          var own := s.pool.workers[w].i;
          CompleteStillPolling(job, s.pool, w, i, kind, own, SettledResult(job.wave[own], job.group, false));
        }
      case Advance =>
        assert s.pool.workers[0].Exited?;
        if s.pos + 1 == j {
          LaunchStillPolling(JobOf(plan, j), SlotLimit(JobOf(plan, j)), i, kind);
        }
      case Abort =>
    }
  }

  /** A call that needs a limit below one keeps `run` from finishing unless it is aborted. */
  lemma StarvedNeverFinishes(plan: Plan, s: State, j: nat, i: nat, kind: Kind)
    requires Reachable(plan, s) && Starved(plan, j, i, kind) && !s.aborted
    ensures !Final(plan, s)
  {
    var states := iset t | RunInv(plan, t) && Stuck(t, j, i);
    assert Flatten(plan.waves[..0]) == [];
    forall aborted ensures Init(plan, aborted) in states {
      EnterKeeps(plan, 0, aborted, []);
      if j == 0 {
        LaunchStillPolling(JobOf(plan, 0), SlotLimit(JobOf(plan, 0)), i, kind);
      }
    }
    forall t, l | t in states && Enabled(plan, t, l) ensures Apply(plan, t, l) in states {
      StepKeeps(plan, t, l);
      StepStuck(plan, t, l, j, i, kind);
    }
    assert Closed(plan, states);
  }

  /** Productive steps lead, after finitely many, to a state that has none. */
  lemma {:induction false} Quiesce(plan: Plan, s: State) returns (t: State)
    requires Reachable(plan, s) && !s.aborted
    ensures Reachable(plan, t) && !t.aborted && forall l :: !Productive(plan, t, l)
    decreases Measure(plan, s)
  {
    if l :| Productive(plan, s, l) {
      StepDecreases(plan, s, l);
      ReachableStep(plan, s, l);
      t := Quiesce(plan, Apply(plan, s, l));
    } else {
      t := s;
    }
  }

  /** The exact condition: `run` can always proceed without an abort if and only if every limit that some call
      counts against is at least one. */
  lemma ProgressExactly(plan: Plan)
    ensures LimitsAdmit(plan) <==>
      forall s :: Reachable(plan, s) && !s.aborted && !Final(plan, s) ==> exists l :: Productive(plan, s, l)
  {
    if LimitsAdmit(plan) {
      forall s | Reachable(plan, s) && !s.aborted && !Final(plan, s) ensures exists l :: Productive(plan, s, l) {
        NoDeadlock(plan, s);
      }
    } else {
      var j, i, kind :| 0 <= j < |plan.waves| && 0 <= i < |plan.waves[j]| && Key(kind, plan.waves[j][i]).Some?
                        && LimitOf(plan.limits, kind) < 1;
      assert Reachable(plan, Init(plan, false));
      var t := Quiesce(plan, Init(plan, false));
      StarvedNeverFinishes(plan, t, j, i, kind);
    }
  }
}
