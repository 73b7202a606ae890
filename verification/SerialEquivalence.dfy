// What runs in parallel looks sequential: the effects and outcomes of `run` without an abort.
// The body of a call is a list of atomic operations, one between each two of its own awaits.

module SerialSemantics {
  import opened SchedulerCalls

  datatype Body<!W, !L> = Body(init: L, ops: seq<(L, W) -> (L, W)>, settle: L -> Settlement)

  /** Local state and workspace after the first `k` operations of a body started in workspace `w`. */
  function AfterOps<W, L>(b: Body<W, L>, k: nat, w: W): (L, W)
    requires k <= |b.ops|
  {
    if k == 0 then (b.init, w)
    else
      var (l, w') := AfterOps(b, k - 1, w);
      b.ops[k - 1](l, w')
  }

  function WholeBody<W, L>(b: Body<W, L>, w: W): (L, W) {
    AfterOps(b, |b.ops|, w)
  }

  /** The workspace after the first `k` calls, executed one at a time in order. */
  function Serial<W, L>(calls: seq<Call>, bodies: Call -> Body<W, L>, k: nat, w: W): W
    requires k <= |calls|
  {
    if k == 0 then w else WholeBody(bodies(calls[k - 1]), Serial(calls, bodies, k - 1, w)).1
  }

  /** How call `p` settles when the calls before it have been executed one at a time. */
  function SerialSettlement<W, L>(calls: seq<Call>, bodies: Call -> Body<W, L>, p: nat, w: W): Settlement
    requires p < |calls|
  {
    var b := bodies(calls[p]);
    b.settle(WholeBody(b, Serial(calls, bodies, p, w)).0)
  }

  /** The first `n` calls settle as they do one at a time. */
  ghost predicate Settled<W, L>(calls: seq<Call>, bodies: Call -> Body<W, L>, n: nat, w: W)
    requires n <= |calls|
  {
    forall p {:trigger SerialSettlement(calls, bodies, p, w)} :: 0 <= p < n ==>
      calls[p].run == SerialSettlement(calls, bodies, p, w)
  }

  ghost predicate ReadOnly<W(!new), L(!new)>(b: Body<W, L>) {
    forall k, l, w :: 0 <= k < |b.ops| ==> b.ops[k](l, w).1 == w
  }

  lemma {:induction false} ReadOnlyBody<W(!new), L(!new)>(b: Body<W, L>, k: nat, w: W)
    requires ReadOnly(b) && k <= |b.ops|
    ensures AfterOps(b, k, w).1 == w
  {
    if k > 0 {
      ReadOnlyBody(b, k - 1, w);
    }
  }

  lemma {:induction false} SerialReadOnly<W(!new), L(!new)>(calls: seq<Call>, bodies: Call -> Body<W, L>, from: nat, to: nat, w: W)
    requires from <= to <= |calls|
    requires forall p :: from <= p < to ==> ReadOnly(bodies(calls[p]))
    ensures Serial(calls, bodies, to, w) == Serial(calls, bodies, from, w)
  {
    if from < to {
      SerialReadOnly(calls, bodies, from, to - 1, w);
      ReadOnlyBody(bodies(calls[to - 1]), |bodies(calls[to - 1]).ops|, Serial(calls, bodies, to - 1, w));
    }
  }
}

module SerialEquivalence {
  import opened Wrappers
  import opened Sequences
  import opened SchedulerCalls
  import opened Waves
  import opened WaveProperties
  import opened Slots
  import opened WavePool
  import opened PoolSafety
  import opened SchedulerRun
  import opened WaveIsolation
  import opened ExactlyOnce
  import opened SerialSemantics

  /** How far the body of a started call has come. */
  datatype Activity<L> = Activity(pc: nat, local: L, ended: bool)

  function NoActs<L>(): map<nat, Activity<L>> { map[] }

  /** The scheduler together with the workspace and the bodies of the current wave's started calls. */
  datatype World<W, L> = World(s: State, work: W, acts: map<nat, Activity<L>>)

  /** One operation of the body run by worker `w`. */
  ghost predicate OpStep<W, L>(plan: Plan, bodies: Call -> Body<W, L>, e: World<W, L>, w: nat, e': World<W, L>) {
    && WorkerAt(plan, e.s, w) && e.s.pool.workers[w].Running?
    && var i := e.s.pool.workers[w].i;
       var b := bodies(plan.waves[e.s.pos][i]);
    && i in e.acts && e.acts[i].pc < |b.ops|
    && var (local, work) := b.ops[e.acts[i].pc](e.acts[i].local, e.work);
       e' == World(e.s, work, e.acts[i := Activity(e.acts[i].pc + 1, local, false)])
  }

  /** A scheduler step; a call finishes only when its body has, and settles as its body says. */
  ghost predicate SchedulerStep<W, L>(plan: Plan, bodies: Call -> Body<W, L>, e: World<W, L>, l: Label, e': World<W, L>) {
    && Enabled(plan, e.s, l) && e'.s == Apply(plan, e.s, l) && e'.work == e.work
    && match l
       case Poll(_) => e'.acts == e.acts
       case Begin(w) =>
         var i := e.s.pool.workers[w].i;
         e'.acts == e.acts[i := Activity(0, bodies(plan.waves[e.s.pos][i]).init, false)]
       case Finish(w) =>
         var i := e.s.pool.workers[w].i;
         var c := plan.waves[e.s.pos][i];
         && i in e.acts && e.acts[i].pc == |bodies(c).ops| && c.run == bodies(c).settle(e.acts[i].local)
         && e'.acts == e.acts[i := e.acts[i].(ended := true)]
       case Advance => e'.acts == map[]
       case Abort => false
  }

  ghost predicate ClosedWorlds<W(!new), L(!new)>(plan: Plan, bodies: Call -> Body<W, L>, w0: W, worlds: iset<World<W, L>>) {
    && World(Init(plan, false), w0, map[]) in worlds
    && (forall e, w, e' :: e in worlds && OpStep(plan, bodies, e, w, e') ==> e' in worlds)
    && (forall e, l, e' :: e in worlds && SchedulerStep(plan, bodies, e, l, e') ==> e' in worlds)
  }

  /** Worlds reachable without an abort, under any interleaving of scheduler steps and body operations. */
  ghost predicate ReachableWorld<W(!new), L(!new)>(plan: Plan, bodies: Call -> Body<W, L>, w0: W, e: World<W, L>) {
    forall worlds: iset<World<W, L>> :: ClosedWorlds(plan, bodies, w0, worlds) ==> e in worlds
  }

  // ----- Who runs what -----

  /** Held calls are distinct; only running ones are started and not ended. */
  ghost predicate Assigned<L>(p: Pool, acts: map<nat, Activity<L>>) {
    && (forall i :: i in acts ==> i < p.next)
    && (forall w :: 0 <= w < |p.workers| && !p.workers[w].Exited? ==> p.workers[w].i < p.next)
    && (forall w :: 0 <= w < |p.workers| && (p.workers[w].Polling? || p.workers[w].Ready?) ==> p.workers[w].i !in acts)
    && (forall w :: 0 <= w < |p.workers| && p.workers[w].Running? ==>
          p.workers[w].i in acts && !acts[p.workers[w].i].ended)
    && (forall v, w :: 0 <= v < w < |p.workers| && !p.workers[v].Exited? && !p.workers[w].Exited? ==>
          p.workers[v].i != p.workers[w].i)
  }

  predicate Busy(p: Pool, i: nat) {
    exists w :: 0 <= w < |p.workers| && !p.workers[w].Exited? && p.workers[w].i == i
  }

  /** Every call handed out has ended or is with a worker. */
  ghost predicate Covered<L>(job: Job, p: Pool, acts: map<nat, Activity<L>>) {
    forall i :: 0 <= i < p.next && i < |job.wave| ==> (i in acts && acts[i].ended) || Busy(p, i)
  }

  /** Each started body is where it would be, had it run alone from the wave's first workspace. */
  ghost predicate Faithful<W, L>(job: Job, bodies: Call -> Body<W, L>, start: W, acts: map<nat, Activity<L>>) {
    forall i :: i in acts && i < |job.wave| ==>
      var b := bodies(job.wave[i]);
      && acts[i].pc <= |b.ops| && acts[i].local == AfterOps(b, acts[i].pc, start).0
      && (acts[i].ended ==> acts[i].pc == |b.ops| && job.wave[i].run == b.settle(WholeBody(b, start).0))
  }

  predicate BarrierWave(wave: seq<Call>) {
    |wave| == 1 && IsSerialBarrier(wave[0])
  }

  ghost predicate WorkspaceOk<W, L>(job: Job, bodies: Call -> Body<W, L>, start: W, work: W, acts: map<nat, Activity<L>>) {
    if BarrierWave(job.wave) && 0 in acts && acts[0].pc <= |bodies(job.wave[0]).ops|
    then work == AfterOps(bodies(job.wave[0]), acts[0].pc, start).1
    else work == start
  }

  ghost predicate NonBarriersReadOnly<W(!new), L(!new)>(calls: seq<Call>, bodies: Call -> Body<W, L>) {
    forall p :: 0 <= p < |calls| && !IsSerialBarrier(calls[p]) ==> ReadOnly(bodies(calls[p]))
  }

  ghost predicate WaveOk<W, L>(job: Job, bodies: Call -> Body<W, L>, start: W, e: World<W, L>) {
    && Assigned(e.s.pool, e.acts)
    && Covered(job, e.s.pool, e.acts)
    && Faithful(job, bodies, start, e.acts)
    && WorkspaceOk(job, bodies, start, e.work, e.acts)
  }

  ghost predicate WorldInv<W, L>(plan: Plan, bodies: Call -> Body<W, L>, w0: W, e: World<W, L>) {
    var calls := Flatten(plan.waves);
    && RunInv(plan, e.s) && !e.s.aborted
    && Offset(plan.waves, e.s.pos) <= |calls|
    && var start := Serial(calls, bodies, Offset(plan.waves, e.s.pos), w0);
    && Settled(calls, bodies, Offset(plan.waves, e.s.pos), w0)
    && (if e.s.pos < |plan.waves| then WaveOk(JobOf(plan, e.s.pos), bodies, start, e) else e.work == start)
  }

  // ----- Steps inside a wave -----

  lemma ClaimAssigned<L>(job: Job, p: Pool, w: nat, acts: map<nat, Activity<L>>)
    requires w < |p.workers| && p.workers[w] == Exited && Assigned(p, acts) && Covered(job, p, acts)
    ensures Assigned(Claim(job, false, p, w), acts) && Covered(job, Claim(job, false, p, w), acts)
  {
    ClaimCovered(job, p, w, acts);
  }

  lemma ClaimCovered<L>(job: Job, p: Pool, w: nat, acts: map<nat, Activity<L>>)
    requires w < |p.workers| && p.workers[w] == Exited && Covered(job, p, acts)
    ensures Covered(job, Claim(job, false, p, w), acts)
  {
    var p' := Claim(job, false, p, w);
    forall i | 0 <= i < p'.next && i < |job.wave| && !(i in acts && acts[i].ended) ensures Busy(p', i) {
      if i == p.next {
        assert p'.workers[w].i == i;
      } else {
        var v :| 0 <= v < |p.workers| && !p.workers[v].Exited? && p.workers[v].i == i;
        assert p'.workers[v] == p.workers[v];
      }
    }
  }

  lemma EndAssigned<L>(job: Job, p: Pool, w: nat, acts: map<nat, Activity<L>>, q: Pool)
    requires w < |p.workers| && p.workers[w].Running? && Assigned(p, acts) && Covered(job, p, acts)
    requires q.next == p.next && q.workers == p.workers[w := Exited]
    ensures var i := p.workers[w].i; var acts' := acts[i := acts[i].(ended := true)];
      Assigned(q, acts') && Covered(job, q, acts')
  {
    var i := p.workers[w].i;
    var acts' := acts[i := acts[i].(ended := true)];
    forall j | 0 <= j < q.next && j < |job.wave| && !(j in acts' && acts'[j].ended) ensures Busy(q, j) {
      var v :| 0 <= v < |p.workers| && !p.workers[v].Exited? && p.workers[v].i == j;
      assert q.workers[v] == p.workers[v];
    }
  }

  lemma FinishAssigned<L>(job: Job, p: Pool, w: nat, acts: map<nat, Activity<L>>)
    requires w < |p.workers| && p.workers[w].Running? && p.workers[w].i < |job.wave|
    requires Assigned(p, acts) && Covered(job, p, acts)
    ensures var acts' := acts[p.workers[w].i := acts[p.workers[w].i].(ended := true)];
      Assigned(WavePool.Finish(job, false, p, w), acts') && Covered(job, WavePool.Finish(job, false, p, w), acts')
  {
    var i := p.workers[w].i;
    var r := SettledResult(job.wave[i], job.group, false);
    var q := Reported(job, p, w, i, r);
    EndAssigned(job, p, w, acts, q);
    ClaimAssigned(job, q, w, acts[i := acts[i].(ended := true)]);
    ClaimOverwrites(job, false, p.(counters := Release(job.wave[i], p.counters), results := p.results + [r]), w, Exited);
  }

  lemma RelabelAssigned<L>(job: Job, p: Pool, w: nat, acts: map<nat, Activity<L>>, p': Pool)
    requires w < |p.workers| && p.workers[w].Polling? && Assigned(p, acts) && Covered(job, p, acts)
    requires p'.next == p.next && |p'.workers| == |p.workers|
    requires forall v :: 0 <= v < |p.workers| && v != w ==> p'.workers[v] == p.workers[v]
    requires (p'.workers[w].Polling? || p'.workers[w].Ready?) && p'.workers[w].i == p.workers[w].i
    ensures Assigned(p', acts) && Covered(job, p', acts)
  {
    forall j | 0 <= j < p'.next && j < |job.wave| && !(j in acts && acts[j].ended) ensures Busy(p', j) {
      var v :| 0 <= v < |p.workers| && !p.workers[v].Exited? && p.workers[v].i == j;
      assert !p'.workers[v].Exited? && p'.workers[v].i == j;
    }
  }

  lemma BeginAssigned<L>(job: Job, p: Pool, w: nat, acts: map<nat, Activity<L>>, init: L)
    requires w < |p.workers| && p.workers[w].Ready? && p.workers[w].i < |job.wave|
    requires Assigned(p, acts) && Covered(job, p, acts)
    ensures var acts' := acts[p.workers[w].i := Activity(0, init, false)];
      Assigned(WavePool.Begin(job, false, p, w), acts') && Covered(job, WavePool.Begin(job, false, p, w), acts')
  {
    var i := p.workers[w].i;
    var acts' := acts[i := Activity(0, init, false)];
    var p' := WavePool.Begin(job, false, p, w);
    forall j | 0 <= j < p'.next && j < |job.wave| && !(j in acts' && acts'[j].ended) ensures Busy(p', j) {
      if j == i {
        assert p'.workers[w].i == j;
      } else {
        var v :| 0 <= v < |p.workers| && !p.workers[v].Exited? && p.workers[v].i == j;
        assert p'.workers[v] == p.workers[v];
      }
    }
  }

  lemma {:induction false} LaunchAssigned<L>(job: Job, n: nat)
    ensures Assigned(Launched(job, false, n), NoActs<L>())
    ensures Covered(job, Launched(job, false, n), NoActs<L>())
  {
    if n > 0 {
      LaunchAssigned<L>(job, n - 1);
      var p := Launched(job, false, n - 1);
      var q := p.(workers := p.workers + [Exited]);
      forall j | 0 <= j < q.next && j < |job.wave| ensures Busy(q, j) {
        assert j !in NoActs<L>();
        assert Busy(p, j);
        var v :| 0 <= v < |p.workers| && !p.workers[v].Exited? && p.workers[v].i == j;
        assert q.workers[v] == p.workers[v];
      }
      ClaimAssigned(job, q, n - 1, NoActs<L>());
    }
  }

  // ----- Steps of the whole world -----

  lemma OpInWave<W(!new), L(!new)>(plan: Plan, bodies: Call -> Body<W, L>, start: W, e: World<W, L>, w: nat, e': World<W, L>)
    requires OpStep(plan, bodies, e, w, e') && WaveOk(JobOf(plan, e.s.pos), bodies, start, e)
    requires Admissible(plan.waves[e.s.pos]) && NonBarriersReadOnly(plan.waves[e.s.pos], bodies)
    ensures WaveOk(JobOf(plan, e.s.pos), bodies, start, e')
  {
    var job := JobOf(plan, e.s.pos);
    var i := e.s.pool.workers[w].i;
    var b := bodies(job.wave[i]);
    var pc := e.acts[i].pc;
    if IsSerialBarrier(job.wave[i]) {
      assert BarrierWave(job.wave) && i == 0;
      assert AfterOps(b, pc + 1, start) == b.ops[pc](e.acts[i].local, e.work);
    } else {
      assert !BarrierWave(job.wave);
      assert ReadOnly(b);
      ReadOnlyBody(b, pc, start);
      assert b.ops[pc](e.acts[i].local, e.work).1 == e.work;
      assert AfterOps(b, pc + 1, start).0 == b.ops[pc](e.acts[i].local, start).0;
    }
    OpCovered(job, e.s.pool, e.acts, i, e'.acts[i]);
  }

  /** An operation of a call that goes on leaves every call with a worker or ended. */
  lemma OpCovered<L>(job: Job, p: Pool, acts: map<nat, Activity<L>>, i: nat, act: Activity<L>)
    requires Covered(job, p, acts) && i in acts && !acts[i].ended
    ensures Covered(job, p, acts[i := act])
  {
    var acts' := acts[i := act];
    forall j | 0 <= j < p.next && j < |job.wave| && !(j in acts' && acts'[j].ended) ensures Busy(p, j) {
      assert !(j in acts && acts[j].ended);
    }
  }

  lemma PollInWave<W, L>(plan: Plan, bodies: Call -> Body<W, L>, start: W, e: World<W, L>, w: nat, e': World<W, L>)
    requires SchedulerStep(plan, bodies, e, Poll(w), e') && !e.s.aborted
    requires WaveOk(JobOf(plan, e.s.pos), bodies, start, e)
    ensures WaveOk(JobOf(plan, e.s.pos), bodies, start, e')
  {
    RelabelAssigned(JobOf(plan, e.s.pos), e.s.pool, w, e.acts, e'.s.pool);
  }

  lemma BeginInWave<W, L>(plan: Plan, bodies: Call -> Body<W, L>, start: W, e: World<W, L>, w: nat, e': World<W, L>)
    requires SchedulerStep(plan, bodies, e, Begin(w), e') && !e.s.aborted
    requires WaveOk(JobOf(plan, e.s.pos), bodies, start, e)
    ensures WaveOk(JobOf(plan, e.s.pos), bodies, start, e')
  {
    var job := JobOf(plan, e.s.pos);
    var i := e.s.pool.workers[w].i;
    BeginAssigned(job, e.s.pool, w, e.acts, bodies(job.wave[i]).init);
    assert i !in e.acts;
    assert AfterOps(bodies(job.wave[i]), 0, start) == (bodies(job.wave[i]).init, start);
  }

  lemma FinishInWave<W, L>(plan: Plan, bodies: Call -> Body<W, L>, start: W, e: World<W, L>, w: nat, e': World<W, L>)
    requires SchedulerStep(plan, bodies, e, Finish(w), e') && !e.s.aborted
    requires WaveOk(JobOf(plan, e.s.pos), bodies, start, e)
    ensures WaveOk(JobOf(plan, e.s.pos), bodies, start, e')
  {
    FinishAssigned(JobOf(plan, e.s.pos), e.s.pool, w, e.acts);
  }

  lemma AllEnded<W, L>(job: Job, e: World<W, L>, i: nat)
    requires Inv(job, false, e.s.pool) && e.s.pool.workers != [] && AllExited(e.s.pool)
    requires Covered(job, e.s.pool, e.acts) && i < |job.wave|
    ensures i in e.acts && e.acts[i].ended
  {
    assert e.s.pool.workers[0].Exited? && e.s.pool.next >= |job.wave|;
    assert !Busy(e.s.pool, i);
  }

  /** A finished wave whose calls stand at positions from `from` on has their serial effect and outcomes. */
  lemma WaveSerial<W(!new), L(!new)>(job: Job, calls: seq<Call>, bodies: Call -> Body<W, L>, from: nat, w0: W, work: W,
                                     acts: map<nat, Activity<L>>, p: nat)
    requires Admissible(job.wave) && NonBarriersReadOnly(job.wave, bodies)
    requires from + |job.wave| <= |calls| && calls[from..from + |job.wave|] == job.wave
    requires Faithful(job, bodies, Serial(calls, bodies, from, w0), acts)
    requires WorkspaceOk(job, bodies, Serial(calls, bodies, from, w0), work, acts)
    requires forall i :: 0 <= i < |job.wave| ==> i in acts && acts[i].ended
    ensures work == Serial(calls, bodies, from + |job.wave|, w0)
    ensures from <= p < from + |job.wave| ==> calls[p].run == SerialSettlement(calls, bodies, p, w0)
  {
    var to := from + |job.wave|;
    assert forall q :: from <= q < to ==> calls[q] == calls[from..to][q - from];
    if BarrierWave(job.wave) {
      assert calls[from] == job.wave[0];
      assert acts[0].ended;
    } else {
      forall q | from <= q < to ensures ReadOnly(bodies(calls[q])) {
        assert !IsSerialBarrier(job.wave[q - from]);
      }
      SerialReadOnly(calls, bodies, from, to, w0);
      if from <= p < to {
        assert acts[p - from].ended;
        SerialReadOnly(calls, bodies, from, p, w0);
      }
    }
  }

  predicate WaveEnded<L>(job: Job, acts: map<nat, Activity<L>>) {
    forall i :: 0 <= i < |job.wave| ==> i in acts && acts[i].ended
  }

  lemma EveryoneEnded<W, L>(job: Job, e: World<W, L>)
    requires Inv(job, false, e.s.pool) && e.s.pool.workers != [] && AllExited(e.s.pool)
    requires Covered(job, e.s.pool, e.acts)
    ensures WaveEnded(job, e.acts)
  {
    forall i | 0 <= i < |job.wave| ensures i in e.acts && e.acts[i].ended {
      AllEnded(job, e, i);
    }
  }

  lemma {:induction false} WaveOutcomes<W(!new), L(!new)>(waves: seq<seq<Call>>, k: nat, job: Job, bodies: Call -> Body<W, L>,
                                                          w0: W, work: W, acts: map<nat, Activity<L>>)
    requires k < |waves| && job.wave == waves[k] && Admissible(job.wave) && NonBarriersReadOnly(job.wave, bodies)
    requires Offset(waves, k) <= |Flatten(waves)|
    requires var start := Serial(Flatten(waves), bodies, Offset(waves, k), w0);
      Faithful(job, bodies, start, acts) && WorkspaceOk(job, bodies, start, work, acts)
    requires WaveEnded(job, acts) && Settled(Flatten(waves), bodies, Offset(waves, k), w0)
    ensures Offset(waves, k + 1) <= |Flatten(waves)|
    ensures work == Serial(Flatten(waves), bodies, Offset(waves, k + 1), w0)
    ensures Settled(Flatten(waves), bodies, Offset(waves, k + 1), w0)
  {
    var calls, from := Flatten(waves), Offset(waves, k);
    WaveSlice(waves, k);
    WaveSerial(job, calls, bodies, from, w0, work, acts, from);
    forall p {:trigger SerialSettlement(calls, bodies, p, w0)} | from <= p < from + |job.wave|
      ensures calls[p].run == SerialSettlement(calls, bodies, p, w0)
    {
      WaveSerial(job, calls, bodies, from, w0, work, acts, p);
    }
  }

  /** The last step of a wave: all its calls have ended, so it has its serial effect and outcomes. */
  lemma {:induction false} WaveDone<W(!new), L(!new)>(plan: Plan, bodies: Call -> Body<W, L>, w0: W, e: World<W, L>)
    requires WorldInv(plan, bodies, w0, e) && Enabled(plan, e.s, Advance)
    requires Admissible(plan.waves[e.s.pos]) && NonBarriersReadOnly(plan.waves[e.s.pos], bodies)
    ensures var calls := Flatten(plan.waves);
      && Offset(plan.waves, e.s.pos + 1) <= |calls|
      && e.work == Serial(calls, bodies, Offset(plan.waves, e.s.pos + 1), w0)
      && Settled(calls, bodies, Offset(plan.waves, e.s.pos + 1), w0)
  {
    var job := JobOf(plan, e.s.pos);
    EveryoneEnded(job, e);
    WaveOutcomes(plan.waves, e.s.pos, job, bodies, w0, e.work, e.acts);
  }

  lemma {:induction false} AdvanceWorld<W(!new), L(!new)>(plan: Plan, bodies: Call -> Body<W, L>, w0: W,
                                                          e: World<W, L>, e': World<W, L>)
    requires WorldInv(plan, bodies, w0, e) && SchedulerStep(plan, bodies, e, Advance, e')
    requires Admissible(plan.waves[e.s.pos]) && NonBarriersReadOnly(plan.waves[e.s.pos], bodies)
    ensures WorldInv(plan, bodies, w0, e')
  {
    AdvanceKeeps(plan, e.s);
    WaveDone(plan, bodies, w0, e);
    if e'.s.pos < |plan.waves| {
      LaunchAssigned<L>(JobOf(plan, e'.s.pos), SlotLimit(JobOf(plan, e'.s.pos)));
    }
  }

  lemma WaveSlice(waves: seq<seq<Call>>, k: nat)
    requires k < |waves|
    ensures Offset(waves, k + 1) <= |Flatten(waves)|
    ensures Flatten(waves)[Offset(waves, k)..Offset(waves, k + 1)] == waves[k]
  {
    FlattenPrefix(waves, k + 1);
    OffsetIsLength(waves, k);
    assert waves[..k + 1][..k] == waves[..k];
    assert Flatten(waves)[..Offset(waves, k + 1)] == Flatten(waves[..k]) + waves[k];
  }

  lemma StepWorld<W(!new), L(!new)>(plan: Plan, bodies: Call -> Body<W, L>, w0: W, e: World<W, L>, l: Label, e': World<W, L>)
    requires WorldInv(plan, bodies, w0, e) && SchedulerStep(plan, bodies, e, l, e')
    requires AllAdmissible(plan.waves) && forall k :: 0 <= k < |plan.waves| ==> NonBarriersReadOnly(plan.waves[k], bodies)
    ensures WorldInv(plan, bodies, w0, e')
  {
    StepKeeps(plan, e.s, l);
    var start := Serial(Flatten(plan.waves), bodies, Offset(plan.waves, e.s.pos), w0);
    match l
    case Poll(w) => PollInWave(plan, bodies, start, e, w, e');
    case Begin(w) => BeginInWave(plan, bodies, start, e, w, e');
    case Finish(w) => FinishInWave(plan, bodies, start, e, w, e');
    case Advance => AdvanceWorld(plan, bodies, w0, e, e');
    case Abort =>
  }

  lemma WorldReachable<W(!new), L(!new)>(plan: Plan, bodies: Call -> Body<W, L>, w0: W, e: World<W, L>)
    requires ReachableWorld(plan, bodies, w0, e)
    ensures Reachable(plan, e.s)
  {
    assert ClosedWorlds(plan, bodies, w0, iset x: World<W, L> | Reachable(plan, x.s));
  }

  lemma StartWorld<W(!new), L(!new)>(plan: Plan, bodies: Call -> Body<W, L>, w0: W)
    ensures WorldInv(plan, bodies, w0, World(Init(plan, false), w0, NoActs<L>()))
  {
    assert Flatten(plan.waves[..0]) == [];
    EnterKeeps(plan, 0, false, []);
    if |plan.waves| > 0 {
      LaunchAssigned<L>(JobOf(plan, 0), SlotLimit(JobOf(plan, 0)));
    }
  }

  lemma OpWorld<W(!new), L(!new)>(plan: Plan, bodies: Call -> Body<W, L>, w0: W, e: World<W, L>, w: nat, e': World<W, L>)
    requires WorldInv(plan, bodies, w0, e) && OpStep(plan, bodies, e, w, e')
    requires Admissible(plan.waves[e.s.pos]) && NonBarriersReadOnly(plan.waves[e.s.pos], bodies)
    ensures WorldInv(plan, bodies, w0, e')
  {
    hide WaveOk;
    OpInWave(plan, bodies, Serial(Flatten(plan.waves), bodies, Offset(plan.waves, e.s.pos), w0), e, w, e');
  }

  lemma WorldKeepsInv<W(!new), L(!new)>(plan: Plan, bodies: Call -> Body<W, L>, w0: W, e: World<W, L>)
    requires ReachableWorld(plan, bodies, w0, e)
    requires AllAdmissible(plan.waves) && forall k :: 0 <= k < |plan.waves| ==> NonBarriersReadOnly(plan.waves[k], bodies)
    ensures WorldInv(plan, bodies, w0, e)
  {
    hide WorldInv, SchedulerStep;
    var worlds := iset x: World<W, L> | WorldInv(plan, bodies, w0, x);
    StartWorld<W, L>(plan, bodies, w0);
    forall x, w, x' | x in worlds && OpStep(plan, bodies, x, w, x') ensures x' in worlds {
      OpWorld(plan, bodies, w0, x, w, x');
    }
    forall x, l, x' | x in worlds && SchedulerStep(plan, bodies, x, l, x') ensures x' in worlds {
      StepWorld(plan, bodies, w0, x, l, x');
    }
    assert ClosedWorlds(plan, bodies, w0, worlds);
  }

  lemma WavesReadOnly<W(!new), L(!new)>(waves: seq<seq<Call>>, calls: seq<Call>, bodies: Call -> Body<W, L>, k: nat)
    requires Flatten(waves) == calls && NonBarriersReadOnly(calls, bodies) && k < |waves|
    ensures NonBarriersReadOnly(waves[k], bodies)
  {
    forall i | 0 <= i < |waves[k]| && !IsSerialBarrier(waves[k][i]) ensures ReadOnly(bodies(waves[k][i])) {
      FlattenAt(waves, k, i);
    }
  }

  lemma SerialCore<W(!new), L(!new)>(plan: Plan, bodies: Call -> Body<W, L>, w0: W, e: World<W, L>)
    requires NonBarriersReadOnly(Flatten(plan.waves), bodies) && AllAdmissible(plan.waves)
    requires ReachableWorld(plan, bodies, w0, e) && Final(plan, e.s)
    ensures var calls := Flatten(plan.waves);
      && !e.s.aborted
      && e.work == Serial(calls, bodies, |calls|, w0)
      && Settled(calls, bodies, |calls|, w0)
  {
    forall k | 0 <= k < |plan.waves| ensures NonBarriersReadOnly(plan.waves[k], bodies) {
      WavesReadOnly(plan.waves, Flatten(plan.waves), bodies, k);
    }
    WorldKeepsInv(plan, bodies, w0, e);
    OffsetIsLength(plan.waves, e.s.pos);
    assert plan.waves[..e.s.pos] == plan.waves;
  }

  /** Serial equivalence. If calls that are not barriers leave the workspace alone, every interleaving of `run`
      without an abort ends with the workspace of the calls executed one at a time in index order, and reports
      for each call how it settles in that execution. */
  lemma ParallelLooksSerial<W(!new), L(!new)>(calls: seq<Call>, limits: Limits, groupSeq: nat,
                                              bodies: Call -> Body<W, L>, w0: W, e: World<W, L>, p: nat, k: nat)
    requires DistinctIndices(calls) && NonBarriersReadOnly(SortCalls(calls), bodies)
    requires ReachableWorld(MakePlan(calls, limits, groupSeq), bodies, w0, e) && Final(MakePlan(calls, limits, groupSeq), e.s)
    requires p < |calls| && InWave(Partition(SortCalls(calls)), k, p)
    ensures |Output(e.s)| == |SortCalls(calls)| == |calls|
    ensures e.work == Serial(SortCalls(calls), bodies, |calls|, w0)
    ensures Output(e.s)[p] == SettledResult(
      SortCalls(calls)[p].(run := SerialSettlement(SortCalls(calls), bodies, p, w0)), groupSeq + k + 1, false)
  {
    var plan := MakePlan(calls, limits, groupSeq);
    PartitionSound(SortCalls(calls));
    SerialCore(plan, bodies, w0, e);
    WorldReachable(plan, bodies, w0, e);
    OrderedResults(calls, limits, groupSeq, e.s, p, k);
  }
}

module SerialProgress {
  import opened Sequences
  import opened SchedulerCalls
  import opened Waves
  import opened WaveProperties
  import opened WavePool
  import opened SchedulerRun
  import opened SchedulerProgress
  import opened WaveIsolation
  import opened SerialSemantics
  import opened SerialEquivalence

  /** Every call settles as it does in the serial execution. */
  ghost predicate Truthful<W, L>(plan: Plan, bodies: Call -> Body<W, L>, w0: W) {
    Settled(Flatten(plan.waves), bodies, |Flatten(plan.waves)|, w0)
  }

  ghost predicate WorldStep<W, L>(plan: Plan, bodies: Call -> Body<W, L>, e: World<W, L>, e': World<W, L>) {
    (exists w :: OpStep(plan, bodies, e, w, e')) || (exists l :: SchedulerStep(plan, bodies, e, l, e'))
  }

  ghost predicate ReadOnlyWaves<W(!new), L(!new)>(plan: Plan, bodies: Call -> Body<W, L>) {
    AllAdmissible(plan.waves) && forall k :: 0 <= k < |plan.waves| ==> NonBarriersReadOnly(plan.waves[k], bodies)
  }

  lemma WavePosition(waves: seq<seq<Call>>, k: nat, i: nat)
    requires k < |waves| && i < |waves[k]|
    ensures Offset(waves, k) + i < |Flatten(waves)| && Flatten(waves)[Offset(waves, k) + i] == waves[k][i]
  {
    WaveSlice(waves, k);
    assert Flatten(waves)[Offset(waves, k)..Offset(waves, k + 1)][i] == waves[k][i];
  }

  /** The calls of a wave before call `i` leave the workspace as the wave found it. */
  lemma SerialStart<W(!new), L(!new)>(plan: Plan, bodies: Call -> Body<W, L>, w0: W, k: nat, i: nat)
    requires ReadOnlyWaves(plan, bodies) && k < |plan.waves| && i < |plan.waves[k]|
    ensures var calls, from := Flatten(plan.waves), Offset(plan.waves, k);
      && from + i < |calls| && calls[from + i] == plan.waves[k][i]
      && Serial(calls, bodies, from + i, w0) == Serial(calls, bodies, from, w0)
  {
    var calls, from, wave := Flatten(plan.waves), Offset(plan.waves, k), plan.waves[k];
    WavePosition(plan.waves, k, i);
    assert Admissible(wave) && NonBarriersReadOnly(wave, bodies);
    if !BarrierWave(wave) {
      forall q | from <= q < from + i ensures ReadOnly(bodies(calls[q])) {
        WavePosition(plan.waves, k, q - from);
        assert !IsSerialBarrier(wave[q - from]);
      }
      SerialReadOnly(calls, bodies, from, from + i, w0);
    }
  }

  /** A started call that has done all its operations settles as the scheduler is told. */
  lemma SettlesTruthfully<W(!new), L(!new)>(plan: Plan, bodies: Call -> Body<W, L>, w0: W, e: World<W, L>, i: nat)
    requires WorldInv(plan, bodies, w0, e) && e.s.pos < |plan.waves| && Truthful(plan, bodies, w0)
    requires ReadOnlyWaves(plan, bodies)
    requires i < |plan.waves[e.s.pos]| && i in e.acts && e.acts[i].pc == |bodies(plan.waves[e.s.pos][i]).ops|
    ensures plan.waves[e.s.pos][i].run == bodies(plan.waves[e.s.pos][i]).settle(e.acts[i].local)
  {
    SerialStart(plan, bodies, w0, e.s.pos, i);
    var at := Offset(plan.waves, e.s.pos) + i;
    assert Flatten(plan.waves)[at].run == SerialSettlement(Flatten(plan.waves), bodies, at, w0);
  }

  lemma RunningStep<W(!new), L(!new)>(plan: Plan, bodies: Call -> Body<W, L>, w0: W, e: World<W, L>, w: nat)
    requires WorldInv(plan, bodies, w0, e) && Truthful(plan, bodies, w0) && ReadOnlyWaves(plan, bodies)
    requires Enabled(plan, e.s, Finish(w))
    ensures exists e' :: WorldStep(plan, bodies, e, e') && e' != e
  {
    hide Truthful, ReadOnlyWaves, SerialSettlement, Serial;
    var i := e.s.pool.workers[w].i;
    var b := bodies(plan.waves[e.s.pos][i]);
    assert i in e.acts && !e.acts[i].ended;
    if e.acts[i].pc < |b.ops| {
      var done := b.ops[e.acts[i].pc](e.acts[i].local, e.work);
      var e' := World(e.s, done.1, e.acts[i := Activity(e.acts[i].pc + 1, done.0, false)]);
      assert e'.acts[i].pc != e.acts[i].pc;
      assert OpStep(plan, bodies, e, w, e');
      assert WorldStep(plan, bodies, e, e');
    } else {
      SettlesTruthfully(plan, bodies, w0, e, i);
      var e' := World(Apply(plan, e.s, Finish(w)), e.work, e.acts[i := e.acts[i].(ended := true)]);
      assert e'.acts[i].ended;
      assert SchedulerStep(plan, bodies, e, Finish(w), e');
      assert WorldStep(plan, bodies, e, e');
    }
  }

  /** The serial theorem is not about nothing: with limits that admit every call, and calls that settle as they do one
      at a time, an unfinished run can always go on. */
  lemma NeverStuck<W(!new), L(!new)>(plan: Plan, bodies: Call -> Body<W, L>, w0: W, e: World<W, L>)
    requires ReachableWorld(plan, bodies, w0, e) && !Final(plan, e.s)
    requires ReadOnlyWaves(plan, bodies) && LimitsAdmit(plan) && Truthful(plan, bodies, w0)
    ensures exists e' :: WorldStep(plan, bodies, e, e') && e' != e
  {
    hide LimitsAdmit, Truthful, WorldInv;
    WorldKeepsInv(plan, bodies, w0, e);
    WorldReachable(plan, bodies, w0, e);
    NoDeadlock(plan, e.s);
    var l :| Productive(plan, e.s, l);
    if l.Finish? {
      RunningStep(plan, bodies, w0, e, l.w);
    } else {
      var acts := match l
        case Begin(w) =>
          e.acts[e.s.pool.workers[w].i := Activity(0, bodies(plan.waves[e.s.pos][e.s.pool.workers[w].i]).init, false)]
        case Advance => map[]
        case _ => e.acts;
      var e' := World(Apply(plan, e.s, l), e.work, acts);
      assert SchedulerStep(plan, bodies, e, l, e');
      assert WorldStep(plan, bodies, e, e');
    }
  }
}
