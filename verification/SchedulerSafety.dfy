// Safety of `run` in every reachable state: slots, isolation of waves, and exactly-once ordered results.

module SlotSafety {
  import opened Wrappers
  import opened SchedulerCalls
  import opened Slots
  import opened WavePool
  import opened PoolSafety
  import opened SchedulerRun

  /** Number of calls whose `run` is in progress. */
  function RunningCount(workers: seq<Phase>): (n: nat)
    ensures n <= |workers|
  {
    if workers == [] then 0
    else RunningCount(workers[..|workers| - 1]) + if workers[|workers| - 1].Running? then 1 else 0
  }

  /** Number of calls in progress that count against `key`. */
  function RunningWith(job: Job, workers: seq<Phase>, kind: Kind, key: string): nat {
    if workers == [] then 0
    else
      var last := workers[|workers| - 1];
      RunningWith(job, workers[..|workers| - 1], kind, key)
      + if last.Running? && last.i < |job.wave| && Key(kind, job.wave[last.i]) == Some(key) then 1 else 0
  }

  lemma {:induction false} RunningHolds(job: Job, workers: seq<Phase>, kind: Kind, key: string)
    ensures RunningWith(job, workers, kind, key) <= Held(job, workers, kind, key)
  {
    if workers != [] {
      RunningHolds(job, workers[..|workers| - 1], kind, key);
    }
  }

  /** In every reachable state, aborted or not: the calls in progress respect all four limits, a counter is its
      number of holders until an abort and at most that afterwards, and no stored counter is zero or negative. */
  lemma SlotsSafe(plan: Plan, s: State)
    requires Reachable(plan, s) && !Final(plan, s)
    ensures RunningCount(s.pool.workers) <= Max(1, plan.limits.globalMax)
    ensures forall kind, key ::
      RunningWith(JobOf(plan, s.pos), s.pool.workers, kind, key) <= Max(0, LimitOf(plan.limits, kind))
    ensures forall kind, key ::
      var stored, held := Get(s.pool.counters.Of(kind), key), Held(JobOf(plan, s.pos), s.pool.workers, kind, key);
      if s.aborted then stored <= held else stored == held
    ensures forall kind :: Positive(s.pool.counters.Of(kind))
  {
    ReachableInv(plan, s);
    var job := JobOf(plan, s.pos);
    forall kind, key
      ensures RunningWith(job, s.pool.workers, kind, key) <= Max(0, LimitOf(plan.limits, kind))
    {
      RunningHolds(job, s.pool.workers, kind, key);
      assert CounterOk(s.aborted, Get(s.pool.counters.Of(kind), key), Held(job, s.pool.workers, kind, key), LimitOf(job.limits, kind));
    }
  }

  /** How far a counter is below its number of holders. */
  function Drift(plan: Plan, s: State, kind: Kind, key: string): int {
    if Final(plan, s) then 0
    else Held(JobOf(plan, s.pos), s.pool.workers, kind, key) - Get(s.pool.counters.Of(kind), key)
  }

  /** A call is about to be cancelled that never took its slots, and the counter for its key still counts others. */
  predicate CancelsCounted(plan: Plan, s: State, l: Label, kind: Kind, key: string)
    requires Enabled(plan, s, l)
  {
    l.Begin? && s.aborted && !s.pool.workers[l.w].holds
    && Key(kind, plan.waves[s.pos][s.pool.workers[l.w].i]) == Some(key)
    && Get(s.pool.counters.Of(kind), key) > 0
  }

  /** A worker that gives up call `i` after an abort, having held its slots or not. */
  lemma GivenUp(job: Job, p: Pool, w: nat, i: nat, r: Result, kind: Kind, key: string)
    requires w < |p.workers| && i < |job.wave| && Positive(p.counters.Of(kind))
    requires HeldKey(job, p.workers[w], kind) == None || HeldKey(job, p.workers[w], kind) == Key(kind, job.wave[i])
    ensures var q, mine := Complete(job, true, p, w, i, r), Key(kind, job.wave[i]) == Some(key);
      && Held(job, q.workers, kind, key) == Held(job, p.workers, kind, key) - Holds(job, p.workers[w], kind, key)
      && Get(q.counters.Of(kind), key) ==
           Get(p.counters.Of(kind), key) - (if mine && Get(p.counters.Of(kind), key) > 0 then 1 else 0)
  {
    var q := Complete(job, true, p, w, i, r);
    HeldUpdate(job, p.workers, w, q.workers[w], kind, key);
    assert q.workers == p.workers[w := q.workers[w]];
    assert q.counters.Of(kind) == Decrement(p.counters.Of(kind), Key(kind, job.wave[i]));
  }

  lemma WithoutAbort(plan: Plan, s: State, kind: Kind, key: string)
    requires RunInv(plan, s)
    ensures Drift(plan, s, kind, key) >= 0
    ensures !s.aborted ==> Drift(plan, s, kind, key) == 0
  {
    if !Final(plan, s) {
      var job := JobOf(plan, s.pos);
      assert CounterOk(s.aborted, Get(s.pool.counters.Of(kind), key), Held(job, s.pool.workers, kind, key), LimitOf(job.limits, kind));
    }
  }

  lemma AbortedStep(plan: Plan, s: State, l: Label, kind: Kind, key: string)
    requires RunInv(plan, s) && Enabled(plan, s, l) && s.aborted && !l.Advance?
    ensures var before, after := Drift(plan, s, kind, key), Drift(plan, Apply(plan, s, l), kind, key);
      if CancelsCounted(plan, s, l, kind, key) then after == before + 1 else after <= before
  {
    var job := JobOf(plan, s.pos);
    assert Positive(s.pool.counters.Of(kind));
    var w := l.w;
    assert PhaseOk(job, true, s.pool.next, s.pool.workers[w]);
    var i := s.pool.workers[w].i;
    match l
    case Poll(_) => HeldUpdate(job, s.pool.workers, w, Ready(i, false), kind, key);
    case Begin(_) => GivenUp(job, s.pool, w, i, CancelledResult(job.wave[i], job.group), kind, key);
    case Finish(_) => GivenUp(job, s.pool, w, i, SettledResult(job.wave[i], job.group, true), kind, key);
  }

  lemma {:induction false} AbortedLaunch(job: Job, n: nat, kind: Kind, key: string)
    ensures Held(job, Launched(job, true, n).workers, kind, key) == 0
  {
    if n > 0 {
      AbortedLaunch(job, n - 1, kind, key);
      var p, q := Launched(job, true, n - 1), Launched(job, true, n);
      assert q.workers[..n - 1] == p.workers;
    }
  }

  /** Counters drift exactly so: in every reachable state a step lets a counter fall further below its number of holders
      if and only if it cancels a call that never took its slots while that counter still counts another call's. */
  lemma DriftsExactly(plan: Plan, s: State, l: Label, kind: Kind, key: string)
    requires Reachable(plan, s) && Enabled(plan, s, l)
    ensures var before, after := Drift(plan, s, kind, key), Drift(plan, Apply(plan, s, l), kind, key);
      && (after > before <==> CancelsCounted(plan, s, l, kind, key))
      && after <= before + 1
      && (!Apply(plan, s, l).aborted || l.Advance? ==> after == 0)
  {
    ReachableInv(plan, s);
    StepKeeps(plan, s, l);
    WithoutAbort(plan, s, kind, key);
    WithoutAbort(plan, Apply(plan, s, l), kind, key);
    if l.Advance? {
      if s.aborted && s.pos + 1 < |plan.waves| {
        var job := JobOf(plan, s.pos + 1);
        AbortedLaunch(job, SlotLimit(job), kind, key);
        AbortedCounters(job, SlotLimit(job));
      }
    } else if s.aborted {
      AbortedStep(plan, s, l, kind, key);
    }
  }

  lemma {:induction false} AbortedCounters(job: Job, n: nat)
    ensures Launched(job, true, n).counters == NO_SLOTS
  {
    if n > 0 {
      AbortedCounters(job, n - 1);
    }
  }

  /** After an abort the counters really do drift low: one call runs, its sibling was waiting for the only slot;
      cancelling the sibling deletes the counter that the running call still relies on. */
  lemma AbortUndercounts(a: Call, b: Call, limits: Limits, groupSeq: nat) returns (plan: Plan, s: State)
    requires a.toolName == b.toolName && a.host == b.host == None && a.serverId == b.serverId == None
    requires limits.globalMax >= 2 && limits.perTool == 1
    ensures plan == Plan([[a, b]], limits, groupSeq) && Reachable(plan, s) && s.aborted
    ensures s.pool.workers == [Running(0), Exited]
    ensures Get(s.pool.counters.perTool, a.toolName) == 0
    ensures Held(JobOf(plan, 0), s.pool.workers, Tool, a.toolName) == 1
  {
    plan := Plan([[a, b]], limits, groupSeq);
    var job := JobOf(plan, 0);
    var one := Counters(map[a.toolName := 1], map[], map[]);
    assert Launched(job, false, 0) == IDLE;
    assert Launched(job, false, 1) == Pool(1, [Ready(0, true)], one, []);
    assert Launched(job, false, 2) == Pool(2, [Ready(0, true), Polling(1)], one, []);
    var s0 := Init(plan, false);
    assert s0 == State(0, Pool(2, [Ready(0, true), Polling(1)], one, []), false, []);
    var s1 := Apply(plan, s0, Begin(0));
    assert s1.pool.workers == [Running(0), Polling(1)];
    var s2 := Apply(plan, s1, Abort);
    var s3 := Apply(plan, s2, Poll(1));
    assert s3.pool.workers == [Running(0), Ready(1, false)];
    s := Apply(plan, s3, Begin(1));
    assert s.pool.workers == [Running(0), Exited];
    assert s.pool.counters.perTool == map[];
    assert s.pool.workers[..1] == [Running(0)];
    assert Held(job, [Running(0)], Tool, a.toolName) == 1 by {
      assert [Running(0)][..0] == [];
    }
    assert Reachable(plan, s0);
    ReachableStep(plan, s0, Begin(0));
    ReachableStep(plan, s1, Abort);
    ReachableStep(plan, s2, Poll(1));
    ReachableStep(plan, s3, Begin(1));
  }
}

module WaveIsolation {
  import opened Wrappers
  import opened Sequences
  import opened SchedulerCalls
  import opened Waves
  import opened WaveProperties
  import opened Slots
  import opened WavePool
  import opened PoolSafety
  import opened SchedulerRun

  lemma {:induction false} CountMember(rs: seq<Result>, k: nat)
    requires k < |rs|
    ensures ResultCount(rs, ResultTag(rs[k])) >= 1
  {
    if k < |rs| - 1 {
      CountMember(rs[..|rs| - 1], k);
    }
  }

  lemma NoReports(rs: seq<Result>)
    requires forall tag :: ResultCount(rs, tag) == 0
    ensures rs == []
  {
    if rs != [] {
      CountMember(rs, 0);
    }
  }

  lemma {:induction false} FlattenPrefix(waves: seq<seq<Call>>, k: nat)
    requires k <= |waves|
    ensures Offset(waves, k) <= |Flatten(waves)|
    ensures Flatten(waves[..k]) == Flatten(waves)[..Offset(waves, k)]
    decreases |waves| - k
  {
    assert waves[..|waves|] == waves;
    OffsetIsLength(waves, k);
    if k < |waves| {
      FlattenPrefix(waves, k + 1);
      assert waves[..k + 1][..k] == waves[..k];
    }
  }

  /** Call `a` of wave `k`, by its position in the batch. */
  lemma FlattenAt(waves: seq<seq<Call>>, k: nat, a: nat)
    requires k < |waves| && a < |waves[k]|
    ensures Offset(waves, k) + a < |Flatten(waves)|
    ensures Flatten(waves)[Offset(waves, k) + a] == waves[k][a]
  {
    OffsetIsLength(waves, k);
    FlattenPrefix(waves, k + 1);
    assert waves[..k + 1][..k] == waves[..k];
    assert Flatten(waves[..k + 1])[Offset(waves, k) + a] == waves[k][a];
  }

  /** Calls of different waves never overlap: while a worker is busy, its call sits in wave `s.pos`, and exactly
      the calls before that wave have been reported. */
  lemma EarlierWavesReported(calls: seq<Call>, limits: Limits, groupSeq: nat, s: State, w: nat)
    requires var plan := MakePlan(calls, limits, groupSeq); Reachable(plan, s) && WorkerAt(plan, s, w)
    ensures var plan := MakePlan(calls, limits, groupSeq);
      var ordered := SortCalls(calls);
      var start := Offset(plan.waves, s.pos);
      && start + s.pool.workers[w].i < |ordered|
      && InWave(plan.waves, s.pos, start + s.pool.workers[w].i)
      && ordered[start + s.pool.workers[w].i] == plan.waves[s.pos][s.pool.workers[w].i]
      && forall tag :: ResultCount(s.done, tag) == CallCount(ordered[..start], tag)
  {
    hide Partition, Inv;
    var plan := MakePlan(calls, limits, groupSeq);
    ReachableInv(plan, s);
    PartitionSound(SortCalls(calls));
    FlattenPrefix(plan.waves, s.pos);
    FlattenAt(plan.waves, s.pos, s.pool.workers[w].i);
  }

  /** While a barrier call is with a worker, no other worker is busy, every lower call has been reported and
      nothing else has: no higher call has been started. */
  lemma BarrierIsolation(calls: seq<Call>, limits: Limits, groupSeq: nat, s: State, w: nat)
    requires var plan := MakePlan(calls, limits, groupSeq);
      Reachable(plan, s) && WorkerAt(plan, s, w) && IsSerialBarrier(plan.waves[s.pos][s.pool.workers[w].i])
    ensures forall v :: 0 <= v < |s.pool.workers| && v != w ==> s.pool.workers[v].Exited?
    ensures s.pool.results == []
    ensures var plan := MakePlan(calls, limits, groupSeq);
      var q := Offset(plan.waves, s.pos);
      && q < |SortCalls(calls)| && SortCalls(calls)[q] == plan.waves[s.pos][s.pool.workers[w].i]
      && forall tag :: ResultCount(s.done, tag) == CallCount(SortCalls(calls)[..q], tag)
  {
    hide Partition;
    var plan := MakePlan(calls, limits, groupSeq);
    ReachableInv(plan, s);
    PartitionSound(SortCalls(calls));
    EarlierWavesReported(calls, limits, groupSeq, s, w);
    var job := JobOf(plan, s.pos);
    assert Admissible(job.wave);
    assert |job.wave| == 1 && |s.pool.workers| == 1;
    var c := job.wave[0];
    assert PhaseOk(job, s.aborted, s.pool.next, s.pool.workers[0]);
    assert Claimed(job, s.pool.next) == [c];
    forall tag ensures ResultCount(s.pool.results, tag) == 0 {
      assert [c][..0] == [] && s.pool.workers[..0] == [];
      assert CallCount([c], tag) == Pending(job, s.pool.workers, tag);
      assert ResultCount(s.pool.results, tag) + Pending(job, s.pool.workers, tag) == CallCount([c], tag);
    }
    NoReports(s.pool.results);
  }
}

module ExactlyOnce {
  import opened Wrappers
  import opened Sequences
  import opened Sorting
  import opened SchedulerCalls
  import opened Waves
  import opened WaveProperties
  import opened Slots
  import opened WavePool
  import opened PoolSafety
  import opened SchedulerRun
  import opened WaveIsolation

  ghost predicate DistinctIndices(calls: seq<Call>) {
    forall i, j :: 0 <= i < j < |calls| ==> calls[i].index != calls[j].index
  }

  predicate StrictlyOrdered(calls: seq<Call>) {
    forall i, j :: 0 <= i < j < |calls| ==> calls[i].index < calls[j].index
  }

  lemma ResultLeqPreorder()
    ensures TotalPreorder(ResultLeq()) && TotalPreorder(CallLeq())
  {
  }

  lemma {:induction false} MemberCount(cs: seq<Call>, tag: Tag)
    ensures CallCount(cs, tag) > 0 ==> exists i :: 0 <= i < |cs| && CallTag(cs[i]) == tag
    ensures forall i :: 0 <= i < |cs| && CallTag(cs[i]) == tag ==> CallCount(cs, tag) > 0
  {
    if cs != [] {
      var n := |cs| - 1;
      MemberCount(cs[..n], tag);
      if CallCount(cs, tag) > 0 && CallTag(cs[n]) != tag {
        var i :| 0 <= i < n && CallTag(cs[..n][i]) == tag;
        assert CallTag(cs[i]) == tag;
      }
      forall i | 0 <= i < |cs| && CallTag(cs[i]) == tag ensures CallCount(cs, tag) > 0 {
        assert i < n ==> cs[..n][i] == cs[i];
      }
    }
  }

  function TagLeq(): (Tag, Tag) -> bool { (a: Tag, b: Tag) => a.0 < b.0 || a == b }

  /** Reports that match a strictly ordered wave call for call become, once sorted, that wave's own order. */
  lemma SortedTagsAreTheWave(results: seq<Result>, wave: seq<Call>)
    requires StrictlyOrdered(wave)
    requires forall tag :: ResultCount(results, tag) == CallCount(wave, tag)
    ensures Map(ResultTag, SortResults(results)) == Map(CallTag, wave)
  {
    var sorted := SortResults(results);
    var xs, ys := Map(ResultTag, sorted), Map(CallTag, wave);
    forall tag ensures multiset(xs)[tag] == multiset(ys)[tag] {
      SortKeepsCount(results, tag);
      ResultCountMultiset(sorted, tag);
      CallCountMultiset(wave, tag);
    }
    assert multiset(xs) == multiset(ys);
    ResultLeqPreorder();
    SortSorted(ResultLeq(), results);
    TagsSorted(sorted, wave);
    SortedUnique(TagLeq(), xs, ys);
  }

  /** Sorted reports with the tags of a strictly ordered wave have sorted tags, as equal indices have equal tags. */
  lemma TagsSorted(sorted: seq<Result>, wave: seq<Call>)
    requires StrictlyOrdered(wave) && Sorted(ResultLeq(), sorted)
    requires multiset(Map(ResultTag, sorted)) == multiset(Map(CallTag, wave))
    ensures Sorted(TagLeq(), Map(ResultTag, sorted)) && Sorted(TagLeq(), Map(CallTag, wave))
  {
    var xs, ys := Map(ResultTag, sorted), Map(CallTag, wave);
    forall i, j | 0 <= i < j < |xs| ensures TagLeq()(xs[i], xs[j]) {
      assert ResultLeq()(sorted[i], sorted[j]);
      assert xs[i] in multiset(ys) && xs[j] in multiset(ys);
      var a := IndexOf(ys, xs[i]);
      var b := IndexOf(ys, xs[j]);
      assert ys[a] == CallTag(wave[a]) && ys[b] == CallTag(wave[b]);
    }
    forall i, j | 0 <= i < j < |ys| ensures TagLeq()(ys[i], ys[j]) {
      assert wave[i].index < wave[j].index;
    }
  }

  lemma ReportBelongs(job: Job, aborted: bool, r: Result, a: nat)
    requires FromWave(job, aborted, r) && StrictlyOrdered(job.wave)
    requires a < |job.wave| && ResultTag(r) == CallTag(job.wave[a])
    ensures ReportedFor(r, job.wave[a], job.group, aborted)
  {
    var i :| 0 <= i < |job.wave| && ReportedFor(r, job.wave[i], job.group, aborted);
    assert job.wave[i].index == job.wave[a].index;
    assert i == a;
  }

  /** One completed wave, sorted: each report belongs to the call at its position. */
  lemma WaveInOrder(job: Job, aborted: bool, p: Pool)
    requires Inv(job, aborted, p) && p.workers != [] && AllExited(p) && StrictlyOrdered(job.wave)
    ensures AllReported(SortResults(p.results), job, aborted)
  {
    forall tag ensures ResultCount(p.results, tag) == CallCount(job.wave, tag) {
      WaveComplete(job, aborted, p, tag);
    }
    var sorted := SortResults(p.results);
    SortedTagsAreTheWave(p.results, job.wave);
    SortPermutes(ResultLeq(), p.results);
    assert |Map(ResultTag, sorted)| == |Map(CallTag, job.wave)|;
    forall a | 0 <= a < |sorted| ensures ReportedFor(sorted[a], job.wave[a], job.group, aborted) {
      assert sorted[a] in multiset(p.results);
      var k := IndexOf(p.results, sorted[a]);
      assert FromWave(job, aborted, p.results[k]);
      assert Map(ResultTag, sorted)[a] == Map(CallTag, job.wave)[a];
      ReportBelongs(job, aborted, sorted[a], a);
    }
  }

  predicate AllReported(rs: seq<Result>, job: Job, aborted: bool) {
    |rs| == |job.wave| && forall a :: 0 <= a < |rs| ==> ReportedFor(rs[a], job.wave[a], job.group, aborted)
  }

  /** The reports of wave `k` stand at its positions, in order. */
  ghost predicate WaveReported(plan: Plan, done: seq<Result>, k: nat, aborted: bool)
    requires k < |plan.waves|
  {
    var start := Offset(plan.waves, k);
    start + |plan.waves[k]| <= |done| && AllReported(done[start..start + |plan.waves[k]|], JobOf(plan, k), aborted)
  }

  ghost predicate InOrder(plan: Plan, s: State) {
    && s.pos <= |plan.waves|
    && |s.done| == Offset(plan.waves, s.pos)
    && forall k :: 0 <= k < s.pos ==> WaveReported(plan, s.done, k, s.aborted)
  }

  lemma MoreReports(plan: Plan, done: seq<Result>, more: seq<Result>, k: nat, aborted: bool)
    requires k < |plan.waves| && WaveReported(plan, done, k, aborted)
    ensures WaveReported(plan, done + more, k, aborted)
  {
    var start := Offset(plan.waves, k);
    var end := start + |plan.waves[k]|;
    assert (done + more)[start..end] == done[start..end];
  }

  lemma NewReports(plan: Plan, done: seq<Result>, sorted: seq<Result>, k: nat, aborted: bool)
    requires k < |plan.waves| && |done| == Offset(plan.waves, k) && AllReported(sorted, JobOf(plan, k), aborted)
    ensures WaveReported(plan, done + sorted, k, aborted)
  {
    assert (done + sorted)[|done|..|done| + |sorted|] == sorted;
  }

  lemma AdvanceInOrder(plan: Plan, s: State)
    requires RunInv(plan, s) && InOrder(plan, s) && Enabled(plan, s, Advance)
    requires StrictlyOrdered(plan.waves[s.pos])
    ensures InOrder(plan, Apply(plan, s, Advance))
  {
    var job := JobOf(plan, s.pos);
    var sorted := SortResults(s.pool.results);
    WaveInOrder(job, s.aborted, s.pool);
    NewReports(plan, s.done, sorted, s.pos, s.aborted);
    forall k | 0 <= k < s.pos ensures WaveReported(plan, s.done + sorted, k, s.aborted) {
      MoreReports(plan, s.done, sorted, k, s.aborted);
    }
  }

  lemma AbortReported(plan: Plan, done: seq<Result>, k: nat, aborted: bool)
    requires k < |plan.waves| && WaveReported(plan, done, k, aborted)
    ensures WaveReported(plan, done, k, true)
  {
  }

  lemma StepInOrder(plan: Plan, s: State, l: Label)
    requires RunInv(plan, s) && InOrder(plan, s) && Enabled(plan, s, l)
    requires forall k :: 0 <= k < |plan.waves| ==> StrictlyOrdered(plan.waves[k])
    ensures InOrder(plan, Apply(plan, s, l))
  {
    if l.Advance? {
      AdvanceInOrder(plan, s);
    } else {
      forall k | 0 <= k < s.pos ensures WaveReported(plan, s.done, k, Apply(plan, s, l).aborted) {
        AbortReported(plan, s.done, k, s.aborted);
      }
    }
  }

  lemma SortedCallsStrict(calls: seq<Call>)
    requires DistinctIndices(calls)
    ensures StrictlyOrdered(SortCalls(calls))
  {
    ResultLeqPreorder();
    SortSorted(CallLeq(), calls);
    var index := (c: Call) => c.index;
    SortPermutes(CallLeq(), calls);
    MapMultiset(index, SortCalls(calls), calls);
    var sorted := SortCalls(calls);
    forall i, j | 0 <= i < j < |sorted| ensures sorted[i].index < sorted[j].index {
      assert CallLeq()(sorted[i], sorted[j]);
      if sorted[i].index == sorted[j].index {
        TwiceInMultiset(Map(index, sorted), i, j);
        OnceInMultiset(Map(index, calls), sorted[i].index);
      }
    }
  }

  lemma SortOfOrdered(calls: seq<Call>)
    requires StrictlyOrdered(calls)
    ensures SortCalls(calls) == calls
  {
    SortOfSorted(CallLeq(), calls);
  }

  lemma TwiceInMultiset<T>(xs: seq<T>, i: nat, j: nat)
    requires i < j < |xs| && xs[i] == xs[j]
    ensures multiset(xs)[xs[i]] >= 2
  {
    assert xs == xs[..j] + [xs[j]] + xs[j + 1..];
    assert xs[i] in xs[..j];
  }

  lemma {:induction false} OnceInMultiset<T>(xs: seq<T>, x: T)
    requires forall i, j :: 0 <= i < j < |xs| ==> xs[i] != xs[j]
    ensures multiset(xs)[x] <= 1
  {
    if xs != [] {
      OnceInMultiset(xs[1..], x);
      assert xs == [xs[0]] + xs[1..];
      if x == xs[0] {
        assert x !in xs[1..];
      }
    }
  }

  lemma WaveStrict(calls: seq<Call>, k: nat)
    requires StrictlyOrdered(calls) && k < |Partition(calls)|
    ensures StrictlyOrdered(Partition(calls)[k])
  {
    var waves := Partition(calls);
    PartitionSound(calls);
    forall i | 0 <= i < |waves[k]| ensures Offset(waves, k) + i < |calls| && waves[k][i] == calls[Offset(waves, k) + i] {
      FlattenAt(waves, k, i);
    }
  }

  lemma SameTagsSameLength(results: seq<Result>, calls: seq<Call>)
    requires forall tag :: ResultCount(results, tag) == CallCount(calls, tag)
    ensures multiset(Map(ResultTag, results)) == multiset(Map(CallTag, calls))
    ensures |results| == |calls|
  {
    var xs, ys := Map(ResultTag, results), Map(CallTag, calls);
    forall tag ensures multiset(xs)[tag] == multiset(ys)[tag] {
      ResultCountMultiset(results, tag);
      CallCountMultiset(calls, tag);
    }
    assert multiset(xs) == multiset(ys);
    assert |xs| == |multiset(xs)| && |ys| == |multiset(ys)|;
  }

  lemma SortKeepsCallCount(calls: seq<Call>, tag: Tag)
    ensures CallCount(SortCalls(calls), tag) == CallCount(calls, tag)
  {
    SortPermutes(CallLeq(), calls);
    MapMultiset(CallTag, SortCalls(calls), calls);
    CallCountMultiset(SortCalls(calls), tag);
    CallCountMultiset(calls, tag);
  }

  lemma SortedByIndex(results: seq<Result>)
    ensures var sorted := SortResults(results);
      forall i, j :: 0 <= i < j < |sorted| ==> sorted[i].index <= sorted[j].index
  {
    ResultLeqPreorder();
    SortSorted(ResultLeq(), results);
    var sorted := SortResults(results);
    forall i, j | 0 <= i < j < |sorted| ensures sorted[i].index <= sorted[j].index {
      assert ResultLeq()(sorted[i], sorted[j]);
    }
  }

  lemma OnceCore(plan: Plan, calls: seq<Call>, s: State)
    requires Flatten(plan.waves) == SortCalls(calls) && Reachable(plan, s) && Final(plan, s)
    ensures |Output(s)| == |calls|
    ensures forall tag :: ResultCount(Output(s), tag) == CallCount(calls, tag)
    ensures forall i, j :: 0 <= i < j < |Output(s)| ==> Output(s)[i].index <= Output(s)[j].index
  {
    ReachableInv(plan, s);
    assert plan.waves[..s.pos] == plan.waves;
    forall tag ensures ResultCount(Output(s), tag) == CallCount(calls, tag) {
      SortKeepsCount(s.done, tag);
      SortKeepsCallCount(calls, tag);
    }
    SameTagsSameLength(Output(s), calls);
    SortedByIndex(s.done);
  }

  /** Under every schedule and abort point a finished `run` returns each call's report exactly once, in order of
      index; no assumption on the indices is needed for this. */
  lemma ReportedOnce(calls: seq<Call>, limits: Limits, groupSeq: nat, s: State)
    requires Reachable(MakePlan(calls, limits, groupSeq), s) && Final(MakePlan(calls, limits, groupSeq), s)
    ensures |Output(s)| == |calls|
    ensures forall tag :: ResultCount(Output(s), tag) == CallCount(calls, tag)
    ensures forall i, j :: 0 <= i < j < |Output(s)| ==> Output(s)[i].index <= Output(s)[j].index
  {
    PartitionSound(SortCalls(calls));
    OnceCore(MakePlan(calls, limits, groupSeq), calls, s);
  }

  lemma PositionReported(plan: Plan, ordered: seq<Call>, s: State, k: nat, q: nat)
    requires Flatten(plan.waves) == ordered && InOrder(plan, s) && Final(plan, s)
    requires q < |ordered| && InWave(plan.waves, k, q)
    ensures q < |s.done| && ReportedFor(s.done[q], ordered[q], plan.groupSeq + k + 1, s.aborted)
  {
    assert WaveReported(plan, s.done, k, s.aborted);
    var start := Offset(plan.waves, k);
    FlattenAt(plan.waves, k, q - start);
    assert s.done[q] == s.done[start..start + |plan.waves[k]|][q - start];
  }

  lemma ReachableInOrder(plan: Plan, s: State)
    requires Reachable(plan, s)
    requires forall k :: 0 <= k < |plan.waves| ==> StrictlyOrdered(plan.waves[k])
    ensures InOrder(plan, s)
  {
    var states := iset t | RunInv(plan, t) && InOrder(plan, t);
    assert Flatten(plan.waves[..0]) == [];
    forall aborted ensures Init(plan, aborted) in states {
      EnterKeeps(plan, 0, aborted, []);
    }
    forall t, l | t in states && Enabled(plan, t, l) ensures Apply(plan, t, l) in states {
      StepKeeps(plan, t, l);
      StepInOrder(plan, t, l);
    }
    assert Closed(plan, states);
  }

  lemma InOrderIsOutput(ordered: seq<Call>, done: seq<Result>)
    requires StrictlyOrdered(ordered) && |done| == |ordered|
    requires forall q :: 0 <= q < |ordered| ==> done[q].index == ordered[q].index
    ensures SortResults(done) == done
  {
    forall i, j | 0 <= i < j < |done| ensures ResultLeq()(done[i], done[j]) {
      assert ordered[i].index < ordered[j].index;
    }
    SortOfSorted(ResultLeq(), done);
  }

  lemma PlanStrict(calls: seq<Call>)
    requires DistinctIndices(calls)
    ensures StrictlyOrdered(SortCalls(calls))
    ensures var waves := Partition(SortCalls(calls)); forall k :: 0 <= k < |waves| ==> StrictlyOrdered(waves[k])
  {
    SortedCallsStrict(calls);
    var waves := Partition(SortCalls(calls));
    forall k | 0 <= k < |waves| ensures StrictlyOrdered(waves[k]) {
      WaveStrict(SortCalls(calls), k);
    }
  }

  lemma AllDone(plan: Plan, s: State)
    requires InOrder(plan, s) && Final(plan, s)
    ensures |s.done| == |Flatten(plan.waves)|
  {
    OffsetIsLength(plan.waves, s.pos);
    assert plan.waves[..s.pos] == plan.waves;
  }

  lemma IndexAt(plan: Plan, ordered: seq<Call>, s: State, q: nat)
    requires Flatten(plan.waves) == ordered && InOrder(plan, s) && Final(plan, s) && q < |ordered|
    ensures q < |s.done| && s.done[q].index == ordered[q].index
  {
    assert plan.waves[..|plan.waves|] == plan.waves;
    var k := HoldingWave(plan.waves, |plan.waves|, q);
    PositionReported(plan, ordered, s, k, q);
  }

  lemma {:induction false} HoldingWave(waves: seq<seq<Call>>, n: nat, q: nat) returns (k: nat)
    requires n <= |waves| && q < |Flatten(waves[..n])|
    ensures InWave(waves, k, q)
  {
    OffsetIsLength(waves, n);
    if q >= Offset(waves, n - 1) {
      k := n - 1;
    } else {
      OffsetIsLength(waves, n - 1);
      k := HoldingWave(waves, n - 1, q);
    }
  }

  lemma OutputIsDone(plan: Plan, ordered: seq<Call>, s: State)
    requires Flatten(plan.waves) == ordered && StrictlyOrdered(ordered) && InOrder(plan, s) && Final(plan, s)
    ensures |s.done| == |ordered| && Output(s) == s.done
  {
    AllDone(plan, s);
    assert plan.waves[..|plan.waves|] == plan.waves;
    forall q | 0 <= q < |ordered| ensures s.done[q].index == ordered[q].index {
      IndexAt(plan, ordered, s, q);
    }
    InOrderIsOutput(ordered, s.done);
  }

  lemma OrderedCore(plan: Plan, ordered: seq<Call>, s: State, p: nat, k: nat)
    requires Flatten(plan.waves) == ordered && StrictlyOrdered(ordered) && Reachable(plan, s) && Final(plan, s)
    requires forall j :: 0 <= j < |plan.waves| ==> StrictlyOrdered(plan.waves[j])
    requires p < |ordered| && InWave(plan.waves, k, p)
    ensures |Output(s)| == |ordered|
    ensures ReportedFor(Output(s)[p], ordered[p], plan.groupSeq + k + 1, s.aborted)
  {
    ReachableInOrder(plan, s);
    OutputIsDone(plan, ordered, s);
    PositionReported(plan, ordered, s, k, p);
  }

  /** With distinct indices, report `p` is the one of the `p`-th call by index: strictly increasing order, its own
      id, its own outcome, the group of its wave `k`. Without an abort that outcome is what the call settled to. */
  lemma OrderedResults(calls: seq<Call>, limits: Limits, groupSeq: nat, s: State, p: nat, k: nat)
    requires DistinctIndices(calls) && p < |calls|
    requires Reachable(MakePlan(calls, limits, groupSeq), s) && Final(MakePlan(calls, limits, groupSeq), s)
    requires InWave(Partition(SortCalls(calls)), k, p)
    ensures |Output(s)| == |SortCalls(calls)| == |calls| && StrictlyOrdered(SortCalls(calls))
    ensures ReportedFor(Output(s)[p], SortCalls(calls)[p], groupSeq + k + 1, s.aborted)
    ensures !s.aborted ==> Output(s)[p] == SettledResult(SortCalls(calls)[p], groupSeq + k + 1, false)
  {
    hide Partition, StrictlyOrdered, ReportedFor, Output, InWave;
    SortPermutes(CallLeq(), calls);
    PlanStrict(calls);
    PartitionSound(SortCalls(calls));
    OrderedCore(MakePlan(calls, limits, groupSeq), SortCalls(calls), s, p, k);
  }
}
