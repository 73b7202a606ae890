// The worker pool without its counters: slots are given by counting the calls that hold them.

module PoolWithoutCounters {
  import opened Wrappers
  import opened Sequences
  import opened SchedulerCalls
  import opened Slots
  import opened WavePool
  import opened PoolSafety
  import opened SchedulerRun
  import opened CallClasses

  /** A call whose slots are taken: it runs, or is about to. */
  predicate HoldsSlots(wave: seq<Call>, phase: Phase) {
    (phase.Running? || (phase.Ready? && phase.holds)) && phase.i < |wave|
  }

  /** The number of calls that hold their slots and satisfy `p`. */
  function HoldingWhere(wave: seq<Call>, workers: seq<Phase>, p: Call -> bool): nat {
    if workers == [] then 0
    else
      var last := workers[|workers| - 1];
      HoldingWhere(wave, workers[..|workers| - 1], p) + if HoldsSlots(wave, last) && p(wave[last.i]) then 1 else 0
  }

  /** Fewer calls than the limit hold a slot for the call's tool, and for its host and its server if they are named. */
  predicate Room(job: Job, workers: seq<Phase>, call: Call) {
    && HoldingWhere(job.wave, workers, OnTool(call.toolName)) < job.limits.perTool
    && (call.host.Some? && call.host.value != "" ==>
          HoldingWhere(job.wave, workers, OnHost(call.host.value)) < job.limits.perHost)
    && (call.serverId.Some? && call.serverId.value != "" ==>
          HoldingWhere(job.wave, workers, OnServer(call.serverId.value)) < job.limits.perServer)
  }

  /** A pool without counters. */
  datatype Desk = Desk(next: nat, workers: seq<Phase>, results: seq<Result>)

  datatype Bare = Bare(pos: nat, desk: Desk, aborted: bool, done: seq<Result>)

  /** Worker `w` asks for the slots of call `i`: it goes on at once after an abort, or with the slots, or it waits. */
  function Asked(job: Job, aborted: bool, workers: seq<Phase>, w: nat, i: nat): seq<Phase>
    requires w < |workers| && i < |job.wave|
  {
    workers[w := if aborted then Ready(i, false)
                 else if Room(job, workers[w := Exited], job.wave[i]) then Ready(i, true)
                 else Polling(i)]
  }

  /** Worker `w` takes the next call of the wave and asks for its slots, or leaves when there is none. */
  function ClaimedNext(job: Job, aborted: bool, d: Desk, w: nat): Desk
    requires w < |d.workers|
  {
    if d.next < |job.wave| then Desk(d.next + 1, Asked(job, aborted, d.workers, w, d.next), d.results)
    else Desk(d.next + 1, d.workers[w := Exited], d.results)
  }

  /** Worker `w` reports `r` and takes the next call. */
  function Reporting(job: Job, aborted: bool, d: Desk, w: nat, r: Result): Desk
    requires w < |d.workers|
  {
    ClaimedNext(job, aborted, Desk(d.next, d.workers[w := Exited], d.results + [r]), w)
  }

  function Cancellation(call: Call, group: nat): Result {
    Result(call.index, call.toolCallId, group, true, Text("cancelled"), true)
  }

  /** What is reported for a call that has settled; one that throws after an abort counts as cancelled. */
  function Settling(call: Call, group: nat, aborted: bool): Result {
    match call.run
    case Resolved(value, isError) => Result(call.index, call.toolCallId, group, false, Value(value), isError)
    case Rejected(message) => Result(call.index, call.toolCallId, group, aborted, Text(message), true)
  }

  /** One worker's next move. */
  function Moved(job: Job, aborted: bool, d: Desk, w: nat): Desk
    requires w < |d.workers|
  {
    match d.workers[w]
    case Exited => d
    case Polling(i) => if i < |job.wave| then d.(workers := Asked(job, aborted, d.workers, w, i)) else d
    case Ready(i, _) =>
      if i >= |job.wave| then d
      else if aborted then Reporting(job, aborted, d, w, Cancellation(job.wave[i], job.group))
      else d.(workers := d.workers[w := Running(i)])
    case Running(i) =>
      if i >= |job.wave| then d else Reporting(job, aborted, d, w, Settling(job.wave[i], job.group, aborted))
  }

  /** At most `globalMax` workers, and no more than calls, but at least one. */
  function WorkerCount(job: Job): nat {
    var n := |job.wave|;
    if job.limits.globalMax < 1 || n < 1 then 1 else if job.limits.globalMax < n then job.limits.globalMax else n
  }

  /** The first `n` workers have started, one after the other. */
  function Opened(job: Job, aborted: bool, n: nat): (d: Desk)
    ensures |d.workers| == n
  {
    if n == 0 then Desk(0, [], [])
    else
      var d := Opened(job, aborted, n - 1);
      ClaimedNext(job, aborted, d.(workers := d.workers + [Exited]), n - 1)
  }

  function Entered(plan: Plan, k: nat, aborted: bool, done: seq<Result>): Bare {
    Bare(k, if k < |plan.waves| then Opened(JobOf(plan, k), aborted, WorkerCount(JobOf(plan, k))) else Desk(0, [], []),
         aborted, done)
  }

  /** The same step of a run, without counters. */
  function BareStep(plan: Plan, b: Bare, l: Label): Bare {
    match l
    case Abort => b.(aborted := true)
    case Advance => Entered(plan, b.pos + 1, b.aborted, b.done + SortResults(b.desk.results))
    case _ => if b.pos < |plan.waves| && l.w < |b.desk.workers|
              then b.(desk := Moved(JobOf(plan, b.pos), b.aborted, b.desk, l.w)) else b
  }

  /** The run without counters that starts in `b` and takes these steps. */
  function BareRun(plan: Plan, b: Bare, labels: seq<Label>): Bare
    decreases |labels|
  {
    if labels == [] then b else BareRun(plan, BareStep(plan, b, labels[0]), labels[1..])
  }

  // ----- The counters decide nothing else -----

  function DeskOf(p: Pool): Desk {
    Desk(p.next, p.workers, p.results)
  }

  function BareOf(s: State): Bare {
    Bare(s.pos, DeskOf(s.pool), s.aborted, s.done)
  }

  lemma {:induction false} HeldNamed(job: Job, workers: seq<Phase>, kind: Kind, key: string, p: Call -> bool)
    requires forall c :: p(c) <==> Key(kind, c) == Some(key)
    ensures HoldingWhere(job.wave, workers, p) == Held(job, workers, kind, key)
  {
    if workers != [] {
      HeldNamed(job, workers[..|workers| - 1], kind, key, p);
    }
  }

  predicate Idle(job: Job, phase: Phase) {
    !HoldsSlots(job.wave, phase)
  }

  lemma CountedExactly(job: Job, p: Pool, w: nat, kind: Kind, key: string, named: Call -> bool)
    requires w < |p.workers| && Idle(job, p.workers[w]) && SlotsOk(job, false, p)
    requires forall c :: named(c) <==> Key(kind, c) == Some(key)
    ensures Get(p.counters.Of(kind), key) == HoldingWhere(job.wave, p.workers[w := Exited], named)
  {
    HeldNamed(job, p.workers[w := Exited], kind, key, named);
    HeldUpdate(job, p.workers, w, Exited, kind, key);
    assert CounterOk(false, Get(p.counters.Of(kind), key), Held(job, p.workers, kind, key), LimitOf(job.limits, kind));
  }

  lemma RoomExactly(job: Job, p: Pool, w: nat, call: Call)
    requires w < |p.workers| && Idle(job, p.workers[w]) && SlotsOk(job, false, p)
    ensures CanTake(call, p.counters, job.limits) <==> Room(job, p.workers[w := Exited], call)
  {
    hide SlotsOk, HoldingWhere;
    CountedExactly(job, p, w, Tool, call.toolName, OnTool(call.toolName));
    if Truthy(call.host) {
      CountedExactly(job, p, w, Host, call.host.value, OnHost(call.host.value));
    }
    if Truthy(call.serverId) {
      CountedExactly(job, p, w, Server, call.serverId.value, OnServer(call.serverId.value));
    }
  }

  lemma CheckExactly(job: Job, aborted: bool, p: Pool, w: nat, i: nat)
    requires w < |p.workers| && i < |job.wave| && Idle(job, p.workers[w]) && SlotsOk(job, aborted, p)
    ensures DeskOf(Check(job, aborted, p, w, i)) == DeskOf(p).(workers := Asked(job, aborted, p.workers, w, i))
  {
    if !aborted {
      RoomExactly(job, p, w, job.wave[i]);
    }
  }

  lemma ClaimExactly(job: Job, aborted: bool, p: Pool, w: nat)
    requires w < |p.workers| && Idle(job, p.workers[w]) && SlotsOk(job, aborted, p)
    ensures DeskOf(Claim(job, aborted, p, w)) == ClaimedNext(job, aborted, DeskOf(p), w)
  {
    hide Check, Asked, Idle;
    if p.next < |job.wave| {
      SameSlots(job, aborted, p, p.(next := p.next + 1));
      CheckExactly(job, aborted, p.(next := p.next + 1), w, p.next);
    }
  }

  lemma SameSlots(job: Job, aborted: bool, p: Pool, q: Pool)
    requires SlotsOk(job, aborted, p) && q.counters == p.counters && q.workers == p.workers
    ensures SlotsOk(job, aborted, q)
  {
  }

  lemma CompleteExactly(job: Job, aborted: bool, p: Pool, w: nat, i: nat, r: Result)
    requires w < |p.workers| && i < |job.wave| && Inv(job, aborted, p)
    requires p.workers[w] == Running(i) || (aborted && p.workers[w].Ready? && p.workers[w].i == i)
    requires ReportedFor(r, job.wave[i], job.group, aborted)
    ensures DeskOf(Complete(job, aborted, p, w, i, r)) == Reporting(job, aborted, DeskOf(p), w, r)
  {
    hide Claim, ClaimedNext, Inv, SlotsOk, ReportedFor;
    ReportKeeps(job, aborted, p, w, i, r);
    ClaimExactly(job, aborted, Reported(job, p, w, i, r), w);
    ClaimOverwrites(job, aborted, p.(counters := Release(job.wave[i], p.counters), results := p.results + [r]), w, Exited);
  }

  /** A worker's step is the same without counters. */
  lemma StepExactly(plan: Plan, s: State, l: Label)
    requires RunInv(plan, s) && Enabled(plan, s, l)
    ensures BareOf(Apply(plan, s, l)) == BareStep(plan, BareOf(s), l)
  {
    hide SlotsOk, Claim, Check, Asked, Reporting, Room;
    match l
    case Poll(w) =>
      CheckExactly(JobOf(plan, s.pos), s.aborted, s.pool, w, s.pool.workers[w].i);
    case Begin(w) =>
      var job, i := JobOf(plan, s.pos), s.pool.workers[w].i;
      if s.aborted {
        CompleteExactly(job, true, s.pool, w, i, CancelledResult(job.wave[i], job.group));
      }
    case Finish(w) =>
      var job, i := JobOf(plan, s.pos), s.pool.workers[w].i;
      CompleteExactly(job, s.aborted, s.pool, w, i, SettledResult(job.wave[i], job.group, s.aborted));
    case Advance =>
      EnterExactly(plan, s.pos + 1, s.aborted, s.done + SortResults(s.pool.results));
    case Abort =>
  }

  lemma OneMoreIdle(job: Job, aborted: bool, p: Pool)
    requires SlotsOk(job, aborted, p)
    ensures SlotsOk(job, aborted, p.(workers := p.workers + [Exited]))
  {
    var q := p.(workers := p.workers + [Exited]);
    assert q.workers[..|p.workers|] == p.workers;
    forall kind, key
      ensures CounterOk(aborted, Get(q.counters.Of(kind), key), Held(job, q.workers, kind, key), LimitOf(job.limits, kind))
    {
      assert CounterOk(aborted, Get(p.counters.Of(kind), key), Held(job, p.workers, kind, key), LimitOf(job.limits, kind));
    }
  }

  lemma {:induction false} LaunchedExactly(job: Job, aborted: bool, n: nat)
    ensures DeskOf(Launched(job, aborted, n)) == Opened(job, aborted, n)
  {
    hide Claim, ClaimedNext, SlotsOk;
    if n > 0 {
      LaunchedExactly(job, aborted, n - 1);
      LaunchedKeeps(job, aborted, n - 1);
      var p := Launched(job, aborted, n - 1);
      OneMoreIdle(job, aborted, p);
      ClaimExactly(job, aborted, p.(workers := p.workers + [Exited]), n - 1);
    }
  }

  lemma EnterExactly(plan: Plan, k: nat, aborted: bool, done: seq<Result>)
    ensures BareOf(Enter(plan, k, aborted, done)) == Entered(plan, k, aborted, done)
  {
    hide Launched, Opened;
    if k < |plan.waves| {
      LaunchedExactly(JobOf(plan, k), aborted, SlotLimit(JobOf(plan, k)));
    }
  }

  lemma {:induction false} CacheFrom(plan: Plan, s: State, labels: seq<Label>, t: State)
    requires RunInv(plan, s) && Leads(plan, s, labels, t)
    ensures BareOf(t) == BareRun(plan, BareOf(s), labels)
    decreases |labels|
  {
    hide Enabled, Apply, BareStep, RunInv;
    if labels != [] {
      StepExactly(plan, s, labels[0]);
      StepKeeps(plan, s, labels[0]);
      CacheFrom(plan, Apply(plan, s, labels[0]), labels[1..], t);
    }
  }

  /** The counters are only a cache: under every schedule and abort point, workers, claims and reports are those of a run
      that has no counters, and gives a call its slots exactly when fewer calls than the limits hold slots for its tool,
      host and server. */
  lemma CountersCache(plan: Plan, aborted: bool, labels: seq<Label>, s: State)
    requires Leads(plan, Init(plan, aborted), labels, s)
    ensures BareOf(s) == BareRun(plan, Entered(plan, 0, aborted, []), labels)
  {
    hide Leads, RunInv, BareRun, Enter, Entered;
    InitKept(plan, aborted);
    EnterExactly(plan, 0, aborted, []);
    CacheFrom(plan, Init(plan, aborted), labels, s);
  }

  lemma InitKept(plan: Plan, aborted: bool)
    ensures RunInv(plan, Init(plan, aborted))
  {
    assert Flatten(plan.waves[..0]) == [];
    EnterKeeps(plan, 0, aborted, []);
  }

  /** No worker is idle while a call is unclaimed, and there are as many as the limit and the wave allow. */
  lemma WorkConserved(plan: Plan, s: State)
    requires Reachable(plan, s) && !Final(plan, s)
    ensures |s.pool.workers| == WorkerCount(JobOf(plan, s.pos))
    ensures (exists w :: 0 <= w < |s.pool.workers| && s.pool.workers[w].Exited?) ==> s.pool.next >= |plan.waves[s.pos]|
  {
    ReachableInv(plan, s);
  }
}
