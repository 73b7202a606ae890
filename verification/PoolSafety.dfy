// The invariant of one wave's pool: slots, claims and results, under every step and abort point.

module PoolSafety {
  import opened Wrappers
  import opened Sequences
  import opened SchedulerCalls
  import opened Slots
  import opened WavePool

  // ----- Who holds which slot -----

  function HeldKey(job: Job, phase: Phase, kind: Kind): Option<string> {
    if (phase.Running? || (phase.Ready? && phase.holds)) && phase.i < |job.wave|
    then Key(kind, job.wave[phase.i]) else None
  }

  function Holds(job: Job, phase: Phase, kind: Kind, key: string): nat {
    if HeldKey(job, phase, kind) == Some(key) then 1 else 0
  }

  /** The number of workers that hold a slot for `key`. */
  function Held(job: Job, workers: seq<Phase>, kind: Kind, key: string): nat {
    if workers == [] then 0
    else Held(job, workers[..|workers| - 1], kind, key) + Holds(job, workers[|workers| - 1], kind, key)
  }

  lemma {:induction false} HeldUpdate(job: Job, workers: seq<Phase>, w: nat, phase: Phase, kind: Kind, key: string)
    requires w < |workers|
    ensures Held(job, workers[w := phase], kind, key) + Holds(job, workers[w], kind, key)
         == Held(job, workers, kind, key) + Holds(job, phase, kind, key)
  {
    var n := |workers| - 1;
    if w < n {
      HeldUpdate(job, workers[..n], w, phase, kind, key);
      assert workers[w := phase][..n] == workers[..n][w := phase];
    } else {
      assert workers[w := phase][..n] == workers[..n];
    }
  }

  // ----- Which call a worker has claimed and not yet reported -----

  type Tag = (int, string)

  function CallTag(call: Call): Tag { (call.index, call.toolCallId) }

  function ResultTag(r: Result): Tag { (r.index, r.toolCallId) }

  function CallCount(calls: seq<Call>, tag: Tag): nat {
    if calls == [] then 0
    else CallCount(calls[..|calls| - 1], tag) + if CallTag(calls[|calls| - 1]) == tag then 1 else 0
  }

  function ResultCount(results: seq<Result>, tag: Tag): nat {
    if results == [] then 0
    else ResultCount(results[..|results| - 1], tag) + if ResultTag(results[|results| - 1]) == tag then 1 else 0
  }

  function Pends(job: Job, phase: Phase, tag: Tag): nat {
    if !phase.Exited? && phase.i < |job.wave| && CallTag(job.wave[phase.i]) == tag then 1 else 0
  }

  /** The number of workers that have claimed a call tagged `tag` and not yet reported it. */
  function Pending(job: Job, workers: seq<Phase>, tag: Tag): nat {
    if workers == [] then 0
    else Pending(job, workers[..|workers| - 1], tag) + Pends(job, workers[|workers| - 1], tag)
  }

  lemma {:induction false} PendingUpdate(job: Job, workers: seq<Phase>, w: nat, phase: Phase, tag: Tag)
    requires w < |workers|
    ensures Pending(job, workers[w := phase], tag) + Pends(job, workers[w], tag)
         == Pending(job, workers, tag) + Pends(job, phase, tag)
  {
    var n := |workers| - 1;
    if w < n {
      PendingUpdate(job, workers[..n], w, phase, tag);
      assert workers[w := phase][..n] == workers[..n][w := phase];
    } else {
      assert workers[w := phase][..n] == workers[..n];
    }
  }

  /** The calls handed out so far. */
  function Claimed(job: Job, next: nat): seq<Call> {
    job.wave[..Min(next, |job.wave|)]
  }

  lemma ClaimedStep(job: Job, next: nat, tag: Tag)
    ensures CallCount(Claimed(job, next + 1), tag)
         == CallCount(Claimed(job, next), tag)
            + if next < |job.wave| && CallTag(job.wave[next]) == tag then 1 else 0
  {
    if next < |job.wave| {
      assert job.wave[..next + 1][..next] == job.wave[..next];
    }
  }

  // ----- The invariant -----

  /** Before an abort a counter is its number of holders; afterwards it may only be too low. */
  predicate CounterOk(aborted: bool, stored: int, held: nat, limit: int) {
    && (if aborted then stored <= held else stored == held)
    && held <= Max(0, limit)
  }

  predicate Positive(counter: Counter) {
    forall key :: key in counter ==> counter[key] >= 1
  }

  ghost predicate SlotsOk(job: Job, aborted: bool, p: Pool) {
    && (forall kind, key ::
          CounterOk(aborted, Get(p.counters.Of(kind), key), Held(job, p.workers, kind, key), LimitOf(job.limits, kind)))
    && (forall kind :: Positive(p.counters.Of(kind)))
  }

  predicate PhaseOk(job: Job, aborted: bool, next: nat, phase: Phase) {
    && (!phase.Exited? ==> phase.i < |job.wave| && phase.i < next)
    && (phase.Ready? && !aborted ==> phase.holds)
    && (phase.Ready? && !phase.holds ==> aborted)
  }

  /** Every call handed out is either with a worker or reported, and nothing else is. */
  ghost predicate Conserved(job: Job, p: Pool) {
    forall tag :: ResultCount(p.results, tag) + Pending(job, p.workers, tag) == CallCount(Claimed(job, p.next), tag)
  }

  /** `r` is what the source reports for `call`; a call is cancelled, or fails as cancelled, only after an abort. */
  predicate ReportedFor(r: Result, call: Call, group: nat, aborted: bool) {
    || r == SettledResult(call, group, false)
    || (aborted && (r == CancelledResult(call, group) || r == SettledResult(call, group, true)))
  }

  ghost predicate FromWave(job: Job, aborted: bool, r: Result) {
    exists i :: 0 <= i < |job.wave| && ReportedFor(r, job.wave[i], job.group, aborted)
  }

  ghost predicate ResultsOk(job: Job, aborted: bool, results: seq<Result>) {
    forall k :: 0 <= k < |results| ==> FromWave(job, aborted, results[k])
  }

  ghost predicate Core(job: Job, aborted: bool, p: Pool) {
    && (forall w :: 0 <= w < |p.workers| ==> PhaseOk(job, aborted, p.next, p.workers[w]))
    && SlotsOk(job, aborted, p)
    && Conserved(job, p)
    && ResultsOk(job, aborted, p.results)
  }

  /** Workers other than `except` leave only when no call is left to claim. */
  predicate ExitOk(job: Job, p: Pool, except: int) {
    forall w :: 0 <= w < |p.workers| && w != except && p.workers[w].Exited? ==> p.next >= |job.wave|
  }

  ghost predicate Inv(job: Job, aborted: bool, p: Pool) {
    Core(job, aborted, p) && ExitOk(job, p, -1)
  }

  // ----- Slots are kept -----

  lemma SetPhase(job: Job, aborted: bool, p: Pool, w: nat, phase: Phase)
    requires w < |p.workers| && SlotsOk(job, aborted, p)
    requires forall kind :: HeldKey(job, phase, kind) == HeldKey(job, p.workers[w], kind)
    ensures SlotsOk(job, aborted, p.(workers := p.workers[w := phase]))
  {
    forall kind, key
      ensures Held(job, p.workers[w := phase], kind, key) == Held(job, p.workers, kind, key)
    {
      HeldUpdate(job, p.workers, w, phase, kind, key);
    }
  }

  lemma TakeKeepsSlots(job: Job, p: Pool, w: nat, i: nat)
    requires w < |p.workers| && i < |job.wave| && SlotsOk(job, false, p)
    requires forall kind :: HeldKey(job, p.workers[w], kind) == None
    requires CanTake(job.wave[i], p.counters, job.limits)
    ensures SlotsOk(job, false, p.(workers := p.workers[w := Ready(i, true)], counters := Take(job.wave[i], p.counters)))
  {
    hide CounterOk, Increment, Get, Key, Held, HeldKey, LimitOf, CanTake;
    var c := Take(job.wave[i], p.counters);
    forall kind, key
      ensures CounterOk(false, Get(c.Of(kind), key), Held(job, p.workers[w := Ready(i, true)], kind, key), LimitOf(job.limits, kind))
    {
      assert CounterOk(false, Get(p.counters.Of(kind), key), Held(job, p.workers, kind, key), LimitOf(job.limits, kind));
      assert Positive(p.counters.Of(kind));
      CounterTaken(job, p, w, i, kind, key);
    }
    forall kind ensures Positive(c.Of(kind)) {
      assert CounterOk(false, Get(p.counters.Of(kind), ""), Held(job, p.workers, kind, ""), LimitOf(job.limits, kind));
      assert Positive(p.counters.Of(kind));
      CounterTaken(job, p, w, i, kind, "");
    }
  }

  lemma CounterTaken(job: Job, p: Pool, w: nat, i: nat, kind: Kind, key: string)
    requires w < |p.workers| && i < |job.wave| && Positive(p.counters.Of(kind))
    requires HeldKey(job, p.workers[w], kind) == None && CanTake(job.wave[i], p.counters, job.limits)
    requires CounterOk(false, Get(p.counters.Of(kind), key), Held(job, p.workers, kind, key), LimitOf(job.limits, kind))
    ensures var counter := Take(job.wave[i], p.counters).Of(kind);
      && CounterOk(false, Get(counter, key), Held(job, p.workers[w := Ready(i, true)], kind, key), LimitOf(job.limits, kind))
      && Positive(counter)
  {
    HeldUpdate(job, p.workers, w, Ready(i, true), kind, key);
    assert HasRoom(kind, job.wave[i], p.counters, job.limits);
    assert Take(job.wave[i], p.counters).Of(kind) == Increment(p.counters.Of(kind), Key(kind, job.wave[i]));
  }

  /** `decSlot` for a worker that leaves call `i`, whether or not it ever took the slots. */
  lemma ReleaseKeepsSlots(job: Job, aborted: bool, p: Pool, w: nat, i: nat)
    requires w < |p.workers| && i < |job.wave| && SlotsOk(job, aborted, p)
    requires forall kind ::
      HeldKey(job, p.workers[w], kind) == Key(kind, job.wave[i]) || (aborted && HeldKey(job, p.workers[w], kind) == None)
    ensures SlotsOk(job, aborted, p.(workers := p.workers[w := Exited], counters := Release(job.wave[i], p.counters)))
  {
    hide CounterOk, Decrement, Get, Key, Held, HeldKey, LimitOf;
    var c := Release(job.wave[i], p.counters);
    forall kind, key
      ensures CounterOk(aborted, Get(c.Of(kind), key), Held(job, p.workers[w := Exited], kind, key), LimitOf(job.limits, kind))
    {
      assert CounterOk(aborted, Get(p.counters.Of(kind), key), Held(job, p.workers, kind, key), LimitOf(job.limits, kind));
      assert Positive(p.counters.Of(kind));
      CounterReleased(job, aborted, p, w, i, kind, key);
    }
    forall kind ensures Positive(c.Of(kind)) {
      assert CounterOk(aborted, Get(p.counters.Of(kind), ""), Held(job, p.workers, kind, ""), LimitOf(job.limits, kind));
      assert Positive(p.counters.Of(kind));
      CounterReleased(job, aborted, p, w, i, kind, "");
    }
  }

  lemma CounterReleased(job: Job, aborted: bool, p: Pool, w: nat, i: nat, kind: Kind, key: string)
    requires w < |p.workers| && i < |job.wave| && Positive(p.counters.Of(kind))
    requires HeldKey(job, p.workers[w], kind) == Key(kind, job.wave[i]) || (aborted && HeldKey(job, p.workers[w], kind) == None)
    requires CounterOk(aborted, Get(p.counters.Of(kind), key), Held(job, p.workers, kind, key), LimitOf(job.limits, kind))
    ensures var counter := Release(job.wave[i], p.counters).Of(kind);
      && CounterOk(aborted, Get(counter, key), Held(job, p.workers[w := Exited], kind, key), LimitOf(job.limits, kind))
      && Positive(counter)
  {
    HeldUpdate(job, p.workers, w, Exited, kind, key);
    assert Release(job.wave[i], p.counters).Of(kind) == Decrement(p.counters.Of(kind), Key(kind, job.wave[i]));
  }

  // ----- Claims are kept -----

  lemma MoveKeepsClaims(job: Job, p: Pool, w: nat, phase: Phase)
    requires w < |p.workers| && Conserved(job, p)
    requires forall tag :: Pends(job, p.workers[w], tag) == Pends(job, phase, tag)
    ensures Conserved(job, p.(workers := p.workers[w := phase]))
  {
    forall tag ensures Pending(job, p.workers[w := phase], tag) == Pending(job, p.workers, tag) {
      PendingUpdate(job, p.workers, w, phase, tag);
    }
  }

  lemma ClaimKeepsClaims(job: Job, p: Pool, w: nat)
    requires w < |p.workers| && p.workers[w] == Exited && p.next < |job.wave| && Conserved(job, p)
    ensures Conserved(job, p.(next := p.next + 1, workers := p.workers[w := Polling(p.next)]))
  {
    var q := p.(next := p.next + 1, workers := p.workers[w := Polling(p.next)]);
    forall tag ensures ResultCount(q.results, tag) + Pending(job, q.workers, tag) == CallCount(Claimed(job, q.next), tag) {
      PendingUpdate(job, p.workers, w, Polling(p.next), tag);
      ClaimedStep(job, p.next, tag);
    }
  }

  lemma ReportKeepsClaims(job: Job, p: Pool, w: nat, r: Result)
    requires w < |p.workers| && !p.workers[w].Exited? && p.workers[w].i < |job.wave| && Conserved(job, p)
    requires ResultTag(r) == CallTag(job.wave[p.workers[w].i])
    ensures Conserved(job, p.(results := p.results + [r], workers := p.workers[w := Exited]))
  {
    var q := p.(results := p.results + [r], workers := p.workers[w := Exited]);
    assert q.results[..|p.results|] == p.results;
    forall tag ensures ResultCount(q.results, tag) + Pending(job, q.workers, tag) == CallCount(Claimed(job, q.next), tag) {
      PendingUpdate(job, p.workers, w, Exited, tag);
    }
  }

  // ----- Steps keep the invariant -----

  lemma CheckKeeps(job: Job, aborted: bool, p: Pool, w: nat, i: nat)
    requires w < |p.workers| && p.workers[w] == Polling(i) && i < |job.wave| && Inv(job, aborted, p)
    ensures Inv(job, aborted, Check(job, aborted, p, w, i))
  {
    var p' := Check(job, aborted, p, w, i);
    assert PhaseOk(job, aborted, p.next, p.workers[w]);
    assert SlotsOk(job, aborted, p') by {
      if aborted || !CanTake(job.wave[i], p.counters, job.limits) {
        SetPhase(job, aborted, p, w, p'.workers[w]);
      } else {
        TakeKeepsSlots(job, p, w, i);
      }
    }
    MoveKeepsClaims(job, p, w, p'.workers[w]);
  }

  lemma CheckOverwrites(job: Job, aborted: bool, p: Pool, w: nat, phase: Phase, i: nat)
    requires w < |p.workers| && i < |job.wave|
    ensures Check(job, aborted, p.(workers := p.workers[w := phase]), w, i) == Check(job, aborted, p, w, i)
  {
    assert p.workers[w := phase][w := Ready(i, true)] == p.workers[w := Ready(i, true)];
    assert p.workers[w := phase][w := Ready(i, false)] == p.workers[w := Ready(i, false)];
    assert p.workers[w := phase][w := Polling(i)] == p.workers[w := Polling(i)];
  }

  lemma ClaimOverwrites(job: Job, aborted: bool, p: Pool, w: nat, phase: Phase)
    requires w < |p.workers|
    ensures Claim(job, aborted, p.(workers := p.workers[w := phase]), w) == Claim(job, aborted, p, w)
  {
    if p.next < |job.wave| {
      CheckOverwrites(job, aborted, p.(next := p.next + 1), w, phase, p.next);
    }
  }

  lemma ClaimKeeps(job: Job, aborted: bool, p: Pool, w: nat)
    requires w < |p.workers| && p.workers[w] == Exited && Core(job, aborted, p) && ExitOk(job, p, w)
    ensures Inv(job, aborted, Claim(job, aborted, p, w))
  {
    var i := p.next;
    if i < |job.wave| {
      var q := p.(next := i + 1, workers := p.workers[w := Polling(i)]);
      SetPhase(job, aborted, p, w, Polling(i));
      ClaimKeepsClaims(job, p, w);
      assert SlotsOk(job, aborted, q);
      CheckKeeps(job, aborted, q, w, i);
      CheckOverwrites(job, aborted, p.(next := i + 1), w, Polling(i), i);
    } else {
      assert p.workers[w := Exited] == p.workers;
    }
  }

  /** The pool just before the worker that reported `r` claims again. */
  function Reported(job: Job, p: Pool, w: nat, i: nat, r: Result): Pool
    requires w < |p.workers| && i < |job.wave|
  {
    p.(counters := Release(job.wave[i], p.counters), results := p.results + [r], workers := p.workers[w := Exited])
  }

  lemma ReportKeeps(job: Job, aborted: bool, p: Pool, w: nat, i: nat, r: Result)
    requires w < |p.workers| && i < |job.wave| && Inv(job, aborted, p)
    requires p.workers[w] == Running(i) || (aborted && p.workers[w].Ready? && p.workers[w].i == i)
    requires ReportedFor(r, job.wave[i], job.group, aborted)
    ensures Core(job, aborted, Reported(job, p, w, i, r))
  {
    var q := Reported(job, p, w, i, r);
    ReleaseKeepsSlots(job, aborted, p, w, i);
    assert SlotsOk(job, aborted, q);
    ReportKeepsClaims(job, p, w, r);
    assert Conserved(job, q);
    assert FromWave(job, aborted, r);
  }

  lemma CompleteKeeps(job: Job, aborted: bool, p: Pool, w: nat, i: nat, r: Result)
    requires w < |p.workers| && i < |job.wave| && Inv(job, aborted, p)
    requires p.workers[w] == Running(i) || (aborted && p.workers[w].Ready? && p.workers[w].i == i)
    requires ReportedFor(r, job.wave[i], job.group, aborted)
    ensures Inv(job, aborted, Complete(job, aborted, p, w, i, r))
  {
    ReportKeeps(job, aborted, p, w, i, r);
    ClaimKeeps(job, aborted, Reported(job, p, w, i, r), w);
    ClaimOverwrites(job, aborted, p.(counters := Release(job.wave[i], p.counters), results := p.results + [r]), w, Exited);
  }

  lemma BeginKeeps(job: Job, aborted: bool, p: Pool, w: nat)
    requires w < |p.workers| && p.workers[w].Ready? && Inv(job, aborted, p)
    ensures p.workers[w].i < |job.wave|
    ensures Inv(job, aborted, Begin(job, aborted, p, w))
  {
    var i := p.workers[w].i;
    assert PhaseOk(job, aborted, p.next, p.workers[w]);
    if aborted {
      CompleteKeeps(job, aborted, p, w, i, CancelledResult(job.wave[i], job.group));
    } else {
      SetPhase(job, aborted, p, w, Running(i));
      MoveKeepsClaims(job, p, w, Running(i));
    }
  }

  lemma FinishKeeps(job: Job, aborted: bool, p: Pool, w: nat)
    requires w < |p.workers| && p.workers[w].Running? && Inv(job, aborted, p)
    ensures p.workers[w].i < |job.wave|
    ensures Inv(job, aborted, Finish(job, aborted, p, w))
  {
    var i := p.workers[w].i;
    assert PhaseOk(job, aborted, p.next, p.workers[w]);
    CompleteKeeps(job, aborted, p, w, i, SettledResult(job.wave[i], job.group, aborted));
  }

  lemma PollKeeps(job: Job, aborted: bool, p: Pool, w: nat)
    requires w < |p.workers| && p.workers[w].Polling? && Inv(job, aborted, p)
    ensures p.workers[w].i < |job.wave|
    ensures Inv(job, aborted, Check(job, aborted, p, w, p.workers[w].i))
  {
    assert PhaseOk(job, aborted, p.next, p.workers[w]);
    CheckKeeps(job, aborted, p, w, p.workers[w].i);
  }

  lemma AbortKeeps(job: Job, p: Pool)
    requires Inv(job, false, p)
    ensures Inv(job, true, p)
  {
    assert SlotsOk(job, true, p) by {
      forall kind, key
        ensures CounterOk(true, Get(p.counters.Of(kind), key), Held(job, p.workers, kind, key), LimitOf(job.limits, kind))
      {
        assert CounterOk(false, Get(p.counters.Of(kind), key), Held(job, p.workers, kind, key), LimitOf(job.limits, kind));
      }
    }
    forall k | 0 <= k < |p.results| ensures FromWave(job, true, p.results[k]) {
      assert FromWave(job, false, p.results[k]);
      var i :| 0 <= i < |job.wave| && ReportedFor(p.results[k], job.wave[i], job.group, false);
      assert ReportedFor(p.results[k], job.wave[i], job.group, true);
    }
  }

  lemma {:induction false} LaunchedKeeps(job: Job, aborted: bool, n: nat)
    ensures Inv(job, aborted, Launched(job, aborted, n))
  {
    if n > 0 {
      LaunchedKeeps(job, aborted, n - 1);
      var p := Launched(job, aborted, n - 1);
      var q := p.(workers := p.workers + [Exited]);
      assert q.workers[..n - 1] == p.workers;
      forall kind, key ensures Held(job, q.workers, kind, key) == Held(job, p.workers, kind, key) {}
      forall tag ensures Pending(job, q.workers, tag) == Pending(job, p.workers, tag) {}
      assert SlotsOk(job, aborted, q) by {
        forall kind, key
          ensures CounterOk(aborted, Get(q.counters.Of(kind), key), Held(job, q.workers, kind, key), LimitOf(job.limits, kind))
        {
          assert CounterOk(aborted, Get(p.counters.Of(kind), key), Held(job, p.workers, kind, key), LimitOf(job.limits, kind));
        }
      }
      ClaimKeeps(job, aborted, q, n - 1);
    }
  }
}
