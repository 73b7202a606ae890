// packages/agent/src/scheduler.ts: call classification and the partition of a batch into waves.

module SchedulerCalls {
  import opened Wrappers

  datatype ScopeKind = Workspace | Git | Process | Network | External | Unknown

  /** The effect metadata the scheduler reads. */
  datatype Effects = Effects(
    writesWorkspace: bool,
    createsFiles: bool,
    deletesFiles: bool,
    mutatesGit: bool,
    mutatesExternalState: bool,
    executesProcesses: bool,
    startsPersistentProcesses: bool,
    requiresExclusiveWorkspaceLease: bool,
    potentiallyDestructive: bool,
    parallelSafe: bool,
    scopes: Option<seq<ScopeKind>>)

  /** How the promise returned by a call's `run` settles. */
  datatype Settlement = Resolved(value: string, isError: bool) | Rejected(message: string)

  datatype Call = Call(
    index: int,
    toolCallId: string,
    toolName: string,
    effects: Option<Effects>,
    concurrencySafe: Option<bool>,
    consumes: Option<seq<string>>,
    resource: Option<string>,
    host: Option<string>,
    serverId: Option<string>,
    run: Settlement)

  /** JavaScript truthiness of an optional string. */
  predicate Truthy(s: Option<string>) {
    s.Some? && s.value != ""
  }

  predicate DeclaresMutation(e: Effects) {
    || e.writesWorkspace || e.createsFiles || e.deletesFiles || e.mutatesGit || e.mutatesExternalState
    || e.executesProcesses || e.startsPersistentProcesses || e.requiresExclusiveWorkspaceLease
    || e.potentiallyDestructive
  }

  predicate IsSerialBarrier(call: Call) {
    if call.effects.Some? && (
         || DeclaresMutation(call.effects.value)
         || (call.effects.value.scopes.Some? && Unknown in call.effects.value.scopes.value)
         || !call.effects.value.parallelSafe)
    then true
    else !call.concurrencySafe.GetOr(call.effects.Some? && call.effects.value.parallelSafe)
  }

  predicate NeedsServerSerialization(call: Call) {
    call.concurrencySafe != Some(true)
  }

  predicate CallsConflict(a: Call, b: Call) {
    || (Truthy(a.resource) && Truthy(b.resource) && a.resource == b.resource)
    || (Truthy(a.serverId) && Truthy(b.serverId) && a.serverId == b.serverId
        && NeedsServerSerialization(a) && NeedsServerSerialization(b))
  }
}

module Waves {
  import opened Wrappers
  import opened Sequences
  import opened SchedulerCalls

  // ----- Reference definition: where a batch is cut, by position -----

  /** The latest of the first `k` positions that carries call id `id`. */
  function LatestProducer(calls: seq<Call>, k: nat, id: string): (p: Option<nat>)
    requires k <= |calls|
    ensures p.Some? ==> p.value < k && calls[p.value].toolCallId == id
    ensures forall q :: 0 <= q < k && calls[q].toolCallId == id ==> p.Some? && q <= p.value
  {
    if k == 0 then None
    else if calls[k - 1].toolCallId == id then Some(k - 1)
    else LatestProducer(calls, k - 1, id)
  }

  /** Producer `p` counts as past for a group that opened at `start`. A barrier is recorded one wave late,
      so the group that directly follows it still counts as the barrier's own. */
  predicate Past(calls: seq<Call>, p: nat, start: nat)
    requires p < |calls|
  {
    if IsSerialBarrier(calls[p]) then p + 1 < start else p < start
  }

  predicate PastProducer(calls: seq<Call>, k: nat, id: string, start: nat)
    requires k <= |calls|
  {
    var p := LatestProducer(calls, k, id);
    p.Some? && Past(calls, p.value, start)
  }

  /** Does call `k` force a cut in the open group that started at `start`? */
  predicate Splits(calls: seq<Call>, start: nat, k: nat)
    requires start <= k < |calls|
  {
    || IsSerialBarrier(calls[k])
    || (calls[k].consumes.Some? && exists id :: id in calls[k].consumes.value && PastProducer(calls, k, id, start))
    || (exists m :: start <= m < k && CallsConflict(calls[k], calls[m]))
  }

  /** Start of the open group after the first `k` calls; `k` itself when the group is empty. */
  function GroupStart(calls: seq<Call>, k: nat): (s: nat)
    requires k <= |calls|
    ensures s <= k
  {
    if k == 0 then 0
    else
      var s := GroupStart(calls, k - 1);
      if IsSerialBarrier(calls[k - 1]) then k
      else if s < k - 1 && Splits(calls, s, k - 1) then k - 1
      else s
  }

  /** Call `k` closes a non-empty open group. */
  predicate Cuts(calls: seq<Call>, k: nat)
    requires k < |calls|
  {
    GroupStart(calls, k) < k && Splits(calls, GroupStart(calls, k), k)
  }

  /** A wave begins at position `k`. */
  predicate Boundary(calls: seq<Call>, k: nat)
    requires k < |calls|
  {
    k == 0 || IsSerialBarrier(calls[k - 1]) || Splits(calls, GroupStart(calls, k), k)
  }

  // ----- The partition as the source builds it -----

  /** The waves pushed while the first `k` calls are read. */
  function Pushed(calls: seq<Call>, k: nat): seq<seq<Call>>
    requires k <= |calls|
    decreases k, 0
  {
    if k == 0 then []
    else if IsSerialBarrier(calls[k - 1]) then Flushed(calls, k - 1) + [[calls[k - 1]]]
    else Flushed(calls, k - 1)
  }

  /** The same, with the open group pushed too when call `k` cuts it. */
  function Flushed(calls: seq<Call>, k: nat): seq<seq<Call>>
    requires k < |calls|
    decreases k, 1
  {
    if Cuts(calls, k) then Pushed(calls, k) + [calls[GroupStart(calls, k)..k]] else Pushed(calls, k)
  }

  function Partition(calls: seq<Call>): seq<seq<Call>> {
    var s := GroupStart(calls, |calls|);
    if s < |calls| then Pushed(calls, |calls|) + [calls[s..|calls|]] else Pushed(calls, |calls|)
  }

  /** What the wave indices recorded in `emittedByCallId` say about positions. */
  ghost predicate RecordsWaves(calls: seq<Call>, k: nat, emitted: map<string, nat>, waveIndex: nat)
    requires k <= |calls|
  {
    && (forall id :: id in emitted <==> LatestProducer(calls, k, id).Some?)
    && (forall id :: id in emitted ==> emitted[id] <= waveIndex)
    && (forall id :: id in emitted ==>
          (emitted[id] < waveIndex <==> PastProducer(calls, k, id, GroupStart(calls, k))))
  }

  /** A barrier is never inside an open group. */
  lemma {:induction false} BarrierClosesGroup(calls: seq<Call>, k: nat, p: nat)
    requires p < k <= |calls| && IsSerialBarrier(calls[p])
    ensures p < GroupStart(calls, k)
  {
    if p < k - 1 {
      BarrierClosesGroup(calls, k - 1, p);
    }
  }

  /** A cut turns every earlier producer into a past one; without a cut nothing changes. */
  lemma PastAfter(calls: seq<Call>, k: nat, p: nat)
    requires p < k < |calls|
    ensures var s := GroupStart(calls, k);
      if IsSerialBarrier(calls[k]) || Cuts(calls, k)
      then Past(calls, p, GroupStart(calls, k + 1))
      else GroupStart(calls, k + 1) == s
  {
    if IsSerialBarrier(calls[p]) {
      BarrierClosesGroup(calls, k, p);
    }
  }

  lemma RecordOne(calls: seq<Call>, k: nat, id: string, at: nat, waveIndex: nat, next: nat)
    requires k < |calls| && id != calls[k].toolCallId
    requires LatestProducer(calls, k, id).Some? && at <= waveIndex <= next
    requires at < waveIndex <==> PastProducer(calls, k, id, GroupStart(calls, k))
    requires next == waveIndex <==> !(IsSerialBarrier(calls[k]) || Cuts(calls, k))
    ensures at < next <==> PastProducer(calls, k + 1, id, GroupStart(calls, k + 1))
  {
    var p := LatestProducer(calls, k, id).value;
    assert LatestProducer(calls, k + 1, id) == Option.Some(p);
    PastAfter(calls, k, p);
  }

  lemma RecordsOneMore(calls: seq<Call>, k: nat, emitted: map<string, nat>, waveIndex: nat, next: nat)
    requires k < |calls| && RecordsWaves(calls, k, emitted, waveIndex) && waveIndex <= next
    requires next == waveIndex <==> !(IsSerialBarrier(calls[k]) || Cuts(calls, k))
    ensures RecordsWaves(calls, k + 1, emitted[calls[k].toolCallId := next], next)
  {
    var emitted' := emitted[calls[k].toolCallId := next];
    forall id ensures id in emitted' <==> LatestProducer(calls, k + 1, id).Some? {}
    forall id | id in emitted'
      ensures emitted'[id] < next <==> PastProducer(calls, k + 1, id, GroupStart(calls, k + 1))
    {
      if id != calls[k].toolCallId {
        RecordOne(calls, k, id, emitted[id], waveIndex, next);
      } else {
        assert LatestProducer(calls, k + 1, id) == Option.Some(k);
      }
    }
  }

  predicate DependsOnPast(call: Call, emitted: map<string, nat>, waveIndex: nat) {
    call.consumes.Some? && exists id :: id in call.consumes.value && id in emitted && emitted[id] < waveIndex
  }

  predicate ConflictsWithSome(call: Call, current: seq<Call>) {
    exists m :: 0 <= m < |current| && CallsConflict(call, current[m])
  }

  lemma ConflictTest(calls: seq<Call>, k: nat, s: nat)
    requires s <= k < |calls|
    ensures ConflictsWithSome(calls[k], calls[s..k]) <==> exists m :: s <= m < k && CallsConflict(calls[k], calls[m])
  {
    if m :| s <= m < k && CallsConflict(calls[k], calls[m]) {
      assert calls[s..k][m - s] == calls[m];
    }
    if ConflictsWithSome(calls[k], calls[s..k]) {
      var m :| 0 <= m < k - s && CallsConflict(calls[k], calls[s..k][m]);
      assert calls[s..k][m] == calls[s + m];
    }
  }

  lemma DependencyTest(calls: seq<Call>, k: nat, emitted: map<string, nat>, waveIndex: nat)
    requires k < |calls| && RecordsWaves(calls, k, emitted, waveIndex)
    ensures DependsOnPast(calls[k], emitted, waveIndex) <==>
      calls[k].consumes.Some? && exists id :: id in calls[k].consumes.value && PastProducer(calls, k, id, GroupStart(calls, k))
  {
  }

  /** The source's three tests on the open group are exactly the reference cut. */
  lemma SplitTest(calls: seq<Call>, k: nat, emitted: map<string, nat>, waveIndex: nat)
    requires k < |calls| && RecordsWaves(calls, k, emitted, waveIndex)
    ensures var s := GroupStart(calls, k);
      Splits(calls, s, k) <==>
        IsSerialBarrier(calls[k]) || DependsOnPast(calls[k], emitted, waveIndex)
        || ConflictsWithSome(calls[k], calls[s..k])
  {
    ConflictTest(calls, k, GroupStart(calls, k));
    DependencyTest(calls, k, emitted, waveIndex);
  }

  /** The flushed waves and the open group after one more call, `cut` being the combined test. */
  lemma GroupNext(calls: seq<Call>, k: nat, current: seq<Call>, cut: bool)
    requires k < |calls| && current == calls[GroupStart(calls, k)..k]
    requires cut <==> Cuts(calls, k)
    ensures var flushed := if cut then Pushed(calls, k) + [current] else Pushed(calls, k);
      if IsSerialBarrier(calls[k])
      then Pushed(calls, k + 1) == flushed + [[calls[k]]] && calls[GroupStart(calls, k + 1)..k + 1] == []
      else Pushed(calls, k + 1) == flushed
           && calls[GroupStart(calls, k + 1)..k + 1] == (if cut then [] else current) + [calls[k]]
    ensures IsSerialBarrier(calls[k]) && current != [] ==> cut
  {
  }

  lemma NothingRead(calls: seq<Call>)
    ensures GroupStart(calls, 0) == 0 && Pushed(calls, 0) == [] && RecordsWaves(calls, 0, map[], 0)
  {
  }

  lemma AllRead(calls: seq<Call>)
    ensures var s := GroupStart(calls, |calls|);
      Partition(calls) == if s < |calls| then Pushed(calls, |calls|) + [calls[s..|calls|]] else Pushed(calls, |calls|)
  {
  }

  method PartitionWaves(calls: seq<Call>) returns (waves: seq<seq<Call>>)
    ensures waves == Partition(calls)
  {
    hide GroupStart, Pushed, RecordsWaves, Splits, Partition;
    waves := [];
    var current: seq<Call> := [];
    var emittedByCallId: map<string, nat> := map[];
    var waveIndex := 0;
    NothingRead(calls);
    for k := 0 to |calls|
      invariant waves == Pushed(calls, k) && waveIndex == |waves|
      invariant current == calls[GroupStart(calls, k)..k]
      invariant RecordsWaves(calls, k, emittedByCallId, waveIndex)
    {
      var call := calls[k];
      var barrier := IsSerialBarrier(call);
      var dependsOnPast := DependsOnPast(call, emittedByCallId, waveIndex);
      var conflict := |current| > 0 && ConflictsWithSome(call, current);
      var cut := |current| > 0 && (barrier || dependsOnPast || conflict);
      SplitTest(calls, k, emittedByCallId, waveIndex);
      GroupNext(calls, k, current, cut);
      ghost var before := waveIndex;
      if cut {
        waves := waves + [current];
        current := [];
        waveIndex := waveIndex + 1;
      }
      if barrier {
        waves := waves + [[call]];
        waveIndex := waveIndex + 1;
      } else {
        current := current + [call];
      }
      RecordsOneMore(calls, k, emittedByCallId, before, waveIndex);
      emittedByCallId := emittedByCallId[call.toolCallId := waveIndex];
    }
    AllRead(calls);
    if |current| > 0 {
      waves := waves + [current];
    }
  }
}
