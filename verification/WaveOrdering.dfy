// Dependency ordering: when every consumer runs in a later wave than its producer, and what a repaired test would give.

module WaveOrdering {
  import opened Wrappers
  import opened Sequences
  import opened SchedulerCalls
  import opened Waves
  import opened WaveProperties

  /** Call `k` consumes the call at `p`, the latest earlier call with one of the ids it names. */
  ghost predicate ConsumesFrom(calls: seq<Call>, k: nat, p: nat)
    requires k < |calls|
  {
    calls[k].consumes.Some? && exists id :: id in calls[k].consumes.value && LatestProducer(calls, k, id) == Some(p)
  }

  /** The promise of the scheduler: every consumer lies in a strictly later wave than its producer. */
  ghost predicate ConsumersLater(calls: seq<Call>, waves: seq<seq<Call>>) {
    forall k: nat, p: nat, i: nat, j: nat ::
      k < |calls| && ConsumesFrom(calls, k, p) && InWave(waves, i, p) && InWave(waves, j, k) ==> i < j
  }

  // ----- As the source splits -----

  lemma {:induction false} GroupUnbroken(calls: seq<Call>, k: nat, q: nat)
    requires k <= |calls| && GroupStart(calls, k) < q < k
    ensures !Boundary(calls, q) && GroupStart(calls, q) == GroupStart(calls, k)
  {
    if q < k - 1 {
      GroupUnbroken(calls, k - 1, q);
    }
    OpenGroup(calls, k);
    SameStart(calls, k, q);
  }

  /** Within an open group the start does not move. */
  lemma {:induction false} SameStart(calls: seq<Call>, k: nat, q: nat)
    requires k <= |calls| && GroupStart(calls, k) < q <= k
    ensures GroupStart(calls, q) == GroupStart(calls, k)
  {
    if q < k {
      SameStart(calls, k - 1, q);
    }
  }

  lemma {:induction false} StartIsBoundary(calls: seq<Call>, k: nat)
    requires k < |calls|
    ensures Boundary(calls, GroupStart(calls, k))
  {
    if k > 0 && GroupStart(calls, k) != k {
      StartIsBoundary(calls, k - 1);
      if GroupStart(calls, k) == k - 1 && k > 1 {
        assert GroupStart(calls, k - 1) <= k - 1;
      }
    }
  }

  /** A wave starts after `p` and no later than `k` exactly when `p` is not in the group that is open before `k`, or
      call `k` splits that group. */
  lemma SplitBetween(calls: seq<Call>, p: nat, k: nat)
    requires p < k < |calls|
    ensures (exists q :: p < q <= k && Boundary(calls, q)) <==>
      p < GroupStart(calls, k) || Splits(calls, GroupStart(calls, k), k)
  {
    var s := GroupStart(calls, k);
    if q :| p < q <= k && Boundary(calls, q) {
      if s <= p {
        if q < k {
          GroupUnbroken(calls, k, q);
          assert false;
        }
        OpenGroup(calls, k);
      }
    }
    if p < s {
      StartIsBoundary(calls, k);
    }
    if Splits(calls, s, k) {
      assert Boundary(calls, k);
    }
  }

  lemma PairOrdering(calls: seq<Call>, p: nat, k: nat)
    requires p < k < |calls|
    ensures WaveIndex(calls, p) < WaveIndex(calls, k) <==>
      p < GroupStart(calls, k) || Splits(calls, GroupStart(calls, k), k)
  {
    WaveIndexGrows(calls, p, k);
    SplitBetween(calls, p, k);
  }

  /** A producer is in the open group of its consumer only where something else splits that group: the consumer is a
      barrier, consumes from an earlier wave too, or conflicts with a call of the group. */
  ghost predicate OpenProducersSplit(calls: seq<Call>) {
    forall k: nat, p: nat :: k < |calls| && ConsumesFrom(calls, k, p) && GroupStart(calls, k) <= p ==>
      Splits(calls, GroupStart(calls, k), k)
  }

  /** Dependency ordering, exactly: the promise holds for a batch if and only if no consumer joins the open group of its
      producer without a split. */
  lemma ConsumersLaterExactly(calls: seq<Call>)
    ensures ConsumersLater(calls, Partition(calls)) <==> OpenProducersSplit(calls)
  {
    var waves := Partition(calls);
    if ConsumersLater(calls, waves) {
      forall k: nat, p: nat | k < |calls| && ConsumesFrom(calls, k, p) && GroupStart(calls, k) <= p
        ensures Splits(calls, GroupStart(calls, k), k)
      {
        WaveIndexCorrect(calls, p);
        WaveIndexCorrect(calls, k);
        PairOrdering(calls, p, k);
      }
    }
    if OpenProducersSplit(calls) {
      forall k: nat, p: nat, i: nat, j: nat |
        k < |calls| && ConsumesFrom(calls, k, p) && InWave(waves, i, p) && InWave(waves, j, k)
        ensures i < j
      {
        WaveIndexCorrect(calls, p);
        WaveIndexCorrect(calls, k);
        InWaveUnique(waves, i, WaveIndex(calls, p), p);
        InWaveUnique(waves, j, WaveIndex(calls, k), k);
        PairOrdering(calls, p, k);
      }
    }
  }

  // ----- The failing family -----

  lemma {:induction false} NeverSplit(calls: seq<Call>, k: nat)
    requires Admissible(calls) && |calls| >= 2 && k <= |calls|
    ensures GroupStart(calls, k) == 0 && Pushed(calls, k) == []
  {
    if k > 0 {
      NeverSplit(calls, k - 1);
      assert !IsSerialBarrier(calls[k - 1]);
      assert !Splits(calls, 0, k - 1);
    }
  }

  /** There is a barrier or a conflicting pair. */
  predicate Separable(calls: seq<Call>) {
    || (exists k :: 0 <= k < |calls| && IsSerialBarrier(calls[k]))
    || (exists i, j :: 0 <= i < j < |calls| && CallsConflict(calls[i], calls[j]))
  }

  lemma SeparableExactly(calls: seq<Call>)
    requires |calls| >= 2
    ensures Separable(calls) <==> !Admissible(calls)
  {
    if !Separable(calls) {
      forall i, j | 0 <= i < |calls| && 0 <= j < |calls| && i != j ensures !CallsConflict(calls[i], calls[j]) {
        ConflictSymmetric(calls[i], calls[j]);
      }
    }
  }

  lemma {:induction false} OneWave(calls: seq<Call>)
    requires Admissible(calls) && |calls| >= 2
    ensures Partition(calls) == [calls]
  {
    NeverSplit(calls, |calls|);
    assert calls[0..|calls|] == calls;
  }

  /** Dependencies alone never separate calls: a batch of two or more is split exactly when it holds a barrier or a
      conflicting pair, whatever its calls consume. */
  lemma {:induction false} OneWaveExactly(calls: seq<Call>)
    requires |calls| >= 2
    ensures Partition(calls) == [calls] <==> !Separable(calls)
  {
    SeparableExactly(calls);
    PartitionSound(calls);
    if Admissible(calls) {
      OneWave(calls);
    }
    if Partition(calls) == [calls] {
      assert Admissible(Partition(calls)[0]);
    }
  }

  /** The ordering promised for `consumes` fails for every pair of concurrency-safe, non-conflicting calls
      with distinct ids: the consumer shares the wave of the producer it names. */
  lemma AdjacentConsumerSharesWave(producer: Call, consumer: Call)
    requires !IsSerialBarrier(producer) && !IsSerialBarrier(consumer) && !CallsConflict(consumer, producer)
    requires consumer.consumes == Some([producer.toolCallId])
    ensures Partition([producer, consumer]) == [[producer, consumer]]
    ensures !ConsumersLater([producer, consumer], Partition([producer, consumer]))
  {
    var calls := [producer, consumer];
    ConflictSymmetric(consumer, producer);
    OneWaveExactly(calls);
    assert LatestProducer(calls, 1, producer.toolCallId) == Some(0);
    assert ConsumesFrom(calls, 1, 0);
    assert Offset([calls], 1) == 2;
    assert InWave([calls], 0, 0) && InWave([calls], 0, 1);
  }

  // ----- A split test that also covers a producer in the open group -----

  /** The split test of the source, or a producer in the group that started at `start`. */
  ghost predicate RepairedSplits(calls: seq<Call>, start: nat, k: nat)
    requires start <= k < |calls|
  {
    Splits(calls, start, k) || exists p :: start <= p && ConsumesFrom(calls, k, p)
  }

  /** Start of the last wave after the first `k` calls; `k` itself when the next call opens a wave anyway. */
  ghost function RepairedStart(calls: seq<Call>, k: nat): (s: nat)
    requires k <= |calls|
    ensures s <= k
  {
    if k == 0 then 0
    else
      var s := RepairedStart(calls, k - 1);
      if IsSerialBarrier(calls[k - 1]) then k
      else if RepairedSplits(calls, s, k - 1) then k - 1
      else s
  }

  /** A wave starts at `k` under the repaired test. */
  ghost predicate RepairedCut(calls: seq<Call>, k: nat)
    requires k < |calls|
  {
    var s := RepairedStart(calls, k);
    s == k || RepairedSplits(calls, s, k)
  }

  /** The waves of the first `k` calls under the repaired test. */
  ghost function RepairedWaves(calls: seq<Call>, k: nat): (waves: seq<seq<Call>>)
    requires k <= |calls|
    ensures k > 0 ==> waves != []
  {
    if k == 0 then []
    else
      var waves := RepairedWaves(calls, k - 1);
      if waves == [] || RepairedCut(calls, k - 1) then waves + [[calls[k - 1]]]
      else waves[..|waves| - 1] + [waves[|waves| - 1] + [calls[k - 1]]]
  }

  ghost function RepairedPartition(calls: seq<Call>): seq<seq<Call>> {
    RepairedWaves(calls, |calls|)
  }

  /** Where the last of the repaired waves starts. */
  ghost function LastStart(calls: seq<Call>, k: nat): (s: nat)
    requires 0 < k <= |calls|
    ensures s < k
  {
    if RepairedCut(calls, k - 1) then k - 1 else RepairedStart(calls, k - 1)
  }

  lemma LastWaveOpen(calls: seq<Call>, k: nat)
    requires 0 < k <= |calls|
    ensures IsSerialBarrier(calls[k - 1]) ==> LastStart(calls, k) == k - 1
    ensures !IsSerialBarrier(calls[k - 1]) ==> LastStart(calls, k) == RepairedStart(calls, k)
    ensures k < |calls| && !RepairedCut(calls, k) ==> LastStart(calls, k + 1) == LastStart(calls, k)
  {
  }

  lemma {:induction false} RepairedOpenGroup(calls: seq<Call>, k: nat)
    requires k <= |calls|
    ensures var s := RepairedStart(calls, k);
      && (forall i :: s <= i < k ==> !IsSerialBarrier(calls[i]))
      && (forall i, j :: s <= i < j < k ==> !CallsConflict(calls[j], calls[i]))
  {
    if k > 0 {
      RepairedOpenGroup(calls, k - 1);
    }
  }

  lemma LastAdmissible(calls: seq<Call>, k: nat)
    requires 0 < k <= |calls|
    ensures Admissible(calls[LastStart(calls, k)..k])
  {
    var s := LastStart(calls, k);
    LastWaveOpen(calls, k);
    if s == k - 1 {
      assert calls[s..k] == [calls[s]];
    } else {
      RepairedOpenGroup(calls, k);
      SliceAdmissible(calls, s, k);
    }
  }

  lemma SliceAdmissible(calls: seq<Call>, s: nat, k: nat)
    requires s < k <= |calls|
    requires forall i :: s <= i < k ==> !IsSerialBarrier(calls[i])
    requires forall i, j :: s <= i < j < k ==> !CallsConflict(calls[j], calls[i])
    ensures Admissible(calls[s..k])
  {
    hide IsSerialBarrier, CallsConflict;
    var wave := calls[s..k];
    forall i | 0 <= i < |wave| ensures !IsSerialBarrier(wave[i]) {
      assert wave[i] == calls[s + i];
    }
    forall i, j | 0 <= i < |wave| && 0 <= j < |wave| && i != j ensures !CallsConflict(wave[i], wave[j]) {
      ConflictSymmetric(wave[i], wave[j]);
      assert wave[i] == calls[s + i] && wave[j] == calls[s + j];
    }
  }

  /** The repaired waves after `k` calls: the first ones are complete, the last one starts at `LastStart`. */
  ghost predicate RepairedShape(calls: seq<Call>, k: nat)
    requires 0 < k <= |calls|
  {
    var waves := RepairedWaves(calls, k);
    && Flatten(waves) == calls[..k]
    && waves[|waves| - 1] == calls[LastStart(calls, k)..k]
    && AllAdmissible(waves)
    && |waves| == RepairedIndex(calls, k - 1) + 1
  }

  /** Number of repaired waves that start in positions 1 to `p`. */
  ghost function RepairedIndex(calls: seq<Call>, p: nat): nat
    requires p < |calls|
  {
    if p == 0 then 0 else RepairedIndex(calls, p - 1) + if RepairedCut(calls, p) then 1 else 0
  }

  lemma {:induction false} NewWave(calls: seq<Call>, k: nat)
    requires 1 < k <= |calls| && RepairedShape(calls, k - 1) && RepairedCut(calls, k - 1)
    ensures RepairedShape(calls, k)
  {
    var before, call := RepairedWaves(calls, k - 1), calls[k - 1];
    LastAdmissible(calls, k);
    LastAlone(calls, k);
    FlattenSnoc(before, [call]);
    assert calls[..k] == calls[..k - 1] + [call];
  }

  lemma {:induction false} LastAlone(calls: seq<Call>, k: nat)
    requires 1 < k <= |calls| && RepairedCut(calls, k - 1)
    ensures RepairedWaves(calls, k) == RepairedWaves(calls, k - 1) + [[calls[k - 1]]]
    ensures calls[LastStart(calls, k)..k] == [calls[k - 1]]
    ensures RepairedIndex(calls, k - 1) == RepairedIndex(calls, k - 2) + 1
  {
  }

  /** One more call in the last wave. */
  lemma Grown(waves: seq<seq<Call>>, call: Call)
    requires waves != [] && AllAdmissible(waves) && Admissible(waves[|waves| - 1] + [call])
    ensures var longer := waves[..|waves| - 1] + [waves[|waves| - 1] + [call]];
      Flatten(longer) == Flatten(waves) + [call] && AllAdmissible(longer)
  {
    hide Admissible;
    var n := |waves| - 1;
    FlattenExtended(waves[..n], waves[n], call);
    assert waves == waves[..n] + [waves[n]];
  }

  lemma {:induction false} LongerWave(calls: seq<Call>, k: nat)
    requires 1 < k <= |calls| && RepairedShape(calls, k - 1) && !RepairedCut(calls, k - 1)
    ensures RepairedShape(calls, k)
  {
    LastAdmissible(calls, k);
    LastWaveOpen(calls, k - 1);
    WaveGrows(calls, k);
    hide RepairedWaves, AllAdmissible, Admissible, RepairedCut, LastStart, Flatten, RepairedIndex;
    SlicesGrow(calls, LastStart(calls, k), k);
    Grown(RepairedWaves(calls, k - 1), calls[k - 1]);
  }

  lemma SlicesGrow(calls: seq<Call>, s: nat, k: nat)
    requires s < k <= |calls|
    ensures calls[s..k] == calls[s..k - 1] + [calls[k - 1]]
    ensures calls[..k] == calls[..k - 1] + [calls[k - 1]]
  {
  }

  lemma {:induction false} WaveGrows(calls: seq<Call>, k: nat)
    requires 1 < k <= |calls| && !RepairedCut(calls, k - 1)
    ensures var before := RepairedWaves(calls, k - 1);
      RepairedWaves(calls, k) == before[..|before| - 1] + [before[|before| - 1] + [calls[k - 1]]]
    ensures RepairedIndex(calls, k - 1) == RepairedIndex(calls, k - 2)
  {
  }

  lemma {:induction false} RepairedShaped(calls: seq<Call>, k: nat)
    requires 0 < k <= |calls|
    ensures RepairedShape(calls, k)
  {
    hide RepairedShape, RepairedWaves;
    if k == 1 {
      FirstShape(calls);
    } else {
      RepairedShaped(calls, k - 1);
      if RepairedCut(calls, k - 1) {
        NewWave(calls, k);
      } else {
        LongerWave(calls, k);
      }
    }
  }

  lemma FirstShape(calls: seq<Call>)
    requires calls != []
    ensures RepairedShape(calls, 1)
  {
    LastAdmissible(calls, 1);
    FirstWave(calls);
  }

  lemma FirstWave(calls: seq<Call>)
    requires calls != []
    ensures RepairedWaves(calls, 1) == [[calls[0]]] && calls[..1] == [calls[0]]
    ensures Flatten([[calls[0]]]) == [calls[0]] && InWave([[calls[0]]], 0, 0)
  {
    assert RepairedWaves(calls, 0) == [];
    FlattenSnoc([], [calls[0]]);
    assert [] + [[calls[0]]] == [[calls[0]]];
    assert Offset([[calls[0]]], 1) == 1;
  }

  lemma FlattenExtended(waves: seq<seq<Call>>, wave: seq<Call>, call: Call)
    ensures Flatten(waves + [wave + [call]]) == Flatten(waves + [wave]) + [call]
  {
    FlattenSnoc(waves, wave);
    FlattenSnoc(waves, wave + [call]);
  }

  lemma InWaveExtended(waves: seq<seq<Call>>, wave: seq<Call>, call: Call, i: nat, p: nat)
    ensures InWave(waves + [wave], i, p) ==> InWave(waves + [wave + [call]], i, p)
    ensures InWave(waves + [wave + [call]], |waves|, |Flatten(waves)| + |wave|)
  {
    InWaveSnoc(waves, wave, i, p);
    InWaveSnoc(waves, wave + [call], i, p);
    if i < |waves| {
      OffsetPrefix(waves, [wave], i);
      OffsetPrefix(waves, [wave], i + 1);
    }
  }

  /** Places of the calls in the waves before and after one more call. */
  ghost predicate PlacesKept(before: seq<seq<Call>>, after: seq<seq<Call>>, i: nat, p: nat) {
    && (InWave(before, i, p) ==> InWave(after, i, p))
    && after != [] && InWave(after, |after| - 1, |Flatten(before)|)
  }

  lemma PlacesLonger(waves: seq<seq<Call>>, call: Call, i: nat, p: nat)
    requires waves != []
    ensures PlacesKept(waves, waves[..|waves| - 1] + [waves[|waves| - 1] + [call]], i, p)
  {
    var n := |waves| - 1;
    assert waves == waves[..n] + [waves[n]];
    FlattenSnoc(waves[..n], waves[n]);
    InWaveExtended(waves[..n], waves[n], call, i, p);
  }

  lemma {:induction false} CallPlaced(calls: seq<Call>, k: nat, i: nat, p: nat)
    requires 1 < k <= |calls|
    ensures PlacesKept(RepairedWaves(calls, k - 1), RepairedWaves(calls, k), i, p)
  {
    var before, call := RepairedWaves(calls, k - 1), calls[k - 1];
    if RepairedCut(calls, k - 1) {
      InWaveSnoc(before, [call], i, p);
    } else {
      PlacesLonger(before, call, i, p);
    }
  }

  lemma RepairedSizes(calls: seq<Call>, k: nat)
    requires 1 < k <= |calls|
    ensures |RepairedWaves(calls, k)| == RepairedIndex(calls, k - 1) + 1 && |Flatten(RepairedWaves(calls, k - 1))| == k - 1
  {
    hide RepairedWaves, RepairedIndex, Flatten;
    RepairedShaped(calls, k - 1);
    RepairedShaped(calls, k);
  }

  lemma FirstPlaced(calls: seq<Call>)
    requires calls != []
    ensures InWave(RepairedWaves(calls, 1), RepairedIndex(calls, 0), 0)
  {
    FirstWave(calls);
  }

  lemma {:induction false} RepairedPlaced(calls: seq<Call>, k: nat, p: nat)
    requires p < k <= |calls|
    ensures InWave(RepairedWaves(calls, k), RepairedIndex(calls, p), p)
  {
    hide InWave, RepairedWaves, RepairedIndex, Flatten;
    var i := RepairedIndex(calls, p);
    if k == 1 {
      FirstPlaced(calls);
    } else {
      CallPlaced(calls, k, i, p);
      if p < k - 1 {
        RepairedPlaced(calls, k - 1, p);
      } else {
        RepairedSizes(calls, k);
      }
    }
  }

  lemma {:induction false} RepairedGrows(calls: seq<Call>, p: nat, q: nat)
    requires p <= q < |calls|
    ensures RepairedIndex(calls, p) <= RepairedIndex(calls, q)
    ensures RepairedIndex(calls, p) < RepairedIndex(calls, q) <==> exists k :: p < k <= q && RepairedCut(calls, k)
  {
    if p < q {
      RepairedGrows(calls, p, q - 1);
      if RepairedIndex(calls, p) < RepairedIndex(calls, q) && !RepairedCut(calls, q) {
        var k :| p < k <= q - 1 && RepairedCut(calls, k);
      }
    }
  }

  lemma {:induction false} RepairedStartCut(calls: seq<Call>, k: nat)
    requires k < |calls|
    ensures RepairedCut(calls, RepairedStart(calls, k))
  {
    if k > 0 && RepairedStart(calls, k) != k {
      if RepairedStart(calls, k) == RepairedStart(calls, k - 1) {
        RepairedStartCut(calls, k - 1);
      }
    }
  }

  /** The repaired partition is as sound as the one of the source, and keeps the promise for every batch. */
  lemma RepairedKeepsPromise(calls: seq<Call>)
    ensures Flatten(RepairedPartition(calls)) == calls
    ensures AllAdmissible(RepairedPartition(calls))
    ensures ConsumersLater(calls, RepairedPartition(calls))
  {
    var waves := RepairedPartition(calls);
    if calls != [] {
      RepairedShaped(calls, |calls|);
      assert calls[..|calls|] == calls;
    }
    forall k: nat, p: nat, i: nat, j: nat |
      k < |calls| && ConsumesFrom(calls, k, p) && InWave(waves, i, p) && InWave(waves, j, k)
      ensures i < j
    {
      RepairedPlaced(calls, |calls|, p);
      RepairedPlaced(calls, |calls|, k);
      InWaveUnique(waves, i, RepairedIndex(calls, p), p);
      InWaveUnique(waves, j, RepairedIndex(calls, k), k);
      RepairedPair(calls, p, k);
    }
  }

  lemma RepairedPair(calls: seq<Call>, p: nat, k: nat)
    requires k < |calls| && ConsumesFrom(calls, k, p)
    ensures RepairedIndex(calls, p) < RepairedIndex(calls, k)
  {
    var s := RepairedStart(calls, k);
    RepairedStartCut(calls, k);
    RepairedGrows(calls, p, k);
    assert if p < s then p < s <= k && RepairedCut(calls, s) else RepairedCut(calls, k);
  }
}
