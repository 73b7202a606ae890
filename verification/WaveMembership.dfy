// Which wave a call joins, in terms of the calls' own fields and of the waves before it.

module WaveMembership {
  import opened Wrappers
  import opened Sequences
  import opened SchedulerCalls
  import opened Waves
  import opened WaveProperties
  import opened WaveOrdering
  import opened CallClasses

  /** The latest call before `k` with this id, if there is one, lies in wave `i`, or is the barrier right before it. */
  ghost predicate StillOpen(calls: seq<Call>, waves: seq<seq<Call>>, i: nat, k: nat, id: string)
    requires i <= |waves| && k <= |calls|
  {
    forall q :: 0 <= q < k && calls[q].toolCallId == id && (forall r :: q < r < k ==> calls[r].toolCallId != id) ==>
      InWave(waves, i, q) || (!DeclaredSafe(calls[q]) && q + 1 == Offset(waves, i))
  }

  /** Call `k` may join wave `i`, which the call before it is in: neither is a barrier, no call of the wave so far competes
      with it, and what it consumes is still open. */
  ghost predicate Joins(calls: seq<Call>, waves: seq<seq<Call>>, i: nat, k: nat)
    requires i <= |waves| && 0 < k < |calls|
  {
    && DeclaredSafe(calls[k - 1]) && DeclaredSafe(calls[k])
    && (forall m :: 0 <= m < k && InWave(waves, i, m) ==> !Compete(calls[k], calls[m]))
    && (calls[k].consumes.Some? ==> forall id :: id in calls[k].consumes.value ==> StillOpen(calls, waves, i, k, id))
  }

  /** The group that is open before `k` is what the wave of the call before `k` holds so far. */
  lemma OpenMembers(calls: seq<Call>, k: nat, m: nat)
    requires m < k <= |calls| && !IsSerialBarrier(calls[k - 1])
    ensures WaveIndex(calls, m) == WaveIndex(calls, k - 1) <==> GroupStart(calls, k) <= m
  {
    hide IsSerialBarrier, Splits;
    var s := GroupStart(calls, k);
    WaveIndexGrows(calls, m, k - 1);
    if m < s {
      StartBefore(calls, k);
      assert Boundary(calls, s);
    } else {
      forall q | m < q <= k - 1 ensures !Boundary(calls, q) {
        GroupUnbroken(calls, k, q);
      }
    }
  }

  lemma StartBefore(calls: seq<Call>, k: nat)
    requires 0 < k <= |calls| && !IsSerialBarrier(calls[k - 1])
    ensures GroupStart(calls, k) <= k - 1 && Boundary(calls, GroupStart(calls, k))
  {
    hide IsSerialBarrier, Splits;
    if GroupStart(calls, k) < k - 1 {
      SameStart(calls, k, k - 1);
    }
    StartIsBoundary(calls, k - 1);
  }

  lemma InWaveExactly(calls: seq<Call>, i: nat, p: nat)
    requires p < |calls|
    ensures InWave(Partition(calls), i, p) <==> i == WaveIndex(calls, p)
  {
    hide InWave, WaveIndex, Partition;
    WaveIndexCorrect(calls, p);
    if InWave(Partition(calls), i, p) {
      InWaveUnique(Partition(calls), i, WaveIndex(calls, p), p);
    }
  }

  /** The open group starts where its wave does. */
  lemma StartIsOffset(calls: seq<Call>, k: nat)
    requires 0 < k <= |calls| && !IsSerialBarrier(calls[k - 1])
    ensures var i := WaveIndex(calls, k - 1);
      i < |Partition(calls)| && Offset(Partition(calls), i) == GroupStart(calls, k)
  {
    hide IsSerialBarrier, Splits, Partition;
    var i, s := WaveIndex(calls, k - 1), GroupStart(calls, k);
    StartBefore(calls, k);
    OpenMembers(calls, k, s);
    InWaveExactly(calls, i, s);
    if s > 0 {
      OpenMembers(calls, k, s - 1);
      InWaveExactly(calls, i, s - 1);
    }
  }

  lemma LatestExactly(calls: seq<Call>, k: nat, id: string, q: nat)
    requires k <= |calls|
    ensures LatestProducer(calls, k, id) == Some(q) <==>
      q < k && calls[q].toolCallId == id && forall r :: q < r < k ==> calls[r].toolCallId != id
  {
  }

  /** A producer is past exactly when it is not still open. */
  lemma PastExactly(calls: seq<Call>, k: nat, id: string)
    requires 0 < k < |calls| && !IsSerialBarrier(calls[k - 1])
    ensures WaveIndex(calls, k - 1) < |Partition(calls)|
    ensures PastProducer(calls, k, id, GroupStart(calls, k)) <==>
      !StillOpen(calls, Partition(calls), WaveIndex(calls, k - 1), k, id)
  {
    hide IsSerialBarrier, Splits, Partition, InWave, DeclaredSafe, LatestProducer, GroupStart, Offset, WaveIndex;
    StartIsOffset(calls, k);
    forall q | 0 <= q < k
      ensures LatestProducer(calls, k, id) == Some(q) <==>
        calls[q].toolCallId == id && forall r :: q < r < k ==> calls[r].toolCallId != id
      ensures Past(calls, q, GroupStart(calls, k)) <==>
        !(InWave(Partition(calls), WaveIndex(calls, k - 1), q)
          || (!DeclaredSafe(calls[q]) && q + 1 == Offset(Partition(calls), WaveIndex(calls, k - 1))))
    {
      LatestExactly(calls, k, id, q);
      SafeExactly(calls[q]);
      OpenMembers(calls, k, q);
      InWaveExactly(calls, WaveIndex(calls, k - 1), q);
      if IsSerialBarrier(calls[q]) {
        BarrierClosesGroup(calls, k, q);
      }
    }
  }

  /** Which wave every call of every batch is in: the first call opens the first wave, and each later one is in the wave of
      the call before it exactly when it may join that wave, and opens the next one otherwise. */
  lemma JoinsExactly(calls: seq<Call>, i: nat, k: nat)
    requires 0 < k < |calls| && InWave(Partition(calls), i, k - 1)
    ensures InWave(Partition(calls), i, k) <==> Joins(calls, Partition(calls), i, k)
    ensures !InWave(Partition(calls), i, k) ==> InWave(Partition(calls), i + 1, k)
    ensures InWave(Partition(calls), 0, 0)
  {
    hide IsSerialBarrier, Partition, InWave, DeclaredSafe, LatestProducer, GroupStart, Offset, StillOpen, Compete, CallsConflict,
      PastProducer;
    InWaveExactly(calls, 0, 0);
    InWaveExactly(calls, i, k - 1);
    InWaveExactly(calls, i, k);
    InWaveExactly(calls, i + 1, k);
    SafeExactly(calls[k - 1]);
    SafeExactly(calls[k]);
    assert WaveIndex(calls, k) == WaveIndex(calls, k - 1) <==> !Boundary(calls, k);
    if !IsSerialBarrier(calls[k - 1]) {
      StartIsOffset(calls, k);
      forall m | 0 <= m < k
        ensures InWave(Partition(calls), i, m) <==> GroupStart(calls, k) <= m
        ensures CallsConflict(calls[k], calls[m]) <==> Compete(calls[k], calls[m])
      {
        InWaveExactly(calls, i, m);
        OpenMembers(calls, k, m);
        CompeteExactly(calls[k], calls[m]);
      }
      forall id
        ensures PastProducer(calls, k, id, GroupStart(calls, k)) <==> !StillOpen(calls, Partition(calls), i, k, id)
      {
        PastExactly(calls, k, id);
      }
    }
  }
}
