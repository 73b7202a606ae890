// What the partition guarantees, and exactly when a consumer is separated from its producer.

module WaveProperties {
  import opened Wrappers
  import opened Sequences
  import opened SchedulerCalls
  import opened Waves

  lemma ConflictSymmetric(a: Call, b: Call)
    ensures CallsConflict(a, b) == CallsConflict(b, a)
  {
  }

  // ----- Every wave is admissible -----

  predicate BarriersAlone(wave: seq<Call>) {
    forall i :: 0 <= i < |wave| && IsSerialBarrier(wave[i]) ==> |wave| == 1
  }

  predicate ConflictFree(wave: seq<Call>) {
    forall i, j :: 0 <= i < |wave| && 0 <= j < |wave| && i != j ==> !CallsConflict(wave[i], wave[j])
  }

  predicate Admissible(wave: seq<Call>) {
    wave != [] && BarriersAlone(wave) && ConflictFree(wave)
  }

  lemma {:induction false} OpenGroup(calls: seq<Call>, k: nat)
    requires k <= |calls|
    ensures var s := GroupStart(calls, k);
      && (forall i :: s <= i < k ==> !IsSerialBarrier(calls[i]))
      && (forall i, j :: s <= i < j < k ==> !CallsConflict(calls[j], calls[i]))
  {
    if k > 0 {
      OpenGroup(calls, k - 1);
    }
  }

  lemma GroupAdmissible(calls: seq<Call>, k: nat)
    requires k <= |calls| && GroupStart(calls, k) < k
    ensures Admissible(calls[GroupStart(calls, k)..k])
  {
    var s := GroupStart(calls, k);
    var wave := calls[s..k];
    OpenGroup(calls, k);
    forall i, j | 0 <= i < |wave| && 0 <= j < |wave| && i != j ensures !CallsConflict(wave[i], wave[j]) {
      ConflictSymmetric(wave[i], wave[j]);
      assert wave[i] == calls[s + i] && wave[j] == calls[s + j];
    }
  }

  ghost predicate AllAdmissible(waves: seq<seq<Call>>) {
    forall i :: 0 <= i < |waves| ==> Admissible(waves[i])
  }

  lemma FlushedAdmissible(calls: seq<Call>, k: nat)
    requires k < |calls| && AllAdmissible(Pushed(calls, k))
    ensures AllAdmissible(Flushed(calls, k))
  {
    if Cuts(calls, k) {
      GroupAdmissible(calls, k);
    }
  }

  lemma {:induction false} PushedAdmissible(calls: seq<Call>, k: nat)
    requires k <= |calls|
    ensures AllAdmissible(Pushed(calls, k))
  {
    if k > 0 {
      PushedAdmissible(calls, k - 1);
      FlushedAdmissible(calls, k - 1);
    }
  }

  lemma FlushedFlatten(calls: seq<Call>, k: nat)
    requires k < |calls| && Flatten(Pushed(calls, k)) == calls[..GroupStart(calls, k)]
    ensures Flatten(Flushed(calls, k)) == calls[..if Cuts(calls, k) then k else GroupStart(calls, k)]
  {
    var s := GroupStart(calls, k);
    FlattenSnoc(Pushed(calls, k), calls[s..k]);
    assert calls[..s] + calls[s..k] == calls[..k];
  }

  lemma {:induction false} PushedFlatten(calls: seq<Call>, k: nat)
    requires k <= |calls|
    ensures Flatten(Pushed(calls, k)) == calls[..GroupStart(calls, k)]
  {
    if k > 0 {
      PushedFlatten(calls, k - 1);
      FlushedFlatten(calls, k - 1);
      BarrierFlatten(calls, k - 1);
    }
  }

  lemma {:induction false} BarrierFlatten(calls: seq<Call>, k: nat)
    requires k < |calls|
    requires Flatten(Flushed(calls, k)) == calls[..if Cuts(calls, k) then k else GroupStart(calls, k)]
    ensures Flatten(Pushed(calls, k + 1)) == calls[..GroupStart(calls, k + 1)]
  {
    if IsSerialBarrier(calls[k]) {
      FlattenSnoc(Flushed(calls, k), [calls[k]]);
      assert calls[..k] + [calls[k]] == calls[..k + 1];
    }
  }

  /** The waves are the batch, in order; none is empty, barriers are alone, no wave holds a conflict. */
  lemma PartitionSound(calls: seq<Call>)
    ensures Flatten(Partition(calls)) == calls
    ensures AllAdmissible(Partition(calls))
  {
    var n := |calls|;
    var s := GroupStart(calls, n);
    PushedFlatten(calls, n);
    PushedAdmissible(calls, n);
    FlattenSnoc(Pushed(calls, n), calls[s..n]);
    assert calls[..s] + calls[s..n] == calls;
    if s < n {
      GroupAdmissible(calls, n);
    }
  }

  // ----- Which wave a position lands in -----

  function Offset(waves: seq<seq<Call>>, i: nat): nat
    requires i <= |waves|
  {
    if i == 0 then 0 else Offset(waves, i - 1) + |waves[i - 1]|
  }

  lemma {:induction false} OffsetIsLength(waves: seq<seq<Call>>, i: nat)
    requires i <= |waves|
    ensures Offset(waves, i) == |Flatten(waves[..i])|
  {
    if i > 0 {
      OffsetIsLength(waves, i - 1);
      assert waves[..i][..i - 1] == waves[..i - 1];
    }
  }

  lemma {:induction false} OffsetPrefix(waves: seq<seq<Call>>, more: seq<seq<Call>>, i: nat)
    requires i <= |waves|
    ensures Offset(waves + more, i) == Offset(waves, i)
  {
    if i > 0 {
      OffsetPrefix(waves, more, i - 1);
    }
  }

  /** Position `p` of the batch lies in wave `i`. */
  predicate InWave(waves: seq<seq<Call>>, i: nat, p: nat) {
    i < |waves| && Offset(waves, i) <= p < Offset(waves, i + 1)
  }

  lemma {:induction false} OffsetMonotone(waves: seq<seq<Call>>, i: nat, j: nat)
    requires i <= j <= |waves|
    ensures Offset(waves, i) <= Offset(waves, j)
  {
    if i < j {
      OffsetMonotone(waves, i, j - 1);
    }
  }

  /** Number of wave starts in positions 1 to `p`. */
  function WaveIndex(calls: seq<Call>, p: nat): nat
    requires p < |calls|
  {
    if p == 0 then 0 else WaveIndex(calls, p - 1) + if Boundary(calls, p) then 1 else 0
  }

  lemma InWaveSnoc(waves: seq<seq<Call>>, wave: seq<Call>, i: nat, p: nat)
    ensures InWave(waves, i, p) ==> InWave(waves + [wave], i, p)
    ensures Offset(waves + [wave], |waves|) == |Flatten(waves)|
    ensures Offset(waves + [wave], |waves| + 1) == |Flatten(waves)| + |wave|
  {
    assert waves[..|waves|] == waves;
    OffsetIsLength(waves, |waves|);
    OffsetPrefix(waves, [wave], |waves|);
    if i < |waves| {
      OffsetPrefix(waves, [wave], i);
      OffsetPrefix(waves, [wave], i + 1);
    }
  }

  /** Where position `p` is while the first `k` calls have been read. */
  ghost predicate Placed(calls: seq<Call>, k: nat, p: nat)
    requires p < k <= |calls|
  {
    if p < GroupStart(calls, k) then InWave(Pushed(calls, k), WaveIndex(calls, p), p)
    else WaveIndex(calls, p) == |Pushed(calls, k)|
  }

  lemma {:induction false} LastIndex(calls: seq<Call>, k: nat)
    requires 0 < k <= |calls|
    ensures WaveIndex(calls, k - 1) + (if IsSerialBarrier(calls[k - 1]) then 1 else 0) == |Pushed(calls, k)|
  {
    if k > 1 {
      LastIndex(calls, k - 1);
    }
  }

  lemma FlushedPlaces(calls: seq<Call>, k: nat, p: nat)
    requires p < k < |calls| && Placed(calls, k, p)
    ensures if p < GroupStart(calls, k) || Cuts(calls, k)
            then InWave(Flushed(calls, k), WaveIndex(calls, p), p)
            else WaveIndex(calls, p) == |Flushed(calls, k)|
  {
    PushedFlatten(calls, k);
    InWaveSnoc(Pushed(calls, k), calls[GroupStart(calls, k)..k], WaveIndex(calls, p), p);
  }

  lemma BarrierPlaces(calls: seq<Call>, k: nat, p: nat)
    requires p <= k < |calls| && IsSerialBarrier(calls[k])
    requires p < k ==> InWave(Flushed(calls, k), WaveIndex(calls, p), p)
    requires p == k ==> WaveIndex(calls, p) == |Flushed(calls, k)|
    ensures InWave(Pushed(calls, k + 1), WaveIndex(calls, p), p)
  {
    PushedFlatten(calls, k);
    FlushedFlatten(calls, k);
    InWaveSnoc(Flushed(calls, k), [calls[k]], WaveIndex(calls, p), p);
  }

  lemma {:induction false} PlacedNext(calls: seq<Call>, k: nat, p: nat)
    requires p < k < |calls| && Placed(calls, k, p)
    ensures Placed(calls, k + 1, p)
  {
    hide InWave, Splits;
    FlushedPlaces(calls, k, p);
    if IsSerialBarrier(calls[k]) {
      BarrierCuts(calls, k);
      BarrierPlaces(calls, k, p);
    }
  }

  lemma {:induction false} PlacedNow(calls: seq<Call>, k: nat)
    requires k < |calls|
    ensures Placed(calls, k + 1, k)
  {
    hide InWave, Splits;
    LastIndex(calls, k + 1);
    if IsSerialBarrier(calls[k]) {
      BarrierPlaces(calls, k, k);
    }
  }

  lemma BarrierCuts(calls: seq<Call>, k: nat)
    requires k < |calls| && IsSerialBarrier(calls[k])
    ensures GroupStart(calls, k) < k ==> Cuts(calls, k)
  {
  }

  lemma {:induction false} PositionPlaced(calls: seq<Call>, k: nat, p: nat)
    requires p < k <= |calls|
    ensures Placed(calls, k, p)
    decreases k
  {
    hide Placed;
    if p == k - 1 {
      PlacedNow(calls, k - 1);
    } else {
      PositionPlaced(calls, k - 1, p);
      PlacedNext(calls, k - 1, p);
    }
  }

  /** `WaveIndex` is the index of the wave that holds the position. */
  lemma WaveIndexCorrect(calls: seq<Call>, p: nat)
    requires p < |calls|
    ensures InWave(Partition(calls), WaveIndex(calls, p), p)
  {
    var n := |calls|;
    PositionPlaced(calls, n, p);
    PushedFlatten(calls, n);
    InWaveSnoc(Pushed(calls, n), calls[GroupStart(calls, n)..n], WaveIndex(calls, p), p);
  }

  lemma InWaveUnique(waves: seq<seq<Call>>, i: nat, j: nat, p: nat)
    requires InWave(waves, i, p) && InWave(waves, j, p)
    ensures i == j
  {
    if i < j {
      OffsetMonotone(waves, i + 1, j);
    } else if j < i {
      OffsetMonotone(waves, j + 1, i);
    }
  }

  lemma {:induction false} WaveIndexGrows(calls: seq<Call>, p: nat, q: nat)
    requires p <= q < |calls|
    ensures WaveIndex(calls, p) <= WaveIndex(calls, q)
    ensures WaveIndex(calls, p) < WaveIndex(calls, q) <==> exists k :: p < k <= q && Boundary(calls, k)
  {
    if p < q {
      WaveIndexGrows(calls, p, q - 1);
    }
  }

  /** Two calls of a batch. The later one is never in an earlier wave; it is in a strictly later wave if and only if
      some wave starts between the two, which is certain when either is a barrier. */
  lemma ConsumerOrdering(calls: seq<Call>, p: nat, q: nat, i: nat, j: nat)
    requires p < q < |calls| && InWave(Partition(calls), i, p) && InWave(Partition(calls), j, q)
    ensures i <= j
    ensures i < j <==> exists k :: p < k <= q && Boundary(calls, k)
    ensures IsSerialBarrier(calls[p]) || IsSerialBarrier(calls[q]) ==> i < j
  {
    WaveIndexCorrect(calls, p);
    WaveIndexCorrect(calls, q);
    InWaveUnique(Partition(calls), i, WaveIndex(calls, p), p);
    InWaveUnique(Partition(calls), j, WaveIndex(calls, q), q);
    WaveIndexGrows(calls, p, q);
    assert IsSerialBarrier(calls[p]) ==> Boundary(calls, p + 1);
    assert IsSerialBarrier(calls[q]) ==> Boundary(calls, q);
  }

  /** The metadata of a call leaves the choice to `concurrencySafe`. */
  predicate Overridable(call: Call) {
    call.effects.None?
    || (!DeclaresMutation(call.effects.value)
        && !(call.effects.value.scopes.Some? && Unknown in call.effects.value.scopes.value)
        && call.effects.value.parallelSafe)
  }

  /** `concurrencySafe` overrides the effects, as its description says, exactly when they declare no mutation and no
      unknown scope and are parallel-safe, or when there are none. */
  lemma OverrideHonoured(call: Call)
    ensures (forall b :: IsSerialBarrier(call.(concurrencySafe := Some(b))) == !b) <==> Overridable(call)
  {
    assert IsSerialBarrier(call.(concurrencySafe := Some(true))) == !Overridable(call);
    if Overridable(call) {
      forall b ensures IsSerialBarrier(call.(concurrencySafe := Some(b))) == !b {
        assert call.(concurrencySafe := Some(b)).effects == call.effects;
      }
    }
  }

  /** Otherwise the call is a barrier, whatever `concurrencySafe` says. */
  lemma DeclaredMutationIsBarrier(call: Call)
    ensures (forall b :: IsSerialBarrier(call.(concurrencySafe := b))) <==> !Overridable(call)
  {
    assert IsSerialBarrier(call.(concurrencySafe := Some(true))) == !Overridable(call);
  }
}
