// Which calls may share a wave, and which limits a running call counts against, in terms of the calls' own fields.

module CallClasses {
  import opened Wrappers
  import opened Sequences
  import opened SchedulerCalls
  import opened Waves
  import opened WaveProperties
  import opened WaveOrdering
  import opened Slots
  import opened WavePool
  import opened PoolSafety
  import opened SchedulerRun
  import opened SlotSafety
  import opened ExactlyOnce

  // ----- Calls that may run with others -----

  /** The declared effects are those of a read. */
  predicate ReadEffects(e: Effects) {
    && !e.writesWorkspace && !e.createsFiles && !e.deletesFiles
    && !e.mutatesGit && !e.mutatesExternalState
    && !e.executesProcesses && !e.startsPersistentProcesses
    && !e.requiresExclusiveWorkspaceLease && !e.potentiallyDestructive
    && e.parallelSafe
    && (e.scopes.Some? ==> forall i :: 0 <= i < |e.scopes.value| ==> e.scopes.value[i] != Unknown)
  }

  /** A call that is declared safe: by its flag, or without a flag by its effects; effects that are given are a read's. */
  predicate DeclaredSafe(call: Call) {
    match call.effects
    case Some(e) => ReadEffects(e) && call.concurrencySafe != Some(false)
    case None => call.concurrencySafe == Some(true)
  }

  /** Both calls name the same thing. */
  predicate Shared(a: Option<string>, b: Option<string>) {
    a.Some? && b.Some? && a.value == b.value && a.value != ""
  }

  /** Two calls must not overlap: they use one resource, or one server and neither is flagged as safe. */
  predicate Compete(a: Call, b: Call) {
    || Shared(a.resource, b.resource)
    || (Shared(a.serverId, b.serverId) && a.concurrencySafe != Some(true) && b.concurrencySafe != Some(true))
  }

  lemma SafeExactly(call: Call)
    ensures IsSerialBarrier(call) <==> !DeclaredSafe(call)
  {
    if call.effects.Some? && call.effects.value.scopes.Some? {
      var scopes := call.effects.value.scopes.value;
      assert Unknown in scopes <==> exists i :: 0 <= i < |scopes| && scopes[i] == Unknown;
    }
  }

  lemma CompeteExactly(a: Call, b: Call)
    ensures CallsConflict(a, b) <==> Compete(a, b)
  {
  }

  /** What every batch guarantees: a wave of several calls holds only calls that are declared safe, and no two that
      compete. */
  lemma SharedWavesSafe(calls: seq<Call>, k: nat)
    requires k < |Partition(calls)| && |Partition(calls)[k]| >= 2
    ensures var wave := Partition(calls)[k];
      && (forall i :: 0 <= i < |wave| ==> DeclaredSafe(wave[i]))
      && forall i, j :: 0 <= i < j < |wave| ==> !Compete(wave[i], wave[j])
  {
    hide IsSerialBarrier, CallsConflict, DeclaredSafe, Compete, Partition;
    PartitionSound(calls);
    var wave := Partition(calls)[k];
    assert Admissible(wave);
    forall i | 0 <= i < |wave| ensures DeclaredSafe(wave[i]) {
      SafeExactly(wave[i]);
    }
    forall i, j | 0 <= i < j < |wave| ensures !Compete(wave[i], wave[j]) {
      CompeteExactly(wave[i], wave[j]);
    }
  }

  /** Exactly when a batch runs as one wave: all its calls are declared safe, and no two compete. */
  lemma OneWaveWhenSafe(calls: seq<Call>)
    requires |calls| >= 2
    ensures Partition(calls) == [calls] <==>
      && (forall i :: 0 <= i < |calls| ==> DeclaredSafe(calls[i]))
      && forall i, j :: 0 <= i < j < |calls| ==> !Compete(calls[i], calls[j])
  {
    hide IsSerialBarrier, CallsConflict, DeclaredSafe, Compete, Partition;
    OneWaveExactly(calls);
    forall i | 0 <= i < |calls| ensures DeclaredSafe(calls[i]) <==> !IsSerialBarrier(calls[i]) {
      SafeExactly(calls[i]);
    }
    forall i, j | 0 <= i < j < |calls| ensures Compete(calls[i], calls[j]) <==> CallsConflict(calls[i], calls[j]) {
      CompeteExactly(calls[i], calls[j]);
    }
  }

  /** A call that is not declared safe is a wave of its own, in every batch. */
  lemma UnsafeAlone(calls: seq<Call>, k: nat, i: nat)
    requires k < |Partition(calls)| && i < |Partition(calls)[k]| && !DeclaredSafe(Partition(calls)[k][i])
    ensures Partition(calls)[k] == [Partition(calls)[k][i]]
  {
    if |Partition(calls)[k]| >= 2 {
      SharedWavesSafe(calls, k);
    }
  }

  // ----- Limits, by name -----

  /** Number of calls in progress that satisfy `p`. */
  function RunningWhere(job: Job, workers: seq<Phase>, p: Call -> bool): nat {
    if workers == [] then 0
    else
      var last := workers[|workers| - 1];
      RunningWhere(job, workers[..|workers| - 1], p)
      + if last.Running? && last.i < |job.wave| && p(job.wave[last.i]) then 1 else 0
  }

  lemma {:induction false} RunningNamed(job: Job, workers: seq<Phase>, kind: Kind, key: string, p: Call -> bool)
    requires forall c :: p(c) <==> Key(kind, c) == Some(key)
    ensures RunningWhere(job, workers, p) == RunningWith(job, workers, kind, key)
  {
    if workers != [] {
      RunningNamed(job, workers[..|workers| - 1], kind, key, p);
    }
  }

  function OnTool(name: string): Call -> bool {
    (c: Call) => c.toolName == name
  }

  function OnHost(host: string): Call -> bool {
    (c: Call) => c.host == Some(host)
  }

  function OnServer(id: string): Call -> bool {
    (c: Call) => c.serverId == Some(id)
  }

  /** In every reachable state at most `perTool` calls of one tool are in progress, at most `perHost` to one host and at
      most `perServer` to one server, whatever has been aborted. */
  lemma LimitsByName(plan: Plan, s: State, name: string)
    requires Reachable(plan, s) && !Final(plan, s)
    ensures var job, workers := JobOf(plan, s.pos), s.pool.workers;
      && RunningWhere(job, workers, OnTool(name)) <= Max(0, plan.limits.perTool)
      && (name != "" ==> RunningWhere(job, workers, OnHost(name)) <= Max(0, plan.limits.perHost))
      && (name != "" ==> RunningWhere(job, workers, OnServer(name)) <= Max(0, plan.limits.perServer))
  {
    var job, workers := JobOf(plan, s.pos), s.pool.workers;
    SlotsSafe(plan, s);
    RunningNamed(job, workers, Tool, name, OnTool(name));
    assert RunningWith(job, workers, Tool, name) <= Max(0, LimitOf(plan.limits, Tool));
    if name != "" {
      RunningNamed(job, workers, Host, name, OnHost(name));
      RunningNamed(job, workers, Server, name, OnServer(name));
      assert RunningWith(job, workers, Host, name) <= Max(0, LimitOf(plan.limits, Host));
      assert RunningWith(job, workers, Server, name) <= Max(0, LimitOf(plan.limits, Server));
    }
  }

  // ----- Reports, field by field -----

  /** What the source reports for a call that settled without an abort in its way. */
  predicate SettledAs(r: Result, run: Settlement) {
    match run
    case Resolved(value, isError) => !r.cancelled && r.payload == Value(value) && r.isError == isError
    case Rejected(message) => !r.cancelled && r.payload == Text(message) && r.isError
  }

  /** With distinct indices report `p` is about the `p`-th call by index. Without an abort it says how that call settled;
      after an abort it may also say "cancelled", or that the call failed as cancelled. */
  lemma ReportFields(calls: seq<Call>, limits: Limits, groupSeq: nat, s: State, p: nat, k: nat)
    requires DistinctIndices(calls) && p < |calls|
    requires Reachable(MakePlan(calls, limits, groupSeq), s) && Final(MakePlan(calls, limits, groupSeq), s)
    requires InWave(Partition(SortCalls(calls)), k, p)
    ensures |Output(s)| == |SortCalls(calls)| == |calls|
    ensures var r, call := Output(s)[p], SortCalls(calls)[p];
      && r.index == call.index && r.toolCallId == call.toolCallId && r.group == groupSeq + k + 1
      && (SettledAs(r, call.run)
          || (s.aborted && r.cancelled && r.isError
              && (r.payload == Text("cancelled") || (call.run.Rejected? && r.payload == Text(call.run.message)))))
  {
    hide MakePlan, Reachable, Final, Output, SortCalls, InWave, Partition;
    OrderedResults(calls, limits, groupSeq, s, p, k);
  }
}
