// packages/agent/src/scheduler.ts: slot counters and the worker pool that runs one wave.
// A step is the code between two awaits, so every function below is one atomic step.

module Slots {
  import opened Wrappers
  import opened SchedulerCalls

  datatype Limits = Limits(globalMax: int, perTool: int, perHost: int, perServer: int)

  const DEFAULT_LIMITS := Limits(8, 4, 3, 2)

  datatype Kind = Tool | Host | Server

  function LimitOf(limits: Limits, kind: Kind): int {
    match kind
    case Tool => limits.perTool
    case Host => limits.perHost
    case Server => limits.perServer
  }

  /** The counter key a call uses in each of the three maps; tools always count, hosts and servers only when named. */
  function Key(kind: Kind, call: Call): Option<string> {
    match kind
    case Tool => Some(call.toolName)
    case Host => if Truthy(call.host) then call.host else None
    case Server => if Truthy(call.serverId) then call.serverId else None
  }

  type Counter = map<string, int>

  datatype Counters = Counters(perTool: Counter, perHost: Counter, perServer: Counter) {
    function Of(kind: Kind): Counter {
      match kind
      case Tool => perTool
      case Host => perHost
      case Server => perServer
    }
  }

  const NO_SLOTS := Counters(map[], map[], map[])

  function Get(counter: Counter, key: string): int {
    if key in counter then counter[key] else 0
  }

  function Increment(counter: Counter, key: Option<string>): Counter {
    if key.Some? then counter[key.value := Get(counter, key.value) + 1] else counter
  }

  /** `(get ?? 1) - 1`, with the entry deleted when nothing is left. */
  function Decrement(counter: Counter, key: Option<string>): Counter {
    if key.None? then counter
    else
      var left := (if key.value in counter then counter[key.value] else 1) - 1;
      if left <= 0 then counter - {key.value} else counter[key.value := left]
  }

  predicate HasRoom(kind: Kind, call: Call, counters: Counters, limits: Limits) {
    Key(kind, call).Some? ==> Get(counters.Of(kind), Key(kind, call).value) < LimitOf(limits, kind)
  }

  predicate CanTake(call: Call, counters: Counters, limits: Limits) {
    HasRoom(Tool, call, counters, limits) && HasRoom(Host, call, counters, limits) && HasRoom(Server, call, counters, limits)
  }

  function Take(call: Call, c: Counters): Counters {
    Counters(Increment(c.perTool, Key(Tool, call)), Increment(c.perHost, Key(Host, call)),
             Increment(c.perServer, Key(Server, call)))
  }

  function Release(call: Call, c: Counters): Counters {
    Counters(Decrement(c.perTool, Key(Tool, call)), Decrement(c.perHost, Key(Host, call)),
             Decrement(c.perServer, Key(Server, call)))
  }

  /** The three counter maps, updated in place. */
  class SlotTable {
    var perTool: Counter
    var perHost: Counter
    var perServer: Counter

    function View(): Counters
      reads this
    {
      Counters(perTool, perHost, perServer)
    }

    constructor ()
      ensures View() == NO_SLOTS
    {
      perTool, perHost, perServer := map[], map[], map[];
    }

    /** One run of `check` inside `waitForSlot`: all three slots or none, and none once aborted. */
    method Check(call: Call, limits: Limits, aborted: bool) returns (resolved: bool)
      modifies this
      ensures resolved <==> aborted || CanTake(call, old(View()), limits)
      ensures View() == if resolved && !aborted then Take(call, old(View())) else old(View())
    {
      if aborted {
        return true;
      }
      var t := Get(perTool, call.toolName) < limits.perTool;
      var h := !Truthy(call.host) || Get(perHost, call.host.value) < limits.perHost;
      var s := !Truthy(call.serverId) || Get(perServer, call.serverId.value) < limits.perServer;
      if t && h && s {
        perTool := perTool[call.toolName := Get(perTool, call.toolName) + 1];
        if Truthy(call.host) {
          perHost := perHost[call.host.value := Get(perHost, call.host.value) + 1];
        }
        if Truthy(call.serverId) {
          perServer := perServer[call.serverId.value := Get(perServer, call.serverId.value) + 1];
        }
        return true;
      }
      return false;
    }

    method DecSlot(call: Call)
      modifies this
      ensures View() == Release(call, old(View()))
    {
      perTool := Decrement(perTool, Some(call.toolName));
      if Truthy(call.host) {
        perHost := Decrement(perHost, call.host);
      }
      if Truthy(call.serverId) {
        perServer := Decrement(perServer, call.serverId);
      }
    }
  }
}

module WavePool {
  import opened Wrappers
  import opened SchedulerCalls
  import opened Slots

  /** What a worker is doing between two steps. `holds` records whether `waitForSlot` took the slots. */
  datatype Phase = Polling(i: nat) | Ready(i: nat, holds: bool) | Running(i: nat) | Exited

  datatype Payload = Value(value: string) | Text(message: string)

  datatype Result = Result(index: int, toolCallId: string, group: nat, cancelled: bool, payload: Payload, isError: bool)

  /** What one wave runs with. */
  datatype Job = Job(wave: seq<Call>, limits: Limits, group: nat)

  datatype Pool = Pool(next: nat, workers: seq<Phase>, counters: Counters, results: seq<Result>)

  function Max(a: int, b: int): int { if a < b then b else a }
  function Min(a: int, b: int): int { if a < b then a else b }

  function SlotLimit(job: Job): (n: nat)
    ensures n >= 1
  {
    Max(1, Min(job.limits.globalMax, |job.wave|))
  }

  /** The first or a later run of `check` by worker `w` for call `i`. */
  function Check(job: Job, aborted: bool, p: Pool, w: nat, i: nat): Pool
    requires w < |p.workers| && i < |job.wave|
  {
    if aborted then p.(workers := p.workers[w := Ready(i, false)])
    else if CanTake(job.wave[i], p.counters, job.limits) then
      p.(workers := p.workers[w := Ready(i, true)], counters := Take(job.wave[i], p.counters))
    else p.(workers := p.workers[w := Polling(i)])
  }

  /** `next++`, then either exit or the first slot check. */
  function Claim(job: Job, aborted: bool, p: Pool, w: nat): Pool
    requires w < |p.workers|
  {
    var i := p.next;
    var p' := p.(next := i + 1);
    if i >= |job.wave| then p'.(workers := p.workers[w := Exited]) else Check(job, aborted, p', w, i)
  }

  function CancelledResult(call: Call, group: nat): Result {
    Result(call.index, call.toolCallId, group, true, Text("cancelled"), true)
  }

  /** The result of a call whose promise settled, `aborted` being the flag at that moment. */
  function SettledResult(call: Call, group: nat, aborted: bool): Result {
    match call.run
    case Resolved(value, isError) => Result(call.index, call.toolCallId, group, false, Value(value), isError)
    case Rejected(message) => Result(call.index, call.toolCallId, group, aborted, Text(message), true)
  }

  /** `decSlot`, the pushed result, and the next turn of the worker's loop. */
  function Complete(job: Job, aborted: bool, p: Pool, w: nat, i: nat, result: Result): Pool
    requires w < |p.workers| && i < |job.wave|
  {
    Claim(job, aborted, p.(counters := Release(job.wave[i], p.counters), results := p.results + [result]), w)
  }

  function Begin(job: Job, aborted: bool, p: Pool, w: nat): Pool
    requires w < |p.workers| && p.workers[w].Ready? && p.workers[w].i < |job.wave|
  {
    var i := p.workers[w].i;
    if aborted then Complete(job, aborted, p, w, i, CancelledResult(job.wave[i], job.group))
    else p.(workers := p.workers[w := Running(i)])
  }

  function Finish(job: Job, aborted: bool, p: Pool, w: nat): Pool
    requires w < |p.workers| && p.workers[w].Running? && p.workers[w].i < |job.wave|
  {
    var i := p.workers[w].i;
    Complete(job, aborted, p, w, i, SettledResult(job.wave[i], job.group, aborted))
  }

  /** The first `n` workers have been created; each runs up to its first await. */
  function Launched(job: Job, aborted: bool, n: nat): (p: Pool)
    ensures |p.workers| == n
  {
    if n == 0 then Pool(0, [], NO_SLOTS, [])
    else
      var p := Launched(job, aborted, n - 1);
      Claim(job, aborted, p.(workers := p.workers + [Exited]), n - 1)
  }

  function Launch(job: Job, aborted: bool): (p: Pool)
    ensures |p.workers| == SlotLimit(job)
  {
    Launched(job, aborted, SlotLimit(job))
  }

  /** The pool as the source keeps it: variables shared by the worker closures. */
  class Runner {
    const job: Job
    var next: nat
    var workers: seq<Phase>
    var results: seq<Result>
    const slots: SlotTable

    function View(): Pool
      reads this, slots
    {
      Pool(next, workers, slots.View(), results)
    }

    ghost predicate Indexed()
      reads this
    {
      forall w :: 0 <= w < |workers| && !workers[w].Exited? ==> workers[w].i < |job.wave|
    }

    constructor (job: Job)
      ensures this.job == job && View() == Launched(job, false, 0) && Indexed() && fresh(slots)
    {
      this.job := job;
      next, workers, results := 0, [], [];
      slots := new SlotTable();
    }

    method CheckSlot(aborted: bool, w: nat, i: nat)
      requires w < |workers| && i < |job.wave| && Indexed()
      modifies this, slots
      ensures View() == Check(job, aborted, old(View()), w, i) && Indexed()
    {
      var resolved := slots.Check(job.wave[i], job.limits, aborted);
      workers := workers[w := if resolved then Ready(i, !aborted) else Polling(i)];
    }

    method ClaimNext(aborted: bool, w: nat)
      requires w < |workers| && Indexed()
      modifies this, slots
      ensures View() == Claim(job, aborted, old(View()), w) && Indexed()
    {
      var i := next;
      next := next + 1;
      if i >= |job.wave| {
        workers := workers[w := Exited];
      } else {
        CheckSlot(aborted, w, i);
      }
    }

    method LaunchWorkers(aborted: bool)
      requires View() == Launched(job, aborted, 0)
      modifies this, slots
      ensures View() == Launch(job, aborted) && Indexed()
    {
      var slotLimit := SlotLimit(job);
      for n := 0 to slotLimit
        invariant View() == Launched(job, aborted, n) && Indexed()
      {
        workers := workers + [Exited];
        ClaimNext(aborted, n);
      }
    }

    method Poll(aborted: bool, w: nat)
      requires w < |workers| && workers[w].Polling? && Indexed()
      modifies this, slots
      ensures View() == Check(job, aborted, old(View()), w, old(workers[w].i)) && Indexed()
    {
      CheckSlot(aborted, w, workers[w].i);
    }

    method CompleteCall(aborted: bool, w: nat, i: nat, result: Result)
      requires w < |workers| && i < |job.wave| && Indexed()
      modifies this, slots
      ensures View() == Complete(job, aborted, old(View()), w, i, result) && Indexed()
    {
      slots.DecSlot(job.wave[i]);
      results := results + [result];
      ClaimNext(aborted, w);
    }

    /** The continuation after `await waitForSlot`. */
    method BeginCall(aborted: bool, w: nat)
      requires w < |workers| && workers[w].Ready? && Indexed()
      modifies this, slots
      ensures View() == Begin(job, aborted, old(View()), w) && Indexed()
    {
      var i := workers[w].i;
      if aborted {
        CompleteCall(aborted, w, i, CancelledResult(job.wave[i], job.group));
      } else {
        workers := workers[w := Running(i)];
      }
    }

    /** The continuation after `await call.run(signal)`. */
    method FinishCall(aborted: bool, w: nat)
      requires w < |workers| && workers[w].Running? && Indexed()
      modifies this, slots
      ensures View() == Finish(job, aborted, old(View()), w) && Indexed()
    {
      var i := workers[w].i;
      CompleteCall(aborted, w, i, SettledResult(job.wave[i], job.group, aborted));
    }
  }
}
