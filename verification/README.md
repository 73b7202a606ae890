# Verified model of the agent runtime

This Dafny project models the agent runtime in `packages/agent/src` as one small concurrent system, together with the
transcript check it relies on, and proves what its design promises: what runs in parallel looks sequential. Where the
code and its own comments disagree, the model follows the code; the disagreement is stated as a lemma, next to the exact
condition under which the promise holds.

`dafny verify dfyconfig.toml` checks everything.

## How the system is modelled

**Scheduler** (`scheduler.ts`). JavaScript yields only at `await`, so an atomic step is the code between two awaits:
`next++` together with the first slot check, a later poll of `waitForSlot`, the start of a call, its completion together
with `decSlot`, the pushed result and the next claim. An abort is a step of the environment that is never taken back.
`Waves` holds `partitionWaves` as code and as a reference definition by cuts; `WavePool` holds the worker pool as a class
(`Runner`, with the counter maps in `SlotTable`) and as functions on values, one per step; `SchedulerRun` turns the
functions into a step relation over whole runs, and `SchedulerObject` drives the classes through it. A state is
reachable when it lies in every set of states that contains the starts and is closed under steps; `ReachableBySchedule`
shows that this is the same as being reached by a finite schedule. `PoolWithoutCounters` is the same pool without the
counter maps, and refined by it; `CallClasses` and `WaveMembership` say what the partition does in terms of the fields of
the calls. For serial equivalence, the body of a call is a list of atomic operations on a workspace, interleaved at will.

**Agent loop and Agent** (`agent-loop.ts`, `agent.ts`). The world's part of a turn is a script entry: the provider's
stream and final message, how tools, hooks and the scheduler behave, and what is queued while the loop waits. `AgentLoop`
gives the run after any finite script as a function, with the trace of emitted events and a log of polls, injections,
provider calls and turn ends. `AgentObject` holds the classes: `Agent` with its fields and queues, and `Run` with the
loop's own context, both updated by the nested loops of the source and proved to compute that function.
`AgentSession` follows an Agent over many runs, with messages queued before, during and between them. What becomes of
each call, message and event is stated apart from these functions, on the fields of what the world does:
`AgentToolCases` for tool calls, `AgentDelivery` for queues, `prompt` and `continue`, `AgentPayloads` for what the events
carry and the Agent's fields.

**Transcript check** (`packages/ai/src/utils/transcript-validation.ts`). The validator as code and as a fold, proved to
accept exactly the transcripts that are paired block by block.

**Canonical context** (`context-engine.ts`). Values without cycles are trees (`Json`); `canonicalize` on shared and
cyclic values is a class with the mutable `seen` set (`Canonicalizers`), proved against the tree a value unfolds to. Key
order is the lexicographic order of characters. `localeCompare`, `JSON.stringify` and SHA-256 are parameters: a total
order and two injective functions.

**Proxy** (`proxy.ts`). The read loop with its `buffer`, and `processProxyEvent` on a mutable partial message with a
sparse `content`. `JSON.parse` and `parseStreamingJson` are parameters. `ProxyConsumer` states what the consumer of the
stream receives, `ProxyCuts` what is left of a stream that is aborted, cut or malformed.

## Where the code and its comments disagree

- `scheduler.ts:9` promises that a consumer runs after its producer. The split test looks only at earlier waves, so
  dependencies alone never separate calls: `WaveOrdering.OneWaveExactly`. The promise holds for a batch exactly when no
  consumer joins the open group of its producer without another reason to split it:
  `WaveOrdering.ConsumersLaterExactly`. A test that also covers the open group keeps it for every batch:
  `WaveOrdering.RepairedKeepsPromise`.
- `scheduler.ts:25` says that `concurrencySafe` overrides the effects. It does exactly for calls whose effects declare no
  mutation and no unknown scope and are parallel-safe, or that have none: `WaveProperties.OverrideHonoured`.
- After an abort `waitForSlot` resolves without taking slots and `decSlot` still runs, so the counters drift low, exactly
  at the steps named in `SlotSafety.DriftsExactly`; `SlotSafety.AbortUndercounts` reaches such a state. The limits hold
  all the same: `SlotSafety.SlotsSafe`.
- `types.ts:34` promises results in source order in parallel mode. Refused calls are reported before all scheduled ones;
  the exact condition is `AgentToolProofs.SourceOrderExactly`.
- The transcript-error message is emitted but never put into the loop's context: `Agreement.EventSourcedAgreement`. As
  the Agent keeps the messages that caused it, no later prompt repairs the conversation: `SessionProofs.TranscriptFate`.
- The README of the package says that steering skips the remaining tools of a reply. But for the poll that
  opens a run, the queue is polled only right after `turn_end`, when every call has been answered:
  `QueueProofs.DeliveryRules`.
- `required` lists are sorted before their newlines are normalized, so newline style can change a fingerprint:
  `CanonicalProofs.RequiredNewlinesMatter`. Canonicalizing changes the meaning of a `const` or `enum` exactly when one
  of its values has a carriage return or an unsorted `required` list in it: `SchemaConstants.ConstExactly`,
  `SchemaConstants.EnumExactly`.
- A `toolcall_delta` after its end event is appended to the text "undefined", so the arguments are those of all deltas
  exactly under the condition of `ProxyTools.ArgumentsExactly`.
- The result of a call cancelled in the scheduler is the plain string "cancelled", so the tool result it becomes has no
  content: `AgentCancellation.NoContentExactly`.

## Model

| member | source | states |
|---|---|---|
| Waves.PartitionWaves | packages/agent/src/scheduler.ts:116-147 | the loop over the calls, with the open group, the wave counter and the map of emitted ids, computes the reference partition by cuts |
| Waves.SplitTest | packages/agent/src/scheduler.ts:123-131 | the three tests of the code on the open group are exactly the reference condition for starting a new wave |
| Waves.BarrierClosesGroup | packages/agent/src/scheduler.ts:131-140 | no barrier is ever inside an open group |
| WaveProperties.PartitionSound | packages/agent/src/scheduler.ts:116-147 | the waves concatenate to the input, none is empty, every barrier is alone, no two calls of a wave conflict |
| WaveProperties.WaveIndexCorrect | packages/agent/src/scheduler.ts:116-147 | every position lies in the wave whose index is the number of wave starts up to it |
| WaveProperties.ConsumerOrdering | packages/agent/src/scheduler.ts:124-131 | a later call is never in an earlier wave, and is in a strictly later one exactly when some wave starts between the two, which is certain when either is a barrier |
| WaveOrdering.ConsumersLaterExactly | packages/agent/src/scheduler.ts:116-147 | every consumer of a batch runs in a strictly later wave than its producer if and only if, wherever a producer is still in the open group, its consumer is a barrier, consumes from an earlier wave too, or conflicts with a call of the group |
| WaveOrdering.OneWaveExactly | packages/agent/src/scheduler.ts:124-131 | a batch of two or more calls stays one wave exactly when it holds no barrier and no conflicting pair, whatever its calls consume |
| WaveOrdering.AdjacentConsumerSharesWave | packages/agent/src/scheduler.ts:127-131 | every non-conflicting, concurrency-safe pair of producer and consumer shares one wave, against the promised dependency ordering |
| WaveOrdering.RepairedKeepsPromise | packages/agent/src/scheduler.ts:9-131 | with a split test that also covers a producer in the open group the partition is as sound as before, and every consumer of every batch runs strictly later than its producer |
| WaveProperties.OverrideHonoured | packages/agent/src/scheduler.ts:25-94 | `concurrencySafe` decides whether a call is a barrier exactly when its effects declare no mutation and no unknown scope and are parallel-safe, or when it has none |
| WaveProperties.DeclaredMutationIsBarrier | packages/agent/src/scheduler.ts:73-94 | in all other cases, and only then, the call is a barrier whatever `concurrencySafe` says |
| CallClasses.SharedWavesSafe | packages/agent/src/scheduler.ts:73-147 | in every batch each call of a wave of several calls is declared safe, by its flag or, without one, by its effects, which if given are a read's, flag by flag; and no two of them use one resource, or one server without a flag |
| CallClasses.OneWaveWhenSafe | packages/agent/src/scheduler.ts:73-147 | a batch of two or more calls is one wave exactly when all its calls are declared safe and no two compete |
| CallClasses.UnsafeAlone | packages/agent/src/scheduler.ts:92-140 | a call that is not declared safe, such as one without any metadata, is a wave of its own in every batch |
| WaveMembership.JoinsExactly | packages/agent/src/scheduler.ts:116-147 | the whole partition in terms of the calls' fields: a call is in the wave of the call before it if and only if both are declared safe, it competes with no call of that wave so far, and the latest producer, if any, of every id it consumes is in that wave, or is the barrier right before it; otherwise it is in the next wave |
| Slots.SlotTable.Check | packages/agent/src/scheduler.ts:243-259 | one check takes all three slots or none, none once aborted, and resolves exactly when aborted or all have room |
| Slots.SlotTable.DecSlot | packages/agent/src/scheduler.ts:264-283 | every counter the call has a key for goes down by one, an entry without holders is deleted, others stay |
| PoolWithoutCounters.CountersCache | packages/agent/src/scheduler.ts:170-283 | under every schedule and abort point the pool takes the steps of a pool without counters, in which a call gets its slots exactly when fewer calls than the limits hold slots for its tool, host and server, an abort lets waiting calls go on unslotted to be reported as cancelled, and a settled call is reported as it settled |
| PoolWithoutCounters.WorkConserved | packages/agent/src/scheduler.ts:178-222 | in every reachable state there are max(1, min(globalMax, calls)) workers, and none has left while a call of the wave is unclaimed |
| WavePool.Runner.ClaimNext | packages/agent/src/scheduler.ts:186-189 | `next++`, then exit or the first slot check, as one step |
| WavePool.Runner.LaunchWorkers | packages/agent/src/scheduler.ts:182-220 | the workers are created one after the other, each up to its first await |
| WavePool.Runner.Poll | packages/agent/src/scheduler.ts:243-258 | a later check by a waiting worker; without room nothing changes |
| WavePool.Runner.BeginCall | packages/agent/src/scheduler.ts:190-216 | after the wait the call starts, or is reported as cancelled once aborted |
| WavePool.Runner.FinishCall | packages/agent/src/scheduler.ts:198-216 | when the call settles its slots are given back, its result is pushed and the worker claims the next call |
| SchedulerObject.DeterministicParallelScheduler.constructor | packages/agent/src/scheduler.ts:46-70 | limits that are not given keep their defaults |
| SchedulerObject.DeterministicParallelScheduler.RunWave | packages/agent/src/scheduler.ts:170-223 | driven by any schedule of timers, settled calls and an abort, the pool passes through the states of the step relation until all workers have returned |
| SchedulerObject.DeterministicParallelScheduler.Run | packages/agent/src/scheduler.ts:152-168 | the loop over the waves only passes through reachable states; at its end each call is reported once, in order of index, and the group counter has grown by the number of waves |
| PoolSafety.PollKeeps | packages/agent/src/scheduler.ts:234-262 | a slot check keeps the counters equal to their holders (at most them after an abort), the limits, and every call claimed or reported once |
| PoolSafety.FinishKeeps | packages/agent/src/scheduler.ts:184-216 | completing a call and claiming the next one keeps the same invariant |
| SchedulerRun.StepKeeps | packages/agent/src/scheduler.ts:152-223 | every step of a run, also from wave to wave, keeps the invariant of the run |
| SchedulerRun.ReachableBySchedule | packages/agent/src/scheduler.ts:152-223 | a state is reachable exactly when a finite schedule of steps leads to it |
| SlotSafety.SlotsSafe | packages/agent/src/scheduler.ts:182-205 | in every reachable state running calls respect max(1, globalMax) and the three limits, counters equal their holders before an abort and never exceed them after it, and no stored counter is zero or negative |
| CallClasses.LimitsByName | packages/agent/src/scheduler.ts:248-258 | in every reachable state at most perTool calls of one tool, perHost to one host and perServer to one server are running, counted by name |
| SlotSafety.DriftsExactly | packages/agent/src/scheduler.ts:182-283 | a step lets a counter fall further below its number of holders if and only if it cancels a call that never took its slots while that counter still counts another call's; each wave starts without drift |
| SlotSafety.AbortUndercounts | packages/agent/src/scheduler.ts:243-283 | a reachable aborted state in which a call runs and its counter is gone |
| WaveIsolation.EarlierWavesReported | packages/agent/src/scheduler.ts:158-165 | while a worker is busy its call lies in the current wave and exactly the calls of the waves before are reported: waves never overlap |
| WaveIsolation.BarrierIsolation | packages/agent/src/scheduler.ts:136-138 | while a barrier is with a worker no other worker is busy, exactly the lower calls are reported, and no higher one has started |
| ExactlyOnce.ReportedOnce | packages/agent/src/scheduler.ts:152-168 | under every schedule and abort point a finished run reports each call once, ordered by index |
| ExactlyOnce.OrderedResults | packages/agent/src/scheduler.ts:152-216 | with distinct indices report p is that of the p-th call, with its id, its outcome and the group of its wave |
| CallClasses.ReportFields | packages/agent/src/scheduler.ts:191-216 | with distinct indices report p has the index and id of the p-th call and says how that call settled, or, only after an abort, that it was cancelled |
| ExactlyOnce.SortedTagsAreTheWave | packages/agent/src/scheduler.ts:160-163 | sorting the reports of a wave, in whatever order they finished, restores the order of the wave |
| SchedulerProgress.StepDecreases | packages/agent/src/scheduler.ts:184-222 | every step but a failed poll lowers a measure, so runs terminate |
| SchedulerProgress.BoundedMoves | packages/agent/src/scheduler.ts:184-222 | no schedule has more effective steps than the measure of its first state |
| SchedulerProgress.NoDeadlock | packages/agent/src/scheduler.ts:184-258 | an unfinished reachable state has an effective step when the limits admit every call, and always after an abort |
| SchedulerProgress.StarvedNeverFinishes | packages/agent/src/scheduler.ts:248-258 | a call that needs a limit below one keeps a run from ever finishing without an abort |
| SchedulerProgress.ProgressExactly | packages/agent/src/scheduler.ts:170-262 | a run can always go on without an abort if and only if every limit some call counts against is at least one |
| SerialEquivalence.ParallelLooksSerial | packages/agent/src/scheduler.ts:73-168 | if calls that are not barriers leave the workspace alone, every interleaving without an abort ends with the workspace and the results of executing the calls one at a time in index order |
| SerialEquivalence.WorldKeepsInv | packages/agent/src/scheduler.ts:158-216 | in every reachable world each started body is where it would be had it run alone from the workspace its wave found |
| SerialProgress.NeverStuck | packages/agent/src/scheduler.ts:170-223 | such an interleaving can always go on until the run is finished |
| Transcript.Validate | packages/ai/src/utils/transcript-validation.ts:203-332 | the validator's loop computes the fold over messages, and its verdict is that all four error lists are empty |
| TranscriptProofs.ValidExactlyPaired | packages/ai/src/utils/transcript-validation.ts:203-332 | a transcript is accepted exactly when each call of a reply has a fresh id and one result in the block right after the reply, and there is no other result |
| TranscriptProofs.IrrelevantIgnored | packages/ai/src/utils/transcript-validation.ts:203-332 | failed replies and custom messages do not influence the verdict |
| AgentTools.ScheduledInOrder | packages/agent/src/agent-loop.ts:499-524 | scheduled result k belongs to runnable call k under every schedule |
| AgentToolCases.PreparedExactly | packages/agent/src/agent-loop.ts:555-604 | a call passes exactly when its tool is found, its arguments are valid and the hook neither blocks nor throws; otherwise it is refused with the not-found text, the validation message, the hook's message, or the given or default reason |
| AgentToolCases.SequentialCases | packages/agent/src/agent-loop.ts:429-467 | in sequential mode each result is that of its call: an error with the refusal's text, or what the tool returned or threw, with the fields the hook after it replaces |
| AgentToolCases.SequentialStarts | packages/agent/src/agent-loop.ts:447-462 | the progress reports of sequential mode are exactly those of the calls that pass, in source order |
| AgentToolCases.BatchExactly | packages/agent/src/agent-loop.ts:488-520 | exactly the calls that pass are handed to the scheduler, in source order, each with its tool's effects and flag, without host, server or dependency, and with the outcome of its execution |
| AgentToolCases.TogetherSafe | packages/agent/src/agent-loop.ts:496-514 | a call runs together with others only if its tool says it is concurrency-safe and any effects it declares are a read's |
| AgentToolCases.TogetherExactly | packages/agent/src/agent-loop.ts:496-514 | the calls that pass run as one wave exactly when that is true of all of them |
| AgentToolCases.ParallelCases | packages/agent/src/agent-loop.ts:480-535 | in parallel mode each result is that of its call too, under every schedule, or, only after an abort, the result of a cancelled call that had passed |
| AgentToolCases.ParallelStarts | packages/agent/src/agent-loop.ts:515-519 | the progress reports of parallel mode are those of calls that pass, each under its own call |
| AgentToolCases.ModesAgree | packages/agent/src/agent-loop.ts:429-535 | without an abort both modes give every call the same result message |
| AgentToolCases.SequentialAnnounced | packages/agent/src/agent-loop.ts:439-466 | every call is announced with its name and arguments, in source order, and every tool end is followed by the complete message of the same result |
| AgentToolCases.ParallelAnnounced | packages/agent/src/agent-loop.ts:480-532 | the same in parallel mode, under every schedule |
| AgentToolProofs.PositionsIncrease | packages/agent/src/agent-loop.ts:480-494 | refused and runnable calls each keep source order |
| AgentToolProofs.PositionsCover | packages/agent/src/agent-loop.ts:480-494 | together they are all the calls |
| AgentToolProofs.ParallelResultOrder | packages/agent/src/agent-loop.ts:477-534 | parallel results are a stable partition: refused calls, then scheduled ones, each in source order, every call answered once |
| AgentToolProofs.SourceOrderExactly | packages/agent/src/agent-loop.ts:477-534 | they stand in source order exactly when no refused call follows a runnable one |
| AgentToolProofs.SequentialResultOrder | packages/agent/src/agent-loop.ts:437-466 | sequential mode answers in source order |
| AgentToolProofs.SequentialShape | packages/agent/src/agent-loop.ts:437-466 | sequential tool events open and close every call inside the turn and complete exactly the result messages |
| AgentToolProofs.ParallelShape | packages/agent/src/agent-loop.ts:469-535 | the same for parallel tool events, under every schedule and interleaving of progress reports |
| AgentCancellation.NoContentExactly | packages/agent/src/agent-loop.ts:499-534 | in parallel mode the result of a runnable call has no content if and only if the scheduler cancelled the call in its queue and the hook puts nothing in its place; that takes an abort |
| AgentEvents.ShapeTracksState | packages/agent/src/agent.ts:466-509 | along a well-formed trace the Agent has a stream message exactly inside a message bracket, and pending only calls in progress |
| AgentEvents.ReplayMessages | packages/agent/src/agent.ts:476-479 | the Agent's messages are those it had and the completed ones, in order |
| AgentPayloads.ReplayFields | packages/agent/src/agent.ts:466-509 | after any trace the stream message is that of the last event about a message unless it completed it, the error is that of the last turn that reported one, a call is pending exactly when the last event about it started it, and the Agent streams until `agent_end` |
| StreamProofs.AnswerExact | packages/agent/src/agent-loop.ts:343-409 | a reply leaves the context with one message more exactly when at most one start event is read |
| StreamProofs.AnswerShape | packages/agent/src/agent-loop.ts:343-409 | it completes one message for the Agent, in well nested brackets exactly in that case |
| AgentPayloads.LiveExactly | packages/agent/src/agent-loop.ts:343-392 | a reply is read up to its first done or error event and no further |
| AgentPayloads.AnswerEmits | packages/agent/src/agent-loop.ts:343-409 | a reply emits its start and each of its partial messages once, then the finished message; without a start event the finished message alone |
| TurnProofs.ToolPhaseNeutral | packages/agent/src/agent-loop.ts:204-216 | in both modes the tool phase stays inside its turn, completes its results and answers every call once |
| Agreement.EventSourcedAgreement | packages/agent/src/agent-loop.ts:184-235 | at every provider call and every turn end the Agent's messages are the loop's context, but for the turn that ends in a transcript error, which is one message ahead; at all times they are the initial messages and then the new ones |
| Agreement.TurnAgrees | packages/agent/src/agent-loop.ts:176-221 | one turn keeps that agreement |
| Grammar.EventGrammar | packages/agent/src/agent-loop.ts:113-235 | agent start, alternating turn starts and ends, one final agent end; message brackets never nest, and tool calls are closed once before their turn ends |
| Grammar.QuietTurnEnds | packages/agent/src/agent.ts:466-509 | at every turn end of every run nothing is pending and there is no stream message |
| AgentPayloads.RunPayloads | packages/agent/src/agent-loop.ts:198-235 | over every run each `turn_end` carries its reply and the results completed since, and `agent_end` carries all messages the run has completed |
| Pairing.PairedConcat | packages/ai/src/utils/transcript-validation.ts:203-332 | after a paired transcript, what follows is checked on its own, given the ids used so far |
| Pairing.TurnAdded | packages/agent/src/agent-loop.ts:195-216 | a turn keeps the context paired exactly when the reply's call ids are fresh |
| Pairing.RefusedExactly | packages/agent/src/agent-loop.ts:291-315 | on a paired conversation with plain messages the next provider call is refused exactly when some reply of the run reused an id |
| Pairing.NeverRefused | packages/agent/src/agent-loop.ts:238-269 | with fresh ids the transcript check never fires, in both execution modes |
| Pairing.BrokenRun | packages/agent/src/agent-loop.ts:291-315 | a run on a conversation that is not paired is refused before the provider is called |
| QueueProofs.QueueConservation | packages/agent/src/agent.ts:317-374 | however queueing interleaves with a run, the messages queued are those that entered, first come first, then those still queued; an ended run holds none back |
| QueueProofs.DeliveryRules | packages/agent/src/agent-loop.ts:168-232 | the steering queue is polled when the run opens and then only right after the turn end of a reply that did not fail, with one result for each of its calls at the end of the context; follow-ups are looked for only after a tool-free reply and an empty steering poll, messages enter right after their poll, only paired transcripts reach the provider, and in one-at-a-time mode at most one steering message enters between provider calls |
| QueueProofs.TakenLeft | packages/agent/src/agent.ts:346-374 | dequeueing takes a prefix, one message at most in one-at-a-time mode, and nothing only from an empty queue |
| AgentDelivery.SentExactly | packages/agent/src/agent.ts:37-39 | the provider is sent every message of the context but the application's own, in order |
| AgentDelivery.EndsExactly | packages/agent/src/agent-loop.ts:176-235 | a turn ends the run if and only if its transcript is refused, its reply failed, or the reply made no calls and both queues are empty when they are looked at |
| AgentDelivery.HandsOn | packages/agent/src/agent-loop.ts:204-229 | a turn that goes on hands to the next one what the mode takes from the steering queue if that is not empty, else nothing after a reply with calls, else what the mode takes from the follow-up queue; nothing else leaves the queues |
| AgentDelivery.EntersNext | packages/agent/src/agent-loop.ts:176-195 | the next turn begins with those messages, and the provider is called with the conversation they complete, unless the transcript is refused |
| AgentDelivery.EndsEmpty | packages/agent/src/agent-loop.ts:198-235 | no follow-up is forgotten: every run that has ended was refused, or its last reply failed, or its history ends with a reply without calls and two polls that found both queues empty, steering first, and the follow-up queue is empty |
| SessionProofs.SessionConservation | packages/agent/src/agent.ts:402-464 | over any session of prompts, continues and queueing: every queued message entered once, first come first, or is still queued; the Agent is idle between commands, with the messages of all its runs |
| AgentDelivery.ContinueExactly | packages/agent/src/agent.ts:438-464 | `continue` throws and changes nothing exactly when the Agent is streaming, has no messages, or ends in a reply with both queues empty; after a reply the run opens with a prefix of the steering queue if that is not empty, and only else with one of the follow-up queue, and then a steering poll that finds nothing; in all other cases it runs without prompts. The first provider call, unless refused, is on the conversation with exactly these messages and what that poll found |
| AgentDelivery.PromptExactly | packages/agent/src/agent.ts:402-433 | `prompt` throws and changes nothing exactly when the Agent is streaming; otherwise its messages are the first of the run, which opens with a steering poll, and the first provider call, unless refused, is on the conversation, the prompts and what the poll found |
| AgentDelivery.AgentAfterRun | packages/agent/src/agent.ts:519-620 | after a run the Agent is idle, has the messages it had and those the run completed, and the error of the last turn of that run that reported one |
| SessionProofs.TranscriptFate | packages/agent/src/agent.ts:402-464 | the Agent's messages stay paired exactly as long as no run was refused; afterwards every run is |
| AgentObject.Agent.constructor | packages/agent/src/agent.ts:116-174 | a new Agent is idle, with empty queues |
| AgentObject.Agent.Steer | packages/agent/src/agent.ts:317-319 | the message is appended to the steering queue |
| AgentObject.Agent.QueueFollowUp | packages/agent/src/agent.ts:325-327 | the message is appended to the follow-up queue |
| AgentObject.Agent.DequeueSteeringMessages | packages/agent/src/agent.ts:346-359 | by mode, the first or all messages leave the queue, in order |
| AgentObject.Agent.DequeueFollowUpMessages | packages/agent/src/agent.ts:361-374 | the same for follow-ups |
| AgentObject.Agent.ProcessLoopEvent | packages/agent/src/agent.ts:466-512 | the state after an event, field by field |
| AgentObject.Agent.StartRun | packages/agent/src/agent.ts:519-542 | a run starts on a copy of the messages, with the prompts in the context |
| AgentObject.Agent.RunAgent | packages/agent/src/agent.ts:519-620 | a run leaves the Agent with the state its events rebuild, settled, and with the queues the run left |
| AgentObject.Agent.Prompt | packages/agent/src/agent.ts:402-433 | a prompt throws while streaming and else runs to its end |
| AgentObject.Agent.Continue | packages/agent/src/agent.ts:438-464 | after a reply it runs the queued messages, steering first and without another steering poll, or throws; otherwise it runs without prompts |
| AgentObject.Run.EmitToolCallOutcome | packages/agent/src/agent-loop.ts:696-723 | tool end, then the result as a complete message, which is returned |
| AgentObject.Run.FinalizeExecutedToolCall | packages/agent/src/agent-loop.ts:643-687 | the fields the hook returns replace those of the result |
| AgentObject.Run.ExecuteToolCallsSequential | packages/agent/src/agent-loop.ts:429-467 | its events and results are those of the sequential specification |
| AgentObject.Run.ExecuteToolCallsParallel | packages/agent/src/agent-loop.ts:469-535 | its events and results are those of the parallel specification, for the scheduler run it is given |
| AgentObject.Run.ReadReply | packages/agent/src/agent-loop.ts:343-371 | the streaming loop updates the context and emits as specified, up to the first done or error event |
| AgentObject.Run.StreamAssistantResponse | packages/agent/src/agent-loop.ts:275-410 | a refused transcript emits the error and leaves the context; otherwise the reply is in the context |
| AgentObject.Run.TakeTurn | packages/agent/src/agent-loop.ts:176-221 | one pass through the inner loop is one turn of the specification, up to the follow-up poll |
| AgentObject.Run.RunLoop | packages/agent/src/agent-loop.ts:159-236 | the nested loops compute the run of the specification for the whole script |
| Text.NormalizeExact | packages/agent/src/context-engine.ts:39-41 | normalizing identifies exactly the texts with the same lines, and is idempotent |
| ValueGraph.CycleExact | packages/agent/src/context-engine.ts:43-72 | with an empty `seen`, unfolding fails exactly when a cycle can be reached, however objects are shared |
| ValueGraph.UnfoldExact | packages/agent/src/context-engine.ts:56-68 | with any `seen`, it fails exactly when some path ends in an object of `seen` or one it has passed |
| ValueGraph.UnfoldMirrors | packages/agent/src/context-engine.ts:43-72 | the tree a value unfolds to is the value followed through every reference, item by item and field by field |
| Canonicalizers.Canonicalizer.Canonicalize | packages/agent/src/context-engine.ts:43-72 | returns the canonical form of the unfolded tree or throws, terminates, and without an error leaves `seen` as it found it |
| Canonicalizers.ToCanonical | packages/agent/src/context-engine.ts:74-77 | throws exactly when a cycle can be reached |
| Canonicalizers.VisitedInOrder | packages/agent/src/context-engine.ts:61-67 | visiting the keys in order and dropping undefined values gives the canonical object |
| Canonicalizers.CanonicalizeToolSchema | packages/agent/src/context-engine.ts:79-96 | the loops over items and sorted keys compute the canonical schema |
| FieldProofs.NormalExact | packages/agent/src/context-engine.ts:61-69 | canonical field lists are equal exactly when the objects hold the same value for every key |
| CanonicalShape.CanonTidy | packages/agent/src/context-engine.ts:43-72 | in a canonical value the keys ascend at every level, nothing is undefined, and with normalized text no string value holds a carriage return |
| CanonicalShape.CanonExact | packages/agent/src/context-engine.ts:43-72 | two values have the same canonical form if and only if they are equal up to the order of keys, undefined fields, undefined items against null, and newline style where text is normalized |
| CanonicalProofs.Pipeline | packages/agent/src/context-engine.ts:79-148 | canonicalizing the schema and then the context is one pass, with newlines normalized or not |
| CanonicalProofs.FusedExact | packages/agent/src/context-engine.ts:79-96 | two schemas have the same form if and only if they are equal up to key order, newline style, undefined fields, and required names that pair up once sorted, or, for the form that tools are sorted by, are the same names |
| CanonicalProofs.PlainlySame | packages/agent/src/context-engine.ts:79-96 | the same required names pair up, names that pair up are the same in any newline style, and all three agree when no name holds a carriage return |
| CanonicalProofs.RequiredNewlinesMatter | packages/agent/src/context-engine.ts:89-90 | two schemas that differ only in the newline style of a required name have different forms |
| SchemaMeaning.MeaningKept | packages/agent/src/context-engine.ts:79-96 | a canonical schema accepts exactly the values its original accepts, if its constants are steady |
| SchemaMeaning.ConstantLost | packages/agent/src/context-engine.ts:83-85 | a constant with a carriage return no longer accepts its own value |
| SchemaConstants.ConstExactly | packages/agent/src/context-engine.ts:79-96 | a `const` keeps its meaning if and only if it holds no carriage return and no unsorted `required` list |
| SchemaConstants.EnumExactly | packages/agent/src/context-engine.ts:79-96 | an `enum` keeps its meaning if and only if that is true of all its values |
| SchemaConstants.HiddenConstant | packages/agent/src/context-engine.ts:79-96 | a whole schema can keep its meaning all the same, when another keyword admits none of the values that were lost |
| SchemaMeaning.SchemaIdempotent | packages/agent/src/context-engine.ts:79-96 | canonicalizing a schema twice is canonicalizing it once |
| CanonicalShape.SchemaCanonical | packages/agent/src/context-engine.ts:79-96 | in a canonical schema the keys ascend, `required` lists are sorted and other strings hold no carriage return; and it is the schema it was made from up to the order of keys and required names, newline style and undefined fields |
| ContextPrefix.ToolsExact | packages/agent/src/context-engine.ts:107-148 | tool fingerprints are equal if and only if the tools pair up once sorted; equal fingerprints mean the same tools in some order; lists that differ only by the order of tools, keys and required names and by newline style elsewhere always have equal fingerprints, and without carriage returns in required lists newline style does not matter there either |
| ContextPrefix.PrefixExact | packages/agent/src/context-engine.ts:145-155 | the prefix fingerprint changes exactly when the system's or the tools' does |
| ContextPrefix.SystemExact | packages/agent/src/context-engine.ts:131-152 | the system fingerprint changes exactly when the lines of the prompt do |
| ContextPrefix.CreateDiagnostics | packages/agent/src/context-engine.ts:177-203 | every reason is listed once, in order, exactly when it applies, with the matching continuity |
| ContextPrefix.ChangesExplained | packages/agent/src/context-engine.ts:182-197 | a changed prefix is reported exactly when system or tools is among the reasons |
| ContextPrefix.DiagnosticsExact | packages/agent/src/context-engine.ts:131-203 | between two requests the system is named exactly when the lines of the prompt differ, the tools exactly when they do not pair up, provider and model exactly when they differ, and the continuity is lost exactly with the last two |
| ProxyEvents.PartialMessage.Process | packages/agent/src/proxy.ts:211-340 | the message after an event, and what is returned or thrown |
| ProxyLines.SplitExact | packages/agent/src/proxy.ts:165-166 | the lines with their newlines and the rest are the text, and none holds a newline |
| ProxyLines.ChunkAdds | packages/agent/src/proxy.ts:164-166 | a chunk adds exactly the lines it completes to those before it |
| ProxyLines.Reader.HandleLine | packages/agent/src/proxy.ts:168-179 | a line without a payload changes nothing; one with a payload is parsed and processed |
| ProxyLines.Reader.ReadAll | packages/agent/src/proxy.ts:152-197 | the message and the pushed events depend only on the text that arrived before an abort, not on its chunks |
| ProxyProofs.Interleaving | packages/agent/src/proxy.ts:211-321 | however indices interleave, processing throws exactly when the events of one index alone would, and each block is what its own events make of it |
| ProxyProofs.RenderExact | packages/agent/src/proxy.ts:219-321 | the events for one index, block after block, leave the last block with all its deltas together, its signature, and for a tool call the parsed arguments, without the streaming property once it has ended |
| ProxyProofs.TerminalFields | packages/agent/src/proxy.ts:323-332 | stop reason and usage are those of the last done or error event, and the error message is that of the last error event |
| ProxyProofs.ReplayAgrees | packages/agent/src/proxy.ts:211-332 | after every event of a well-formed stream the client's message is the server's: every block, stop reason, usage and error message |
| ProxyConsumer.ConsumerTold | packages/agent/src/proxy.ts:211-332 | of a well-formed stream the consumer gets exactly one event for every server event, in order: starts and deltas as sent, the block's full text or the finished tool call at its end, and the reason at the end of the message |
| ProxyConsumer.ConsumerReceives | packages/agent/src/proxy.ts:152-197 | the same for the events pushed by the read loop once it has read the encoded events |
| ProxyConsumer.ConsumerHasText | packages/agent/src/proxy.ts:219-321 | at every moment the deltas the consumer got for an index since its block started are that block's text, or the text its arguments are parsed from |
| ProxyConsumer.ThrowsExactly | packages/agent/src/proxy.ts:211-321 | whatever the stream, processing throws exactly when a delta, or the end of a text or thinking block, comes at an index where no block was started or the last one started is of another kind; until then every event is passed on but the end of a tool call that meets no tool call |
| ProxyTools.ArgumentsExactly | packages/agent/src/proxy.ts:283-321 | whatever the parser, a tool call's arguments are parsed from all its deltas if and only if no event is for another kind of block and no delta follows an end event, or the lost deltas spell "undefined" |
| ProxyTools.AccumulatedAll | packages/agent/src/proxy.ts:293-321 | the accumulated text is the concatenation of the deltas under the same condition |
| ProxyTools.LostUndefined | packages/agent/src/proxy.ts:293-313 | the exception is real: for every delta there is a stream with a delta after an end event whose accumulated text is complete |
| ProxyTools.TextComplete | packages/agent/src/proxy.ts:219-249 | the text of a text block is the concatenation of its deltas, before and after end events |
| ProxyTools.ThinkingComplete | packages/agent/src/proxy.ts:251-281 | the same for a thinking block |
| ProxyProofs.DeltaAfterEnd | packages/agent/src/proxy.ts:293-298 | a delta after the end of its tool call is appended to the text "undefined" |
| ProxyProofs.RoundTrip | packages/agent/src/proxy.ts:152-332 | the text of encoded events is read back without an error into the message they stand for |
| ProxyProofs.ReadEncoded | packages/agent/src/proxy.ts:152-197 | the read loop ends with that message in whatever chunks the text arrives |
| ProxyCuts.PayloadExactly | packages/agent/src/proxy.ts:169-171 | a line has no payload exactly when it lacks the prefix or only white space follows it |
| ProxyCuts.NoDataIgnored | packages/agent/src/proxy.ts:168-179 | such a line changes nothing |
| ProxyCuts.CutStream | packages/agent/src/proxy.ts:156-180 | wherever the text of a stream is cut, exactly the events whose lines have arrived whole have been processed |
| ProxyCuts.AbortedStream | packages/agent/src/proxy.ts:160-197 | an abort leaves the blocks of exactly those events, marks the message as aborted with its text, and pushes one error with that reason |
| ProxyCuts.MalformedLine | packages/agent/src/proxy.ts:172-197 | a line that is not JSON leaves the blocks of the events before it, marks the message as failed with the parser's message, pushes one error, and nothing after it is read |
| ProxyCuts.ReadAborted | packages/agent/src/proxy.ts:152-197 | the read loop does so for every cut into chunks and every read that finds the signal aborted |

## Left out

- Exceptions that escape the provider stream, an `afterToolCall` hook or a listener: the catch block of `_runLoop`, and the runs it ends. The contract of `StreamFn` forbids the first.
- `transformContext` and a custom `convertToLlm`: the context is converted by the default filter.
- `clearSteeringQueue`, `clearFollowUpQueue`, `reset`, `replaceMessages`, `appendMessage` and changes of mode or tools during a run.
- The ids listed in a transcript error's text, the message index, and the names the two validators report under.
- Timestamps, token usage, model and cost fields, `details` of tool results, image content, and the diagnostics carried by `context_cache` events.
- An Agent's `prompt` with a string: it is a prompt with one user message.
- SchedulerObject.DeterministicParallelScheduler.constructor: an explicitly undefined limit counts as one that is not given, while the source lets it override the default; limits are integers.
- SchemaMeaning.MeaningKept: gives one direction for whole schemas, as `SchemaConstants.HiddenConstant` shows that other keywords can make up for a lost constant; for a single constant both directions hold.
- AgentObject.Run.RunLoop: stops where the script of the world is used up; a run that never ends has no script that covers it.
- AgentObject.Run.ExecuteToolCallsParallel: takes the final state of a scheduler run as given instead of interleaving with it; every reachable final state is allowed.
- Progress reports of a tool (`tool_execution_update`): in sequential mode they come before the outcome, in parallel mode between the two passes, which is where the source waits for them.
- `startedAt` and `finishedAt` of scheduler results.
- Keys that are array indices, which JavaScript enumerates first, and the key `__proto__`; numbers without a JSON text count as null.
- `dynamicPrompt`, byte lengths, and the provider context handed on by `buildCacheStableContext`.
- Cycles through arrays alone, on which `canonicalize` does not terminate: `ValueGraph.HeapOk` excludes them.
- The `fetch` request, its error responses, UTF-8 decoding, and aliasing of the partial message in pushed events.
- The public stream wrappers `agentLoop` and `agentLoopContinue`, and `EventStream`.
