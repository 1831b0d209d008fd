# Clogger: a verified model of its pipeline

Clogger moves log messages from inputs through filters to outputs. Every node of a pipeline is a
goroutine with an input channel of ten batches; an output collects messages in a buffer, flushes
it when it is full or old enough, retries with exponential back-off, and diverts to a buffer
output while its destination is down. This project models that machinery and proves what it
promises.

The model has three cores.

**The life of a pipeline** (`Topology`, `Lifecycle*`, `OutputRuns`, `Overflow`, `FailedInit`,
`Pipelines`, `Filters`, `Ownership*`, `BatchStore`, `MessagePool`, `Sums`). A running pipeline is a transition
system. A node waits, fans a batch out to its links one by one, or has exited; a send blocks on a
full channel and panics on a closed one; a node that exits calls `handleClose`, which panics if it closes a channel twice; an output panics on a batch
that its buffer cannot take. Inputs may emit anything, tickers may tick at any time, filters are
arbitrary deterministic functions of everything they have seen, and outputs rely on no more than
the contract `Honest`, which the real sender is proved to meet. For every well-formed pipeline:
no run panics; in every reachable state in which anything is in flight some node can take a step;
after the inputs are told to stop the steps of a run that do something are bounded by a potential
that weighs batches and messages by what is downstream of them, and as long as not everything has
exited and drained there is such a step; all links of a node carry the same batches; and along a
path through any number of filters the settled, buffered and in-flight messages are at every
moment exactly the filtered image of what the input emitted.

`Lifecycle` speaks of the messages. `Ownership` is the same pipeline over batches that are
objects: channels, hands, sender buffers and the pool hold identities, the messages are in a
store, filters rewrite them in place, nodes send clones, which may have to wait in their hands, and
outputs put batches back into the pool, which hands them out again. It is proved that in every run every batch is in one place at
most, that none is put back twice, and that what one sees through the identities is a run of
`Lifecycle`, so that everything proved there holds of the messages in the batches.
`OwnershipAccount` counts: how many batches were taken from the pool and put back follows at every
moment from what the nodes have produced and received. `MessagePool`
has the pool in the form the program gives it, over arrays; each of its methods does to the store
what the function does that `Ownership` uses.

`LifecycleSteps` says exactly when each step is possible, and what an input does over whole runs.
`OutputRuns` shows that the sender of an output in a running pipeline goes through its event loop,
on its ticks and the batches that it receives.

`Pipelines` holds the imperative `NewPipeline` and `handleClose`, `Filters` the in-place
compaction loop. `ConfiguredPipelines` shows which configurations give well-formed pipelines.

**The sender** (`SenderModel`, `SenderLaws`, `SenderExact`, `Outputs`). `SenderModel` gives the value of a sender
and the meaning of each of its operations, with logs of every call of the outputter and every
settlement of the buffer (acknowledged, forwarded or dropped). The outputter's results and the
clock readings are arbitrary. Class `Outputs.Sender` has the fields and loops of the program, and
each method is proved to do what the function of the same name says. `SenderLaws` proves
conservation, settlement exactly once, the retry schedule, throttling in a long failure, and that
chunking does not depend on how messages arrive. `SenderExact` says field by field, and in plain
numbers, what a flush and a turn of the event loop leave behind.

**The rate limiter** (`RateLimit`, `RateLimitBursts`, `RateLimitFilters`). Token buckets with integer arithmetic,
one for each key, with the two clock readings that a use of a bucket makes kept apart.

`Config` models the edge walk that turns a configuration into a pipeline, and `ConfigExact` says
which configurations it accepts and what graph they give.

A pipeline is well shaped (`Lifecycle.WellShaped`) when its links have no cycle (witnessed by a
numbering of the nodes), normal links go from inputs or filters to filters or outputs and buffer
links from outputs to outputs, an output has at most one buffer, no node sends batches larger than
its targets can take, and every output runs a sender that meets its contract. It is safe
(`Lifecycle.Safe`) when in addition no node would close a channel twice: where a node has two
links to the same target, and everything that leads to the target comes from inputs, some other
source of that target is downstream of the node. It is well formed (`Lifecycle.WellFormed`) when
also every filter and output has a source; that nothing panics, how messages flow and who owns the
batches does not depend on this. What is said about the messages asks in addition that no node
has two links to the same target (`SingleLinks`). An input's `Init` succeeds, and each node calls
`handleClose` once. The program checks none of the conditions on the graph and on sizes.
`LifecycleLimits` shows what those on the graph are worth: a well-shaped pipeline can panic if and
only if the condition on double closing fails, and one that is safe can be shut down if and only if
every filter and output has a source. `Overflow` shows what the sizes are worth, and `FailedInit`
when a failed `Init` is fatal.

Four things that one might expect of the code do not hold of it, and are stated as they are:

* *That an input that fails to start does no harm.* `Run` calls `handleClose` for it and starts it
  all the same. The pipeline can then panic, over a send on a closed channel, exactly when the input
  has a link (`FailedInit.FailedInitPanicsIffLinked`), as every input of an accepted
  configuration has (`ConfiguredPipelines.AnyFailedInitCanPanic`).
* *Batches larger than an output's buffer.* The loop in `QueueMessages` compares the free room
  with the length of the whole batch, which never shrinks. A batch crashes the sender exactly when
  it is longer than the buffer's capacity (`Outputs.Sender.QueueMessages`). Where inputs feed
  outputs and these their buffer outputs, a pipeline can therefore panic exactly when some node is
  set to larger batches than one that it sends to (`Overflow.PanicsIffUnfitting`). Comparing with
  what remains would accept every batch (`SenderLaws.QueueRemainingConserves`).
* *The window bound of the rate limiter.* One would expect that between two calls `t` microseconds
  apart no more than `rate + rate*t/10^6 + 1` messages pass. With clock readings in nanoseconds
  that holds for every pattern of calls exactly when the rate divides a million
  (`RateLimit.PlusOneIffDivisor`); it also holds whenever the readings are whole microseconds. The
  bound that always holds counts one more microsecond and rounds up (`RateLimit.WindowBound`).
* *One role for each node.* `ToPipeline` can make one node an input and an output, because some
  type names (tcp, unix) are registered for both (`Config.TwoRolesForOneNode`);
  `Config.OneRoleEach` says exactly when. Exactly then an output has a normal link, over which
  `Run` panics at once (`Config.BadLinkIffTwoRoles`).

## Model

| member | source | states |
|---|---|---|
| LifecycleSafety.NeverPanics | internal/pipeline/pipeline.go:86-282 | No run of a pipeline that is well shaped and closes no channel twice, of any length, sends on a closed channel, closes a channel twice or overflows an output's buffer. |
| LifecycleSafety.StepControl | internal/pipeline/pipeline.go:124-282 | Every single step from a controlled state leads to a controlled state or blocks: closed channels, exited nodes and bounded queues agree with one another. |
| LifecycleSafety.ClosedExactlyWhenSourcesExited | internal/pipeline/pipeline.go:86-113 | In every reachable state a channel is closed if and only if its node has sources and all of them have exited; an exited node has drained its channel and buffer; no channel holds more than ten batches. |
| LifecycleSafety.ExitClosesChannels | internal/pipeline/pipeline.go:86-113 | Leaving does to the channels exactly what the worklist of `handleClose` does, and panics in exactly the same cases. |
| LifecycleSafety.ExitCloses | internal/pipeline/pipeline.go:95-110 | A channel is closed after an exit if and only if it has sources and all have exited by then: it loses its last source exactly when that source closes it. |
| LifecycleSafety.ExitClean | internal/pipeline/pipeline.go:86-113 | A node closes no channel twice when it exits, even where it has two links to the same target: nodes exit in the order of the links. |
| LifecycleSafety.TargetOpen | internal/pipeline/pipeline.go:182-190 | Whatever a live node can send to exists and is open. |
| LifecycleSteps.PossibleExactly | internal/pipeline/pipeline.go:124-249 | In every reachable state, which steps of a node are possible: a waiting input emits whatever it is given, others take what is in their channel and stop when it is closed and empty, outputs that wait take ticks, and a send goes through exactly when fewer than ten batches wait at the target. |
| LifecycleSteps.LeavesExactly | internal/pipeline/pipeline.go:240-247 | After its fan-out, or when `GetBatch` gives nothing, a node leaves exactly if it was told to stop or this was its last batch; otherwise it waits again and nothing changes. |
| LifecycleSteps.ProducedIsEmitted | internal/pipeline/pipeline.go:216-238 | In any run an input produces exactly the batches that `GetBatch` gave it, unchanged and in order; it knows that it was told to stop exactly if it was, and does not exit otherwise. |
| LifecycleSteps.AtMostOneMore | internal/pipeline/pipeline.go:216-247 | An input that has been told to stop emits at most one more batch, and none if it is busy with one. |
| LifecycleProgress.DeadlockFree | internal/pipeline/pipeline.go:129-248 | In every reachable state some receive, send, finish or stop step is enabled, unless nothing is in flight and whatever is left waits for an input. |
| LifecycleProgress.NobodySends | internal/pipeline/pipeline.go:182-188 | In a state without such a step nobody is blocked on a send: the highest blocked sender leads to a contradiction. |
| LifecycleProgress.SomebodyAwaitsInput | internal/pipeline/pipeline.go:161-190 | In such a state, if any node is left, an input is waiting: the lowest live node cannot be anything else, since its channel would be closed. |
| LifecycleProgress.StuckAfterKillIsOver | internal/pipeline/pipeline.go:265-281 | When all inputs have been told to stop and nothing can go on, every node has exited and every channel and buffer is drained. |
| LifecycleDraining.StepLowersPotential | internal/pipeline/pipeline.go:149-193 | Every step that does something lowers the potential of the pipeline, through filter fan-out and forwarding to buffer outputs. |
| LifecycleDraining.ForwardCost | internal/outputs/sender.go:101-105 | Forwarding a block of any size costs less than its messages paid for while they were buffered, along any chain of buffer outputs. |
| LifecycleDraining.EffectiveStepsAreBounded | internal/pipeline/pipeline.go:149-193 | When all inputs have been told to stop, the steps that do something in any run, with any idle ticks between them, are no more than the potential of the state in which it starts. |
| LifecycleDraining.DrainingTerminates | internal/pipeline/pipeline.go:265-281 | After the inputs are told to stop, the effective steps of every run, idle ticks or not, are bounded, and until everything has exited and drained some effective step is enabled. |
| LifecycleFlow.StepFlow | internal/pipeline/pipeline.go:161-188 | Every step keeps the flow: each link has carried exactly what its source produced, each filter sent on the image of what it received, each output settled or buffered what it received. |
| LifecycleFlow.FanOutAgreement | internal/pipeline/pipeline.go:180-188 | Every link of a node has carried the same batches in the same order, up to the batch that the node is sending now, and lacks that one exactly if its turn has not come. |
| LifecycleFlow.EndToEnd | internal/pipeline/pipeline.go:161-244 | Along any path through filters to an output, settled, buffered and in-flight messages are in this order the filters' image of what the input emitted, in every reachable state; after shutdown the settled ones alone are. |
| LifecycleFlow.EveryLinkDelivers | internal/pipeline/pipeline.go:230-238 | In any graph, when the pipeline is over, every link has delivered everything that its source produced, in order and once. |
| LifecycleFlow.OutputsAccountForEverything | internal/outputs/sender.go:93-108 | In every reachable state an output's settled messages and buffer are what it received, what it sent to its buffer channel is what it settled by forwarding, and nothing is left unsettled at the end. |
| LifecycleFlow.BuffersTakeOver | internal/outputs/sender.go:101-103 | Along a chain of buffer outputs, what each has settled, buffered and on its way to it is in every reachable state exactly what the one before has forwarded; after shutdown what it has settled alone is. |
| OutputRuns.TickFlushesIfDue | internal/outputs/sender.go:159-166 | A tick of a waiting output settles the whole buffer, and starts forwarding it if that is what became of it, exactly if there is something in it and the interval has passed or there is a full batch; otherwise, and for all other nodes, everything stays as it was. |
| OutputRuns.TickChangesIfDue | internal/outputs/interfaces.go:118-119 | Buffer, settlements, calls of the outputter or phase change in a tick if and only if a flush is due. |
| OutputRuns.SenderRunsItsLoop | internal/outputs/interfaces.go:111-130 | In every reachable state the sender of an output is what its event loop makes of the ticks and the batches that the output took, in their order, and, once its channel was found closed, of the final flush. |
| LifecycleLimits.CanShutDownIffSourced | internal/pipeline/pipeline.go:86-113 | A pipeline that is otherwise in order can be shut down completely if and only if every filter and output has a source. |
| LifecycleLimits.SourcelessNeverExits | internal/pipeline/pipeline.go:161-190 | In no run whatsoever does a filter or output without a source exit. |
| LifecycleLimits.PanicsIffDoubleClosing | internal/pipeline/pipeline.go:86-113 | A well-shaped pipeline has a run that panics if and only if some node has two links to the same target, everything that leads to the target comes from inputs, and no other source of the target is downstream of the node. |
| LifecycleLimits.DoubledLinkPanics | internal/pipeline/pipeline.go:95-110 | For every such pair of links, stopping the idle pipeline in a suitable order closes a channel twice, whether or not all other nodes have sources. |
| Overflow.PanicsIffUnfitting | internal/outputs/sender.go:65-70 | Where every input feeds one output, and an output that has a buffer output is fed by an input, some run panics, for some results of the outputters and some clocks, if and only if some node sends larger batches than its target can take. |
| Overflow.InputOverflows | internal/pipeline/pipeline.go:195-228 | Whatever the rest of the pipeline is, an input that returns a batch longer than the buffer of an output that it feeds makes that output panic, whatever other nodes it also sends to. |
| Overflow.BufferOverflows | internal/outputs/sender.go:101-103 | An output that an input feeds, that is down, and whose buffer is larger than that of its buffer output, fills up message by message and then makes the buffer output panic over the block that it forwards. |
| FailedInit.FailedInitPanicsIffLinked | internal/pipeline/pipeline.go:199-206 | After the failed `Init` of an input, a well-formed pipeline has a run that panics if and only if that input has a link. |
| FailedInit.PanicsWithLinks | internal/pipeline/pipeline.go:199-239 | If it has links: when all other nodes have stopped, its next batch, whatever it is, goes to a closed channel, whatever else the pipeline contains. |
| FailedInit.HarmlessWithoutLinks | internal/pipeline/pipeline.go:199-206 | If it has none: in whatever reachable state its `Init` fails, no run from there panics. |
| Pipelines.Pipeline.constructor | internal/pipeline/pipeline.go:59-84 | The reversed links are the transpose of the links, with multiplicity and type, in whatever order the map is visited. |
| Pipelines.SourcesByReversedLinks | internal/pipeline/pipeline.go:101-105 | The nodes named by the reversed links of a node are exactly its sources. |
| Pipelines.Pipeline.CloseTargets | internal/pipeline/pipeline.go:95-111 | One round of the worklist closes exactly the live targets whose sources have all exited, and panics exactly if one of them is closed already or linked twice. |
| Pipelines.Pipeline.HandleClose | internal/pipeline/pipeline.go:86-113 | The whole worklist closes no more than that one layer, takes at most one plus the out-degree of the node off its list, and panics exactly if that layer would close a channel twice. |
| Pipelines.NothingToClose | internal/pipeline/pipeline.go:95-105 | A node that has not called `handleClose` keeps its own targets open, so a later round on it closes nothing. |
| Pipelines.ClosesExactly | internal/pipeline/pipeline.go:95-110 | Link by link: the channels closed are those of the targets that have not called `handleClose` while everybody who links to them has, and there is a panic exactly if one of these channels is closed already or linked twice. |
| Filters.FilterNode.CompactOne | internal/pipeline/pipeline.go:163-173 | One turn of the compaction loop writes only over a message that has been read. |
| Filters.FilterNode.CompactInPlace | internal/pipeline/pipeline.go:161-178 | The write-while-ranging loop leaves exactly the kept, rewritten messages in order at the front of the batch and changes nothing behind them, for any filter with any state. |
| Filters.ImageOfBatches | internal/pipeline/pipeline.go:161-178 | How a stream is divided into batches does not matter to what a filter makes of it. |
| Filters.ImageOneMore | internal/pipeline/pipeline.go:163-173 | A message that the filter says to drop does not go on; any other goes on as the filter rewrote it, behind those kept before. |
| Filters.KeptOneMore | internal/pipeline/pipeline.go:163-173 | The same of the messages of one batch, with what the filter has seen before it. |
| OwnershipLaws.MoveAgrees | internal/pipeline/pipeline.go:161-188 | Every step over batch objects, whatever the pool hands out, blocks, panics or succeeds exactly when `Lifecycle` says so, and shows the messages that `Lifecycle` says; every batch stays in one place at most. |
| OwnershipLaws.RunsAgree | internal/pipeline/pipeline.go:124-249 | Every run over batch objects is, seen through the identities, the run of `Lifecycle` with the same steps. |
| OwnershipLaws.EveryBatchInOnePlace | internal/clogger/messages.go:37-73 | In every reachable state all batches in the pool, in channels, in the hands of nodes, clones that wait to be sent included, and in sender buffers are different objects. |
| OwnershipLaws.NeverPutBackTwice | internal/outputs/sender.go:75-75 | In no run is a batch put back into the pool a second time without having been taken from it in between. |
| OwnershipNodes.FilterMatches | internal/pipeline/pipeline.go:161-178 | A filter that rewrites its batch in place does what the pure filter does to the messages, and changes no batch in other hands. |
| OwnershipNodes.OutputMatches | internal/outputs/sender.go:49-78 | An output that queues a batch does to its buffer what the sender does to the messages: a block that it forwards is a clone of the filled buffer, which waits in its hands together with the batch; the tail of the batch is appended, and the batch put back once, when the forwarding is done. |
| OwnershipNodes.ShareMatches | internal/pipeline/pipeline.go:180-188 | The fan-out over clones sends what the fan-out of messages sends, each clone made before its send and waiting in the node's hands until the channel has room; the batch in hand, the clones and everything held elsewhere stay apart. |
| OwnershipNodes.PutBufferMatches | internal/outputs/sender.go:198-201 | An output that leaves may put its empty buffer back, or keep it, without any other batch changing or being in two places. |
| OwnershipAccount.PoolAccount | internal/clogger/messages.go:37-73 | In every reachable state, whatever the pool hands out: the batches taken from it are those that inputs emitted, outputs forwarded and fan-outs need (one for the first link, two for each further, none for rewriting in place); those put back are the batches that outputs received and the buffers that they gave up; what is going on is counted exactly. |
| OwnershipAccount.EverythingPutBack | internal/outputs/sender.go:75-75 | When everybody has exited, every batch that an output ever received has been put back, and besides these only buffers given up. |
| OwnershipAccount.BufferStays | internal/outputs/sender.go:32-45 | An output keeps the buffer with which it started, whatever it forwards and puts back, until it gives it up. |
| OwnershipAccount.BufferGivenUp | internal/outputs/sender.go:198-201 | An output that leaves puts its buffer back exactly if its final flush does not keep it. |
| OwnershipAccount.PrepareClones | internal/pipeline/pipeline.go:182-187 | For the first link a node keeps its batch in hand, for every further one it has a clone instead, and what waits to be sent is another clone; nobody else holds them. |
| OwnershipAccount.FilterKeepsBatch | internal/pipeline/pipeline.go:161-178 | The batch that a filter shares is the one that it received, rewritten in place. |
| BatchStore.FillHandled | internal/clogger/messages.go:37-69 | A batch from the pool, filled, is one that nobody held, and no other batch changes. |
| BatchStore.PutAtMostOnce | internal/clogger/messages.go:71-73 | If nothing was ever put into the pool that was in it, then between two times that a batch is put back it is taken out. |
| BatchStore.GetTakesOne | internal/clogger/messages.go:37-45 | The pool hands out the chosen free batch, which is free no longer, or a new one, and changes no message. |
| BatchStore.ShareTakes | internal/pipeline/pipeline.go:182-187 | A turn of the fan-out takes two batches from the pool, and one for the first link. |
| MessagePool.BatchPool.Take | internal/clogger/messages.go:37-45 | What the pool hands out is the batch that the store hands out, and is not held by anybody else, whichever free batch it chooses. |
| MessagePool.BatchPool.GetMessageBatch | internal/clogger/messages.go:37-53 | The result is an empty batch of at least the wanted capacity with an array of its own; no batch that is in use changes. |
| MessagePool.BatchPool.CloneBatch | internal/clogger/messages.go:62-69 | The clone has the same messages in another array; no batch that is in use changes. |
| MessagePool.BatchPool.PutMessageBatch | internal/clogger/messages.go:71-73 | A batch in use becomes free and nothing else changes, as in the store. (That the outputs of a running pipeline put back only what is in use is `NeverPutBackTwice` and `EveryBatchInOnePlace`.) |
| MessagePool.BatchPool.SendOne | internal/pipeline/pipeline.go:182-187 | One turn of the fan-out loop over arrays is the turn over the store: a clone in hand from the second link on, and another clone to send. |
| MessagePool.BatchPool.FanOut | internal/pipeline/pipeline.go:180-188 | What a node sends to its links are pairwise different batches with the same messages that nobody else holds, and it takes 2n - 1 batches from the pool for n links. |
| MessagePool.BatchPool.FilterBatch | internal/pipeline/pipeline.go:161-178 | Compacting one batch in place rewrites that batch in the store and leaves every other batch in use as it was, so it cannot disturb a sibling. |
| SenderModel.DeliveryOutcome | internal/outputs/sender.go:112-196 | The first result among the allowed calls that is not a transient failure decides; there are exactly that many calls, all with the whole buffer, sleeping 100(2^k - 1) ms before call k; a fall-through diverts once. |
| SenderModel.RetryOutcome | internal/outputs/sender.go:112-146 | The retry loop settles the buffer if and only if a decisive result comes within the remaining tries, and otherwise leaves it to its caller. |
| SenderModel.SleepTotalClosedForm | internal/outputs/sender.go:119-136 | k sleeps that double add up to (2^k - 1) times the first. |
| SenderLaws.FlushOutcome | internal/outputs/sender.go:149-202 | A flush that passes its gate on a non-empty buffer settles the whole buffer exactly once, never forwards twice, and ends in success or long failure only; any other flush changes nothing. |
| SenderLaws.CallsUnlessThrottled | internal/outputs/sender.go:159-174 | A flush settles something if and only if its gate is open and the buffer is not empty, and then calls the outputter if and only if it is not in a long failure whose last attempt is less than 30 s old. |
| SenderExact.DeliverExact | internal/outputs/sender.go:112-196 | Every field of a sender after a delivery, without the loop: result, calls, sleep of 100(2^(calls-1) - 1) ms, clock readings, settlement. |
| SenderExact.FlushExact | internal/outputs/sender.go:149-202 | Every field of a sender after any flush: untouched if the interval has not passed, no batch is full and it is not final, or the buffer is empty; diverted without a call if the output failed for long and was tried less than 30 s ago; delivered in all other cases. |
| SenderExact.FiveTransientFailures | internal/outputs/sender.go:112-146 | Five tries that all fail transiently are five calls and 1500 ms of sleep; then the buffer is diverted or dropped. |
| SenderExact.ThrottledMeans | internal/outputs/sender.go:166-174 | A final flush is throttled if and only if it settles the buffer without a call. |
| SenderExact.TickSettlesIfDue | internal/outputs/interfaces.go:118-119 | After any events, a tick in the event loop settles the whole buffer at once if something is in it and the interval has passed or a batch is full; otherwise nothing changes. |
| SenderExact.ArrivalSettlesIfFull | internal/outputs/sender.go:61-77 | After any events, a batch that fits behind the buffer waits there and nothing else happens; otherwise exactly the full buffer is settled and the rest waits. |
| SenderExact.FirstTick | internal/outputs/sender.go:32-45 | The flush interval counts from the creation of the sender, and its first due tick calls the outputter. |
| SenderLaws.QueueOutcome | internal/outputs/sender.go:49-78 | Queueing a batch that fits appends it, and if it overfills the buffer first settles one block of exactly the capacity: the loop runs at most once and its flush always passes the gate. |
| SenderLaws.SenderIsHonest | internal/outputs/sender.go:49-202 | The sender meets the contract on which the whole pipeline relies, for every configuration, outputter and clock. |
| SenderLaws.Conservation | internal/outputs/sender.go:49-202 | After any sequence of ticks and batches the settled messages followed by the buffer are exactly the messages queued, in order. |
| SenderLaws.ShutdownSettlesAll | internal/outputs/interfaces.go:128-128 | The final flush leaves the buffer empty: everything queued is settled, once, in order. |
| SenderLaws.LongFailureThrottled | internal/outputs/sender.go:166-196 | Of consecutive failed deliveries in any run, its final flush included, n of them span at least 30 s times (n - 1) and make at most n times the allowed number of calls, however many ticks and batches arrive. |
| SenderLaws.ChunkingInvariance | internal/outputs/sender.go:61-77 | Without ticks what is settled is the division of the messages into blocks of the capacity, independent of how they were batched, of the results and of the clock. |
| SenderLaws.BlocksAt | internal/outputs/sender.go:65-71 | Block k holds messages k*C to (k+1)*C - 1. |
| SenderLaws.BlocksCount | internal/outputs/sender.go:65-71 | N messages make floor((N - 1)/C) blocks and leave 1 to C messages buffered. |
| SenderLaws.QueueRemainingAgrees | internal/outputs/sender.go:65-71 | A loop guard on what remains of the batch would change nothing for a batch that fits. |
| SenderLaws.QueueRemainingConserves | internal/outputs/sender.go:65-71 | With that guard the loop would end, and keep every message, for a batch of any length. |
| Outputs.Sender.constructor | internal/outputs/sender.go:32-45 | A new sender is in the initial state of the model. |
| Outputs.Sender.QueueMessages | internal/outputs/sender.go:49-78 | The chunk loop, over arrays and slices, does what the model says for a batch that fits, and panics if and only if the batch is longer than the buffer. |
| Outputs.Sender.Append | internal/outputs/sender.go:77-77 | Appending within the capacity extends the buffer in place. |
| Outputs.Sender.HandleLongFailure | internal/outputs/sender.go:93-108 | The buffer is diverted or dropped once and emptied; what was sent to the buffer channel is what the log says was forwarded. |
| Outputs.Sender.DoExponentialRetry | internal/outputs/sender.go:112-146 | The retry loop equals the recursive definition for any results. |
| Outputs.Sender.FlushBuffer | internal/outputs/sender.go:166-196 | A buffer that passed the gate is delivered, or diverted at once if the last attempt in a long failure is less than 30 s old. |
| Outputs.Sender.Flush | internal/outputs/sender.go:149-202 | The flush equals its definition: gate, throttle, call, retry, diversion. The buffer is put back and nil afterwards if and only if the flush is final and not throttled. |
| Outputs.StartOutputter | internal/outputs/interfaces.go:111-130 | The event loop panics if and only if some batch does not fit; otherwise, after the final flush, the settled messages are exactly those queued, the buffer is empty, and it has been put back exactly if the final flush was not throttled. |
| RateLimit.UseValid | internal/filters/ratelimit_filter.go:22-50 | A use keeps the bucket between none and `rate` tokens, and its last check never runs ahead of the clock. |
| RateLimit.ServeValid | internal/filters/ratelimit_filter.go:22-50 | So does any sequence of uses. |
| RateLimit.TotalBound | internal/filters/ratelimit_filter.go:22-50 | From the last check of a bucket on, no more messages pass than it had tokens and the time since is worth, in spite of truncation and of time lost between two clock readings. |
| RateLimit.BoundFromCreation | internal/filters/ratelimit_filter.go:22-64 | From the creation of a bucket on, no more than rate + floor(rate*t/10^6) messages pass. |
| RateLimit.WindowBound | internal/filters/ratelimit_filter.go:22-50 | In any window of t whole microseconds at most rate + ceil(rate*(t + 1)/10^6) messages pass, whatever came before it. |
| RateLimit.PlusOneForWholeMicros | internal/filters/ratelimit_filter.go:26-27 | If the clock shows whole microseconds, at most rate + floor(rate*t/10^6) + 1 messages pass in any window. |
| RateLimit.PlusOneFailsForOthers | internal/filters/ratelimit_filter.go:26-35 | For every rate that does not divide a million there is a pattern of calls that passes more than that. |
| RateLimit.PlusOneIffDivisor | internal/filters/ratelimit_filter.go:22-50 | That bound holds of every bucket and every pattern of calls if and only if the rate divides a million. |
| RateLimit.TokensLetPass | internal/filters/ratelimit_filter.go:40-50 | As many messages as a bucket has tokens all pass, whenever they come. |
| RateLimit.UnhurriedPass | internal/filters/ratelimit_filter.go:22-50 | Messages that each come a token's worth of time after the one before all pass, in spite of the lost remainders, even if the bucket starts empty. |
| RateLimitBursts.UseExact | internal/filters/ratelimit_filter.go:22-50 | One use in plain numbers: what the whole microseconds since the last check are worth is added up to the rate, one token is taken if there is one, and the last check moves, to the second clock reading, only if tokens were added. |
| RateLimitBursts.BurstExact | internal/filters/ratelimit_filter.go:22-50 | Of a burst exactly the first min(rate, tokens + elapsed microseconds * rate / 10^6) messages pass: tokens accumulate. |
| RateLimitBursts.EmptiedAndRefilled | internal/filters/ratelimit_filter.go:52-64 | A new bucket passes its rate at once, and then exactly what the time since its creation is worth. |
| RateLimitBursts.NewKeyBurst | internal/filters/ratelimit_filter.go:113-127 | Whatever other keys have used, the first `rate` messages of a new key pass in a burst, and no more. |
| RateLimit.Partitioned | internal/filters/ratelimit_filter.go:113-127 | The decisions on one key in any interleaving are those of a single, initially full bucket that sees only that key's calls. |
| RateLimit.WindowBoundPerKey | internal/filters/ratelimit_filter.go:113-127 | The window bound holds of every key in any interleaving of any keys. |
| RateLimit.BoundPerKey | internal/filters/ratelimit_filter.go:113-127 | So does the bound from creation, and the key's bucket is between empty and full. |
| RateLimitFilters.TokenBucket.AddNewTokens | internal/filters/ratelimit_filter.go:22-38 | The in-place update equals the bucket function: tokens capped at the rate, last check moved only if tokens were added. |
| RateLimitFilters.TokenBucket.TryConsumeTokens | internal/filters/ratelimit_filter.go:40-50 | Tokens are taken if there are enough, and otherwise nothing changes. |
| RateLimitFilters.RateLimitFilter.Filter | internal/filters/ratelimit_filter.go:113-127 | The filter over bucket objects equals the function over bucket values: no two keys share a bucket, and only the bucket of the message's key changes. |
| Config.ToPipeline | cmd/clogger/config/config.go:34-149 | The loop over the edges with its memo tables yields the graph, or the error, that the edges define one by one. |
| Config.LinksAreEdges | cmd/clogger/config/config.go:93-96 | The links of every node are its edges, in order and with the right type. |
| Config.BuildExact | cmd/clogger/config/config.go:43-146 | A configuration is accepted if and only if every edge joins nodes that can be made into what it needs; then every node has exactly the roles that its edges give it. |
| ConfigExact.AcceptedExactly | cmd/clogger/config/config.go:43-146 | A configuration is accepted if and only if both ends of every edge are present, have a type that a registry in question has, and are constructed from their attributes without error. |
| ConfigExact.RefusedNodeIsRefused | cmd/clogger/config/config.go:104-130 | A node that no constructor accepts makes the whole configuration an error wherever an edge needs it. |
| ConfigExact.RolesExactly | cmd/clogger/config/config.go:43-146 | Which nodes are inputs, filters and outputs, from their types and the edges alone. |
| ConfigExact.LinksExactly | cmd/clogger/config/config.go:55-96 | Every edge adds one link at the end of its source's links; it is a buffer link if and only if its type is "Buffer". |
| Config.LinksJoinRightKinds | cmd/clogger/config/config.go:56-145 | Buffer links go from outputs to outputs, all others from inputs or filters to filters or outputs. |
| Config.OneRoleEach | cmd/clogger/config/config.go:98-138 | Filters have no other role; inputs and outputs are disjoint if and only if no node is used as both. |
| Config.TwoRolesForOneNode | cmd/clogger/config/config.go:98-138 | A tcp node between two others is accepted as an output and an input. |
| Config.BadLinkIffTwoRoles | internal/pipeline/pipeline.go:137-146 | An accepted configuration has an output with a normal link, over which `Run` panics, if and only if some node is used as both an input and an output. |
| ConfiguredPipelines.ConfiguredIsSafe | cmd/clogger/config/config.go:34-149 | An accepted configuration with no cycle, no repeated edge, one buffer for an output at most, one role for a node and sizes that fit is a pipeline running the real senders that no run makes panic. |
| ConfiguredPipelines.ConfiguredIsWellFormed | cmd/clogger/config/config.go:34-149 | If it also has an edge to every node that is not an input, it is well formed: it can be shut down. |
| ConfiguredPipelines.AnyFailedInitCanPanic | internal/pipeline/pipeline.go:199-206 | Every input of an accepted configuration has a link, so the failed `Init` of any of them can make the pipeline panic. |
| ConfiguredPipelines.TickSettlesBuffer | internal/outputs/interfaces.go:118-119 | When there is something to flush, and the interval has passed since the last acknowledgement or there is a full batch, the next tick of an idle output settles its whole buffer, and starts forwarding it exactly if it was not accepted and there is a buffer channel; any other tick only reads the clock. |
| ConfiguredPipelines.ChainIsWellFormed | cmd/clogger/config/config.go:34-149 | There are such configurations: tcp to ratelimit to file with a file as buffer, for any filter, outputters and clocks. |

## Left out

- Oversize batches elsewhere: `Lifecycle` assumes that no node sends batches larger than its targets take, and `Outputs.Sender.QueueMessages` says for one sender when that fails.
- Overflow.PanicsIffUnfitting: speaks of pipelines without filters and of buffer outputs one link away from an output that an input feeds; what a filter lets through, and what a chain of buffer outputs diverts further, depends on more than sizes.
- LifecycleFlow.StepFlow: asks that no node has two links to the same target; the two copies of every batch that would travel otherwise are not told apart.
- LifecycleFlow.EndToEnd: states the image for paths on which each node is the only source of the next; where sources merge, the order between them is the scheduler's, and `EveryLinkDelivers` speaks of each link.
- Outputs.StartOutputter: the choice of `select` between the ticker and the channel is the given sequence of events; ticker periods are not modelled.
- FailedInit.FailedInitPanicsIffLinked: the run in which the pipeline panics starts with the failed `Init`; that it can also panic when other nodes have run before is not stated. One input fails.
- OwnershipLaws.MoveAgrees: whether a final flush keeps the buffer is left open in each step, since it depends on the clock; an output that diverts empties its buffer when the clone is made, not when it has been sent.
- MessagePool.BatchPool.CloneBatch: separates slices of messages only; clones share the maps of parsed fields, as in the program.
- RateLimit.BoundFromCreation: integers are unbounded; the int64 product of elapsed microseconds and rate is assumed not to overflow.
- RateLimit.WindowBound: clock readings of one key never run backwards, as with Go's monotonic clock.
- Data races: the `cancelled` flag, reads of the channel map and the reuse of a batch that `QueueMessages` returns to the pool before copying its tail are taken as atomic.
- The order in which `Run` starts nodes: all channels exist from the start.
- The class `Outputs.Sender` does not take its buffer from the pool; the batches around it are in `Ownership`.
- A sender's reaction to an event, with its sleeps, is one step of the pipeline; the forwarding to the buffer channel that it ends in is a separate, blocking step.
- `GetBatch` returning errors: the loop then asks again without checking whether it was told to stop; an input is assumed to return a batch or nil.
- Results of an outputter other than the three declared ones, and batch sizes below one.
- Several buffer links of one output, of which the program uses the last.
- Filters are deterministic functions of the messages they have seen; the rate limiter, which also reads a clock, is modelled by itself.
- The objects that `ToPipeline` constructs: only whether construction succeeds, and in which role.
- Sockets, TLS, journald, files, stdout, formatters, Tengo scripts, DOT parsing, subgraphs, the registries, the command line, metrics, tracing and logging.
