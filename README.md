# Liquid Projections core, modelled in Dafny

Liquid Projections is a .NET library that builds read models (projections) from an
event store. This project models and proves four of its pieces, which together form
the library's core.

- **The in-memory event log** (`EventStore`, event_store.dfy). `MemoryEventSource`
  stamps each written transaction with the next checkpoint and appends it to its
  history. It replays that history to every new subscriber, one transaction per send,
  and fans each later write out to all registered subscribers. A `Subscriber` keeps
  only the transactions at or after its start checkpoint and hands them on in batches
  of at most `batchSize`. A send to a subscriber that is already disposed hands on
  nothing. Both are classes whose methods update their fields. The invariant
  `MemoryEventSource.Valid` says that the history is strictly increasing in
  checkpoint and never ahead of the counter, that no subscriber is
  registered twice, that every subscriber has the log's batch size, and that every
  live subscriber has received exactly the history from its start checkpoint on.
- **The dispatcher's exception-resolution loop** (`Dispatching`, dispatcher.dfy).
  `Dispatcher.ExecuteWithPolicy` is the do-while loop around an action. It is proved
  against `PolicyRun`, a function of the attempts. An action is a sequence of
  `Attempt`s: what each run of the action did, and whether it threw. Everything the
  dispatcher does to the outside world is an ordered sequence of `Effect`s: attempts,
  policy consultations, handler invocations, hook runs, disposals, fatal log entries
  and subscription requests. The loop is used in two ways, both modelled: batch
  handling, where Abort disposes the subscription, and the unknown-checkpoint restart.
- **The projector walk** (`Projecting`, projector.dfy). For every event of every
  transaction, a tree of projectors is walked children-first. The walk is a pure
  function checked against a post-order reference traversal. `Handle` and
  `ProjectTransaction` are loops proved against the batch-level function
  `ProjectItems`. The first failure ends the batch and becomes an annotated projection
  error. The event maps are an oracle, `MapHandle`, that says whether a call fails
  and how.
- **The mapping-action contract** (`MapBuilding`, map_building.dfy). These are the
  create, update, delete and custom actions, with their `When` guards, as pure
  transitions on a `map<K, P>` from keys to projections. Each transition returns the
  new store or an error.

`Core` (core.dfy) holds the shared vocabulary: transactions, envelopes, `Option`,
`Result`, and the sequence helpers `Concat`, `Count` and `Range`.

## Model

| member | source | states |
|---|---|---|
| EventStore.Since | Src/LiquidProjections/InMemoryEventStore.cs:92 | the subscriber's filter: a transaction is kept exactly when it was sent and its checkpoint is at least the start checkpoint; nothing is added |
| EventStore.Chunks | Src/LiquidProjections/InMemoryEventStore.cs:92 | batching: the batches are non-empty, hold at most `batchSize` transactions each, and concatenate back to the input in order |
| EventStore.SinceAppend | Src/LiquidProjections/InMemoryEventStore.cs:92 | filtering distributes over concatenation, so filtering a write and then the history agrees with filtering the whole history |
| EventStore.SinceIncreasing | Src/LiquidProjections/InMemoryEventStore.cs:92 | filtering a strictly increasing history keeps it strictly increasing: no reordering and no duplicates |
| EventStore.Singletons | Src/LiquidProjections/InMemoryEventStore.cs:29-32 | replay batches: one single-transaction batch per transaction, in order, concatenating back to the input |
| EventStore.ReplayStep | Src/LiquidProjections/InMemoryEventStore.cs:29-32 | replaying one more history entry through the ordinary send adds at most one single-transaction batch |
| EventStore.Subscriber.constructor | Src/LiquidProjections/InMemoryEventStore.cs:79-86 | a new subscriber holds its start checkpoint and batch size, is live, and has received nothing |
| EventStore.Subscriber.Send | Src/LiquidProjections/InMemoryEventStore.cs:88-97 | a disposed subscriber receives nothing; a live one receives the chunked batches of exactly the sent transactions at or after its start checkpoint, in order, appended to what it had |
| EventStore.Subscriber.Deliver | Src/LiquidProjections/InMemoryEventStore.cs:92-95 | the handler receives the batches one after another, in order |
| EventStore.Subscriber.Dispose | Src/LiquidProjections/InMemoryEventStore.cs:99-102 | afterwards the subscriber is disposed and nothing else changes, so disposing again is harmless |
| EventStore.MemoryEventSource.constructor | Src/LiquidProjections/InMemoryEventStore.cs:16-19 | a new log has the given batch size, no subscribers, no history and a zero counter, and satisfies the invariant |
| EventStore.MemoryEventSource.Subscribe | Src/LiquidProjections/InMemoryEventStore.cs:21-37 | a missing start checkpoint means 0; the new subscriber is appended to the registrations; it has received the filtered history as single-transaction batches, in history order; the invariant is kept |
| EventStore.MemoryEventSource.Replay | Src/LiquidProjections/InMemoryEventStore.cs:27-34 | replay sends each history entry on its own, in order, so the subscriber receives the filtered history one transaction per batch |
| EventStore.MemoryEventSource.Write | Src/LiquidProjections/InMemoryEventStore.cs:58-70 | the i-th transaction gets checkpoint old counter + i + 1, so there are no gaps and no reuse; the history grows by exactly the written transactions in argument order; every live subscriber receives the chunked, filtered write; disposal flags are unchanged; the invariant is kept |
| EventStore.MemoryEventSource.Stamp | Src/LiquidProjections/InMemoryEventStore.cs:60-64 | the stamping loop: consecutive checkpoints after the old counter, the counter advances by the count, the history is appended to, and it stays strictly increasing and never ahead of the counter |
| EventStore.MemoryEventSource.Broadcast | Src/LiquidProjections/InMemoryEventStore.cs:66-69 | every registered subscriber is sent the whole written array: each live one gets its chunked filtered share, and disposed ones get nothing |
| EventStore.MemoryEventSource.WriteEvent | Src/LiquidProjections/InMemoryEventStore.cs:40-56 | writing one event yields a transaction with exactly one envelope holding that event; it gets the next checkpoint, is appended to the history, and is sent to every subscriber |
| EventStore.LiveSubscriberSeesHistory | Src/LiquidProjections/InMemoryEventStore.cs:21-70 | what any live subscriber has received concatenates to exactly the history at or after its start checkpoint, in strictly increasing checkpoint order |
| Dispatching.StopIndex | Src/LiquidProjections/Dispatcher.cs:84-112 | the attempt after which the loop stops: every earlier attempt threw and got Retry, and that attempt succeeded or got Abort or Ignore |
| Dispatching.RunShape | Src/LiquidProjections/Dispatcher.cs:80-113 | a run is the attempts up to the stopping one, each followed by its consultation when it threw, then exactly one callback; nothing of the action runs after Abort or Ignore |
| Dispatching.RunStopsAt | Src/LiquidProjections/Dispatcher.cs:84-112 | k retries followed by a stop give the first k + 1 attempts' records, then that stop's callback and resolution |
| Dispatching.RetryThenStopsAt | Src/LiquidProjections/Dispatcher.cs:102-112 | a retried attempt in front of a run that stops after k more attempts gives a run that stops after k + 1 |
| Dispatching.RunUnresolved | Src/LiquidProjections/Dispatcher.cs:84-112 | when every modelled attempt is answered with Retry, the loop records them all and has not ended |
| Dispatching.RetriesThenStop | Src/LiquidProjections/Dispatcher.cs:84-112 | k answers of Retry followed by a stop pin the stopping attempt to k |
| Dispatching.SegmentNumbers | Src/LiquidProjections/Dispatcher.cs:86-94 | one attempt records its own number once, and passes that number to the policy only when it threw |
| Dispatching.SegmentsNumbers | Src/LiquidProjections/Dispatcher.cs:82-112 | over attempts that all threw, the recorded attempt numbers and the numbers passed to the policy are both first, first + 1, … in order |
| Dispatching.RetryThenGiveUp | Src/LiquidProjections/Dispatcher.cs:82-112 | Retry k times, then Abort or Ignore: the action ran k + 1 times; the policy saw attempts 1 … k + 1 in order; Abort ends with the abort callback and Ignore with the ignore callback when there is one |
| Dispatching.RetryThenSucceed | Src/LiquidProjections/Dispatcher.cs:86-90 | success after k retries completes the loop with k + 1 runs and consultations for 1 … k only; with k = 0 the action runs once and the policy is never consulted |
| Dispatching.DefaultPolicyAbortsAtOnce | Src/LiquidProjections/Dispatcher.cs:46 | under the default policy the first exception aborts: one attempt, one consultation answered Abort, then the abort callback |
| Dispatching.BatchHandlingEffects | Src/LiquidProjections/Dispatcher.cs:48-58 | batch handling invokes the handler once per attempt made, and disposes the subscription exactly once when the loop aborts and a subscription exists, otherwise never (Ignore keeps it) |
| Dispatching.BatchCallbackCounts | Src/LiquidProjections/Dispatcher.cs:50-57 | batch handling's callbacks never invoke the handler, and dispose the subscription only on Abort |
| Dispatching.RetryNTimesThenAbortBatch | Src/LiquidProjections/Dispatcher.cs:48-58 | Retry N times then Abort on a batch: the handler ran N + 1 times, and the last effect is the single disposal of the subscription |
| Dispatching.RestartEffects | Src/LiquidProjections/Dispatcher.cs:60-78 | with RestartWhenAhead the subscription is disposed before the hook first runs; the hook runs once per attempt; success and Ignore each re-subscribe exactly once and Abort never; every re-subscription starts from no checkpoint with the same handler and options |
| Dispatching.NoRestartWhenNotAhead | Src/LiquidProjections/Dispatcher.cs:62 | without RestartWhenAhead the unknown-checkpoint signal has no effect at all |
| Dispatching.Dispatcher.constructor | Src/LiquidProjections/Dispatcher.cs:46 | a new dispatcher's policy is the default, which aborts on everything, and it has done nothing yet |
| Dispatching.Dispatcher.Subscribe | Src/LiquidProjections/Dispatcher.cs:21-40 | a missing handler is rejected with the parameter name "handler" and has no effect; otherwise one subscription is requested from the given checkpoint with the handler and the options, where missing options become the defaults |
| Dispatching.Dispatcher.ExecuteWithPolicy | Src/LiquidProjections/Dispatcher.cs:80-113 | the do-while loop records exactly the effects of `PolicyRun` from attempt 1 under the current policy and ends the same way |
| Dispatching.Dispatcher.HandleTransactions | Src/LiquidProjections/Dispatcher.cs:48-58 | handling a batch records exactly the batch run: the handler per attempt, and on Abort a fatal log entry and the disposal |
| Dispatching.Dispatcher.HandleUnknownCheckpoint | Src/LiquidProjections/Dispatcher.cs:60-78 | the unknown-checkpoint signal records exactly the restart run: the disposal, then the policy loop around hook and re-subscribe; the re-subscription reuses the handler and options of the `request` argument, which stands for what the source's closure captured when the subscription was made |
| MapBuilding.ApplyAction | Src/LiquidProjections/MapBuilding/IEventMappingBuilder.cs:44-116 | an action changes at most the projection under its derived key, and a custom action changes none; an unhandled event leaves the store as it was |
| MapBuilding.HandleEvent | Src/LiquidProjections/MapBuilding/IEventMappingBuilder.cs:118-130 | when every one of the handler's `When` predicates accepts the event, the handler does what its action does; when any one of them rejects it, the event is unhandled and the store unchanged |
| MapBuilding.GuardsAreConjunction | Src/LiquidProjections/MapBuilding/IEventMappingBuilder.cs:21-33 | the guards hold exactly when every one of them accepts the event |
| MapBuilding.ExtraGuardNarrows | Src/LiquidProjections/MapBuilding/IEventMappingBuilder.cs:118-130 | adding a `When` guard makes the handler accept an event exactly when it did before and the new guard accepts it |
| MapBuilding.CreateOfFailsIffPresent | Src/LiquidProjections/MapBuilding/IEventMappingBuilder.cs:44-53 | creating fails exactly when the key is present, with "already exists" for that key; otherwise the created projection is stored under the key and only that key is added |
| MapBuilding.CreateIfDoesNotExistRefinesCreate | Src/LiquidProjections/MapBuilding/IEventMappingBuilder.cs:55-66 | create-if-absent never fails: it does what creating does, except that a present key leaves the event unhandled and the store unchanged |
| MapBuilding.UpdateOfFailsIffAbsent | Src/LiquidProjections/MapBuilding/IEventMappingBuilder.cs:68-77 | updating fails exactly when the key is absent, with "does not exist" for that key; otherwise the keys stay the same and that projection is replaced by its update |
| MapBuilding.UpdateIfExistsRefinesUpdate | Src/LiquidProjections/MapBuilding/IEventMappingBuilder.cs:79-88 | update-if-present never fails: it does what updating does, except that an absent key leaves the event unhandled and the store unchanged |
| MapBuilding.CreateOrUpdateNeverFails | Src/LiquidProjections/MapBuilding/IEventMappingBuilder.cs:90-100 | create-or-update never fails and the key is present afterwards; it is creating when the key was absent and updating when it was present |
| MapBuilding.DeleteOfFailsIffAbsent | Src/LiquidProjections/MapBuilding/IEventMappingBuilder.cs:102-108 | deleting fails exactly when the key is absent; otherwise exactly that key is removed |
| MapBuilding.DeleteIfExistsRefinesDelete | Src/LiquidProjections/MapBuilding/IEventMappingBuilder.cs:110-116 | delete-if-present never fails: it does what deleting does, except that an absent key is a no-op |
| MapBuilding.DeleteUndoesCreate | Src/LiquidProjections/MapBuilding/IEventMappingBuilder.cs:44-108 | deleting the projection just created under a fresh key restores the store |
| Projecting.NewProjector | Src/LiquidProjections/Projector.cs:13-28 | a missing builder is rejected as a null "eventMapBuilder"; a missing child is rejected with the null-child message for "children"; construction succeeds exactly when neither happens; the map is the one the builder builds; a missing child list means no children, and otherwise the children are kept in order |
| Projecting.ProjectEventIsPostOrder | Src/LiquidProjections/Projector.cs:87-96 | projecting one event makes exactly the post-order calls of the projector tree (children recursively, in list order, before the own map), cut off after the first failing call |
| Projecting.ProjectChildrenIsPostOrder | Src/LiquidProjections/Projector.cs:89-92 | the children are projected in list order, each with its whole subtree, up to the first failure |
| Projecting.PostOrderShape | Src/LiquidProjections/Projector.cs:87-96 | a projector's own map is the last call of its traversal, and every call of the traversal gets the same event and context |
| Projecting.UpToStopsAtFirstFailure | Src/LiquidProjections/Projector.cs:87-96 | the calls made are a prefix of the planned ones and all but the last succeeded; the walk fails exactly when some planned call fails, with that failure, and otherwise makes every planned call |
| Projecting.Enrich | Src/LiquidProjections/Projector.cs:66-83 | the resulting projection error carries the current envelope, the transaction id and a batch of exactly that transaction; an existing projection error keeps its message and inner exception, and any other failure is wrapped under the fixed message with the failure as inner exception |
| Projecting.ProjectItemsAppend | Src/LiquidProjections/Projector.cs:40-46 | projecting two runs of events in a row is projecting the first and, only if it did not fail, then the second |
| Projecting.ItemWalkPlanned | Src/LiquidProjections/Projector.cs:54-64 | one event's walk is its planned traversal cut at the first failure, and without a failure it makes every planned call |
| Projecting.FirstFailureEndsBatch | Src/LiquidProjections/Projector.cs:40-85 | without a failure every planned call of every event is made in order; with one there is an event k such that every earlier event projected cleanly, the calls end inside event k's traversal, and the error is event k's failure annotated with event k and its transaction |
| Projecting.CallsCarryTheirContext | Src/LiquidProjections/Projector.cs:48-64 | every call of a batch hands some event of the batch to a map, with a context whose id, stream id, timestamp, checkpoint and headers come from that event's transaction and whose event headers come from its envelope |
| Projecting.CustomActionRunsCallback | Src/LiquidProjections/Projector.cs:30-33 | under the projector's hook a custom action changes no projection and fails exactly when the supplied action fails, with that failure |
| Projecting.ProjectTransaction | Src/LiquidProjections/Projector.cs:48-85 | the loop over a transaction's envelopes makes exactly the calls, and raises exactly the annotated error, of projecting its events in envelope order |
| Projecting.Handle | Src/LiquidProjections/Projector.cs:40-46 | the loop over the transactions makes exactly the calls, and raises exactly the error, of projecting all their events transaction by transaction |

## Left out

- Asynchrony: `async`/`await`, `Task.Run(...).Wait()` and any concurrency between writers and subscribers. Every call is a plain sequential step.
- EventStore.MemoryEventSource.Write: the source returns only a task and stamps the caller's transaction objects in place; the model returns the stamped transactions as values. Aliasing is not modelled: in the source, writing the same object twice leaves the history holding that object twice with one (the last) checkpoint, so the gap-free numbering and the strictly increasing history hold there only when every written object is fresh.
- EventStore.MemoryEventSource: in the source, `lastCheckpoint` is a static field shared by every log in the process. Here it belongs to the one log modelled, starting at 0.
- EventStore.Subscriber: the source's batch size is any `int`. The model requires a positive batch size (`BatchSize`), because the batching helper `InBatchesOf` is not part of this model.
- EventStore.Chunks: `InBatchesOf` is assumed to split greedily: full batches, then a shorter last one. The deliveries stated by `Subscriber.Send`, `MemoryEventSource.Broadcast` and `MemoryEventSource.Write` are that split, so their exact batch boundaries rest on this assumption. Only the abstract properties are proved of the split: non-empty batches of at most `batchSize` that concatenate back to the input in order.
- EventStore.Subscriber: the handler is recorded as the batches it received (`delivered`). Exceptions thrown by a handler are not modelled.
- EventStore.Subscriber.Send: handlers are assumed not to re-enter the log. The source checks `Disposed` once, before its batch loop, so a handler that disposes its own subscription part-way (as the dispatcher's abort path does) still receives the rest of that send; the model decides on the flag as it stood when the send began and cannot express a mid-send disposal. A handler that writes to the log from inside a send, interleaving batches out of checkpoint order, is not modelled either.
- EventStore.MemoryEventSource.Broadcast: handlers are assumed not to call back into the log. In the source, subscribing from a handler during a broadcast, or writing from a handler during a replay, changes a list that is being enumerated, and the source throws. Writing during a broadcast does not throw; it interleaves batches (see the `Subscriber.Send` line). Subscribing during a replay registers and replays one more subscriber. The order in which subscribers are served is not recorded, only what each received.
- Checkpoints and attempt counters are unbounded integers. Overflow of the source's `long` and `int` is not modelled.
- Dispatching: the subscription factory (`CreateSubscription`) and the subscriber objects it receives are not part of this model. Creating a subscription is an abstract `SubscriptionCreated` effect, assumed not to throw.
- Dispatching: logging is recorded only as a `FatalLogged` effect carrying the message and the exception.
- Dispatching.PolicyRun: an action is a finite sequence of attempts. When every modelled attempt throws and gets Retry, the run ends `Unresolved`. The source would keep retrying for as long as the policy says Retry.
- Dispatching: a callback (abort, ignore, a disposal) that itself throws is not modelled. The exception policy is assumed total: in the source it is a user delegate that may throw or fault, which would escape the loop.
- Projecting: `IEventMap.Handle` and the runtime-type dispatch of event maps are an oracle (`MapHandle`); Src/LiquidProjections/IEventMap.cs is only the abstract callee. Event bodies, headers and timestamps are opaque.
- Projecting.Enrich: the source sets fields on the caught `ProjectionException` and rethrows the same object. The model returns a value with the same message and inner exception and those fields replaced. Object identity is not modelled.
- MapBuilding: the interfaces declare no implementation. The model follows their doc-comments, and the builder objects and their fluent chaining are not modelled. A handler is its guards plus one action. The key, create and update delegates and the `When` predicates are assumed total; in the source they are user delegates that may throw, whereas in the model only a custom action (`As`) can fail.
- Projecting.NewProjector: the source configures the builder (`SetupHandlers`) and builds the map before it checks the children, so those happen even when construction is then rejected for a null child; the model checks everything first and has no effect on the builder.
- MapBuilding.UpdateOfFailsIffAbsent: the RavenDB integration test (Tests/LiquidProjections.RavenDB.Specs/RavenProjectorSpecs.cs:42-78) expects updating a missing projection to create it. That contradicts the doc-comment of `AsUpdateOf` (Src/LiquidProjections/MapBuilding/IEventMappingBuilder.cs:71), which says an exception is thrown. The model follows the doc-comment.
- Src/LiquidProjections.RavenDB/RavenTrackingStore.cs and the RavenDB projector, cache and sessions are not part of this model; they are I/O over a document database.
