# Arky: proofs about the two CLI providers and their kernels

Arky drives coding-agent command line tools, Codex and Claude Code, and turns what they print into one
stream of protocol events. This project models the stateful part of that in Dafny and proves what its
callers rely on:

- **Codex notifications** (`Dedup.dfy`, `Router.dfy`): the fingerprint text that decides what is a
  duplicate, and the router whose two indexes decide which stream sees a notification.
- **JSON-RPC transport** (`Rpc.dfy`, `RpcTransport.dfy`): frames, request keys, and the concurrent
  request, read and write sides as a step system over the shared pending map and the fatal latch.
- **Shared server and scheduler** (`Registry.dfy`, `Scheduler.dfy`): leases, idle timers, permits, queue
  slots.
- **Claude turn** (`ClaudeTools.dfy`, `ClaudeParser.dfy`, `ClaudeTurns.dfy`, `ClaudeGrammar.dfy`,
  `ClaudeHistory.dfy`, `ClaudeRuntime.dfy`, `Protocol.dfy`): parser, tool tracker, text deduplicator,
  nested tool tracker, stream runtime, and the order and content of the events that come out.
- **Codex turn** (`CodexRuntime.dfy`): accumulators, open tools, stream runtime, and the same questions.
- **Kernels** (`Base64.dfy`, `Flatten.dfy`, `ConfigPaths.dfy`, `ConfigMerge.dfy`, `Lines.dfy`): base64
  and data URLs, dotted-key flattening, nested paths from the environment, layered configuration, and
  the chunked line writers of the markdown checker.

## How it is written

Where the source changes objects in place, the model is a class with the same fields, and each method's
`ensures` says that the new state is a named function of the old one (`OnToolStart`, `After`, `Upserted`,
`MergeConfig`, ...). Such a function is a specification, and the theorems are about it: over all runs,
by induction on the inputs, against a second description that does not share its structure. For the
router that description is what one receiver sees; for the scheduler, counting tasks; for the registry,
counting leases; for the parser, a ledger kept by someone who reads only the transcript; for the two
event streams, a reader that knows nothing of the runtime and accepts or refuses events one by one; for
the merge, what a configuration says at one leaf; for the line writers, the lines of the concatenated
bytes. The transport's steps are functions on its state, so that an interleaving is a list of steps; each
method of the class takes one of them, and what holds after every list of steps holds of the class.

JSON appears twice: `Json` keeps object entries in the order a map walks them, `Value` forgets that
order, and `Denote` maps one to the other. Numbers are opaque tokens.

Inductions are written out in the lemmas' bodies.

## Findings

Where the code falls short of what its callers might expect, the model keeps the code as it is, shows an
input, and says exactly when the code does meet the expectation.

- **Stale callers of the router.** `unregister` and the pruning of dropped receivers go by thread id. A
  holder's late unregister changes nothing exactly when no later registration of its thread is live,
  and otherwise silences that one and nothing else (`LateUnregisterHitsTheSuccessor`); the same goes for
  a prune that comes late (`LatePruneHitsSuccessors`). `UnregisterSilencesSuccessor` and
  `LatePruneSilencesSuccessor` are such runs. `unregister_if_matches` is harmless exactly when no live
  registration of the thread has got the same id again (`StaleUnregisterChangesNothing`), and ids first
  repeat at the 2^64th registration (`RegistrationIdsDistinct`, `IdsCollideExactly`).
- **Keys left behind.** A request that returns before its frame is queued, or that is cancelled anywhere,
  leaves its key in `pending` exactly when it had inserted the key and nothing has taken it
  (`EarlyReturnLeavesKey`); `CancelledRequestLeavesKey` is such a run.
- **Late responses.** A response stops the transport for everyone exactly when its request has not
  inserted the key yet, has returned after queueing, or was answered before (`LateResponseIsFatal`): one
  that has timed out is enough (`ResponseAfterTimeoutIsFatal`).
- **Stuck senders.** The send before the wait watches neither timeout nor latch. Once the transport has
  failed, a request gets out without the write loop exactly when it is past the send, or the queue has
  room, or the write loop is gone (`FatalLetsOutExactly`); for every capacity a run ends with a request
  stuck (`SomeoneCanBeStuck`).
- **Leases by key.** Once a server is replaced under a live lease, releasing that lease shuts down the
  replacement (`DeathLetsStaleLeaseShutDown`); the registry is exact and safe all along a run precisely
  when no server is replaced, reconfigured or disposed of while leased (`SafeExactlyWhenOrderly`).
- **Lost queue slots.** The slots lost are exactly the cancellations between reserve and release, so the
  idle counter is back at zero exactly when there was none (`IdleCounterIsTheCancellations`), and the
  queue refuses for ever exactly when they have used it up (`RefusesForEverExactly`). With one permit and
  one slot, one cancelled waiter does it (`CancelledWaiterFillsTheQueue`).
- **Layers of different variants.** `ProviderBehaviorLayer::merge` is not associative: a sandbox mode, a
  layer of another variant and an empty layer are a case (`LayerBetweenDropsField`). It fails exactly when
  a layer of another variant stands between two of one variant and the first sets a field that the last
  does not (`LayersAssociateExactly`). The merge of whole partial configurations is associative.
- **Order of environment variables.** Two insertions commute exactly when their paths are incomparable or
  the longer one's value is already inside the shorter one's (`CommuteExactly`). `X_A=text` and
  `X_A__B=1` do not (`OrderCanMatter`).
- **Assistant snapshots.** The deduplicator keeps only a byte count. It panics exactly on a snapshot
  longer than the count that has no place between characters there (`PanicsExactly`; streamed `a` and
  then the snapshot `\u{e9}` is one, `SnapshotCutsCharacter`); a transcript that follows the rules streams
  to its end exactly when it has no such snapshot (`OrderlyTranscriptsStream`), and ASCII snapshots never
  are. Text can also be lost or come twice. If the texts are parts of one whole text, each beginning
  within what came before it, then the message holds at every point exactly what they have carried so
  far precisely when every streamed text goes on from there or is empty, every snapshot that brings more
  begins where the text stood at the last reset, and every other snapshot is no longer than what came
  since that reset (`TextComesOutOnceExactly`; between two resets, `SnapshotsAddOnlyWhatIsMissing`). A
  streamed text and then the blocks of a snapshot that repeats it come out whole exactly when all of it
  was streamed or at most one block is not empty (`BlocksComeOutWholeExactly`). So unstreamed blocks `AA`
  and `BBB` come out as `AAB` (`SecondBlockLosesText`), of two unstreamed records `hello` and `bye` the
  second is lost (`SecondRecordIsLost`, and on whole records `SecondRecordLeavesNoText`), and a streamed
  text that a snapshot repeats after a tool has started comes twice (`RepeatedAfterToolStart`).
- **Updates after the end.** Codex's message is updated after its end exactly when a delta is handled
  after a completion (`UpdateFollowsEndExactly`, with `LateDelta` as a case).
- **Empty images.** A data URL and the bytes it encodes make the same image part exactly when the type the
  URL is read with is not supported, or there is data and the type holds no separator
  (`DataUrlAgreesWithBytes`): with a supported type and no data, only the bytes make a part.
- **Dotted keys.** Two paths meet on a dotted key exactly when splitting their keys at the dots gives the
  same path (`DottedMeetExactly`). Every path with a dotted key meets another one (`DotsCollide`), as `a.b`
  meets `b` inside `a`. All leaves of an object are found under their dotted keys exactly when leaves that
  meet have the same value (`LeavesSurviveExactly`), and the object can be read back exactly when no key
  has a dot and no nested object is empty (`FlattenRoundTrips`).

## Model

| member | source | states |
|---|---|---|
| StableJsonText.StableJsonIsValueText | crates/arky-codex/src/dedup.rs:48-74 | the printer sees a tree only through its value: entry order is forgotten at every level |
| StableJsonUnambiguous.StableJsonCanonical | crates/arky-codex/src/dedup.rs:48-74 | two trees print alike if and only if they are equal up to the order of object entries |
| Fingerprints.NoValueAfterColon | crates/arky-codex/src/dedup.rs:43-46 | no printed value ends in a colon followed by a complete printed value |
| Fingerprints.FingerprintInjective | crates/arky-codex/src/dedup.rs:43-46 | equal fingerprints if and only if same method and same params up to entry order, whatever colons the methods contain |
| Fingerprints.RecordsFirstOccurrences | crates/arky-codex/src/dedup.rs:22-26 | over any run, a notification is let through exactly on its first occurrence |
| Fingerprints.FingerprintDeduper.Record | crates/arky-codex/src/dedup.rs:22-26 | answers true exactly when nothing recorded before is the same notification; adds one fingerprint |
| RoutingHistory.LiveQueueIsExact | crates/arky-codex/src/notification.rs:68-262 | a live receiver's queue is exactly, in order, the matching notifications sent since its registration |
| RoutingHistory.RemovedQueueIsExact | crates/arky-codex/src/notification.rs:100-275 | a removed receiver keeps exactly what was meant for it up to its removal, plus the one error if that removed it, whatever comes later |
| RoutingHistory.IdsCollideExactly | crates/arky-codex/src/notification.rs:75-78 | two registrations get one id if and only if their positions agree modulo 2^64, or both stand at the last two positions before the counter wraps |
| RoutingHistory.RegistrationIdsDistinct | crates/arky-codex/src/notification.rs:75-78 | the first 2^64 - 1 registrations have different ids, and the next one repeats the last |
| RoutingHistory.UnregisterIsHarmlessExactly | crates/arky-codex/src/notification.rs:100-117 | an unregister changes nothing if and only if nothing is live under its thread, or under its thread and id |
| RoutingHistory.OnlyTheLatestIsLive | crates/arky-codex/src/notification.rs:82-91 | of the registrations of one thread only the latest can be live |
| RoutingHistory.LateUnregisterHitsTheSuccessor | crates/arky-codex/src/notification.rs:100-105 | a late unregister is harmless if and only if no later registration of the thread is live, and otherwise silences that one alone |
| RoutingHistory.HarmlessUnlessRegisteredAgain | crates/arky-codex/src/notification.rs:100-105 | a late unregister is harmless when the thread was not registered again since |
| RoutingHistory.LatePruneHitsSuccessors | crates/arky-codex/src/notification.rs:264-275 | a prune that comes after other calls spares everyone it did not find gone, if and only if no pruned thread has a live later registration |
| RoutingHistory.LatePruneSilencesSuccessor | crates/arky-codex/src/notification.rs:169-184 | a run in which a late prune silences a registration whose receiver is there |
| RoutingHistory.StaleUnregisterChangesNothing | crates/arky-codex/src/notification.rs:107-117 | unregistering with the id of a registration no longer live is harmless if and only if no live later registration of the thread has the same id; always so below 2^64 registrations |
| RoutingHistory.UnregisterSilencesSuccessor | crates/arky-codex/src/notification.rs:100-117 | after any calls, a thread registered twice: the first holder's unregister silences the second, its unregister with its own id does not |
| NotificationRouting.InverseMeansScopesOf | crates/arky-codex/src/notification.rs:48-51 | the two indexes are inverse with no empty scope if and only if the scopes are those the threads determine |
| NotificationRouting.ScopesAfterRemoval | crates/arky-codex/src/notification.rs:278-289 | removing a thread's scope entry keeps the indexes inverse |
| NotificationRouting.ScopesAfterAddition | crates/arky-codex/src/notification.rs:82-93 | filing a thread under its scope keeps the indexes inverse |
| NotificationRouting.ScopeSelection | crates/arky-codex/src/notification.rs:145-167 | a filed scope selects exactly its threads' senders and always at least one: the second stale-routing exit is unreachable |
| NotificationRouting.OneLiveRegistrationPerThread | crates/arky-codex/src/notification.rs:82-91 | a thread never has two live registrations |
| NotificationRouting.InStepAfterSend | crates/arky-codex/src/notification.rs:169-184 | a fan-out and the pruning after it change every receiver as its own registration says |
| NotificationRouting.SelectionOutcome | crates/arky-codex/src/notification.rs:145-184 | success exactly when every selected receiver exists; a scope nobody is registered under is stale |
| NotificationRouting.NotificationRouter.RegisterThread | crates/arky-codex/src/notification.rs:68-97 | adds one endpoint, retires the thread's earlier one, keeps both indexes inverse |
| NotificationRouting.NotificationRouter.UnregisterThread | crates/arky-codex/src/notification.rs:100-105 | retires whatever is registered for the thread, keeps both indexes inverse |
| NotificationRouting.NotificationRouter.UnregisterThreadIfMatches | crates/arky-codex/src/notification.rs:108-117 | retires the thread's registration only if the id matches; otherwise nothing changes |
| NotificationRouting.NotificationRouter.Fanout | crates/arky-codex/src/notification.rs:169-174 | every open selected channel gets the item once, all others are untouched, and exactly the closed ones are reported |
| NotificationRouting.NotificationRouter.PruneDropped | crates/arky-codex/src/notification.rs:264-275 | removes exactly the given threads from both indexes |
| NotificationRouting.NotificationRouter.DispatchToScope | crates/arky-codex/src/notification.rs:140-184 | every endpoint changes as a send to the scope says; reports staleness or dropped receivers |
| NotificationRouting.NotificationRouter.DispatchGlobal | crates/arky-codex/src/notification.rs:187-217 | every live endpoint gets the notification; reports dropped receivers |
| NotificationRouting.NotificationRouter.DispatchToThread | crates/arky-codex/src/notification.rs:237-262 | the thread's receiver gets it, or its registration ends; an unknown thread is not an error |
| NotificationRouting.NotificationRouter.Dispatch | crates/arky-codex/src/notification.rs:120-137 | the target is chosen by method, then thread id, then scope id, and only that target's endpoints change |
| NotificationRouting.NotificationRouter.FailEveryone | crates/arky-codex/src/notification.rs:220-235 | every live receiver gets the error, and routing is empty |
| RpcFrames.ParseReadsFrame | crates/arky-codex/src/rpc.rs:757-849 | reading a written frame gives the message back, for requests, notifications, results and errors |
| Decimal.AsI64ReadsShowInt | crates/arky-codex/src/rpc.rs:818-825 | a 64-bit id is read back from the number it was written as |
| TransportInvariant.ExecKeeps | crates/arky-codex/src/rpc.rs:307-389 | in every interleaving, pending keys, claims, slots, stages and the latch stay consistent |
| TransportTheorems.KeysCollide | crates/arky-codex/src/rpc.rs:316-325 | two requests share a key if and only if both drew past the largest 64-bit integer |
| TransportTheorems.ReturnedValueCameFromOwnResponse | crates/arky-codex/src/rpc.rs:644-680 | a returned value came from a response frame with that request's own key |
| TransportTheorems.FramesAndRequestsPairUp | crates/arky-codex/src/rpc.rs:659-679 | no request consumes two frames and no frame completes two requests |
| TransportTheorems.ResponseReachesItsOnlySender | crates/arky-codex/src/rpc.rs:644-680 | with at most 2^63 ids drawn, a response can only go to the request that sent its id |
| TransportTheorems.FatalIsALatch | crates/arky-codex/src/rpc.rs:726-733 | once fatal is set it is never unset |
| TransportTheorems.NothingIsDeliveredAfterTheClear | crates/arky-codex/src/rpc.rs:726-741 | after the clear nothing is read, claimed, streamed or delivered again |
| TransportTheorems.ClearWakesEveryone | crates/arky-codex/src/rpc.rs:735-737 | the clear empties pending and gives every request under way something to wake up to once it waits |
| TransportTheorems.FatalLetsOutExactly | crates/arky-codex/src/rpc.rs:350-388 | once fatal is set, a request can finish without the write loop if and only if it is past the send, or the queue has room, or the write loop is gone; then its own next steps suffice |
| TransportTheorems.WayOutLeadsOut | crates/arky-codex/src/rpc.rs:350-388 | those steps, and the outcome they lead to: what was settled, or a failure |
| TransportTheorems.SomeoneCanBeStuck | crates/arky-codex/src/rpc.rs:350-352 | for every write capacity, a run after which a request waits in the send of a failed transport and nothing but the write loop can free it |
| TransportTheorems.QueuedRequestLeavesNoKey | crates/arky-codex/src/rpc.rs:354-388 | a request whose frame was queued leaves no key behind when it returns |
| TransportTheorems.WatchNeverMisleads | crates/arky-codex/src/rpc.rs:379-384 | the two exits that skip the removal after queueing are never taken |
| TransportTheorems.WaitingRequestsAreRemembered | crates/arky-codex/src/rpc.rs:328-334 | a request under way is under its key, has its answer, or is just being answered |
| TransportTheorems.EarlyReturnLeavesKey | crates/arky-codex/src/rpc.rs:328-352 | a request that gives up before its frame is queued, or is cancelled anywhere, leaves its key if and only if it had inserted it and nothing has taken it |
| TransportTheorems.CancelledRequestLeavesKey | crates/arky-codex/src/rpc.rs:328-352 | a run that leaves a key: cancelled while the frame waits for room |
| TransportTheorems.RequestsAreFiledExactly | crates/arky-codex/src/rpc.rs:328-389 | while the read side runs, a request is under its key if and only if it has inserted it, has not returned after queueing, and was not answered |
| TransportTheorems.LateResponseIsFatal | crates/arky-codex/src/rpc.rs:659-678 | a response with a request's key stops the transport if and only if that request is not under its key so; otherwise the request takes it |
| TransportTheorems.ResponseAfterTimeoutIsFatal | crates/arky-codex/src/rpc.rs:659-678 | a run in which the response to a timed-out request stops the transport, whatever the response says |
| TransportTheorems.ChannelClosesOnlyWhenStopped | crates/arky-codex/src/rpc.rs:371-373 | a response channel closes only because the read side stopped |
| TransportTheorems.StreamsCarryEveryFrame | crates/arky-codex/src/rpc.rs:615-643 | both streams carry exactly the accepted frames in order and end with the one error that stopped reading |
| Transport.RpcTransport.StartRequest | crates/arky-codex/src/rpc.rs:312-319 | an id is drawn exactly when the transport has not failed |
| Transport.RpcTransport.InsertPending | crates/arky-codex/src/rpc.rs:326-334 | files the request under its key; a sender already there is dropped and its channel closes |
| Transport.RpcTransport.SerializeFrame | crates/arky-codex/src/rpc.rs:336-349 | on to the send, or an early return that leaves the key |
| Transport.RpcTransport.SendFrame | crates/arky-codex/src/rpc.rs:350-352 | comes back with the frame queued once there is room, or with an error once the writer is gone; either way the key stays |
| Transport.RpcTransport.NoticeFatal | crates/arky-codex/src/rpc.rs:379-384 | a request that sees the latch move always finds an error in it |
| Transport.RpcTransport.FinishRequest | crates/arky-codex/src/rpc.rs:354-388 | returns what the wait settled on and leaves no key; a returned value answers this very request |
| Transport.TrimLineEndings | crates/arky-codex/src/rpc.rs:751-755 | the line without the line feeds and carriage returns at its end |
| Transport.RpcTransport.HandleLine | crates/arky-codex/src/rpc.rs:542-559 | nothing for a blank line; otherwise the step its JSON comes to, or the end of reading |
| Transport.RpcTransport.HandleIncomingFrame | crates/arky-codex/src/rpc.rs:577-606 | a frame is handled as the message it parses to, and stops the read side if it parses to none |
| Transport.RpcTransport.HandleIncomingMessage | crates/arky-codex/src/rpc.rs:608-682 | a message goes to its stream, or takes its request out of pending, or stops the read side |
| Transport.RpcTransport.DeliverResponse | crates/arky-codex/src/rpc.rs:678 | the claimed request's channel is filled, unless the request is over |
| Transport.RpcTransport.ClearPending | crates/arky-codex/src/rpc.rs:735-740 | every sender in pending is dropped, pending is empty, both streams get the error |
| Transport.RpcTransport.TakeFrameToWrite | crates/arky-codex/src/rpc.rs:711 | a frame leaves the queue and makes room |
| Transport.RpcTransport.EndWrite | crates/arky-codex/src/rpc.rs:712-720 | on to the next frame, or the latch is set before the queue closes |
| SchedulerRuns.RunStaysWithinLimits | crates/arky-codex/src/scheduler.rs:58-92 | in every run at most `limit` permits are held and at most `max` slots are taken |
| SchedulerRuns.LeaksAreTheCancellations | crates/arky-codex/src/scheduler.rs:70-74 | the slots lost in a run are exactly its cancellations between reserve and release; none is given back |
| SchedulerRuns.SlotsAreLostOrHeld | crates/arky-codex/src/scheduler.rs:107-123 | the counter is the tasks between reserve and release plus the slots lost |
| SchedulerRuns.IdleCounterIsTheCancellations | crates/arky-codex/src/scheduler.rs:70-74 | with nobody between reserve and release the counter is the number of such cancellations |
| SchedulerRuns.RefusesForEverExactly | crates/arky-codex/src/scheduler.rs:107-113 | no task is ever queued again if and only if lost slots have used up the queue |
| SchedulerRuns.CancelledWaiterFillsTheQueue | crates/arky-codex/src/scheduler.rs:70-74 | a run of two tasks after which a queue of one slot refuses for ever with nobody in it |
| Scheduling.Scheduler.constructor | crates/arky-codex/src/scheduler.rs:44-55 | both limits are at least one; nothing is held or queued |
| Scheduling.Scheduler.TryAcquire | crates/arky-codex/src/scheduler.rs:63-68 | succeeds exactly when fewer permits are held than the limit; held plus free is the limit |
| Scheduling.Scheduler.ReserveQueueSlot | crates/arky-codex/src/scheduler.rs:107-118 | refused exactly when the tasks holding or leaking slots fill the queue |
| Scheduling.Scheduler.ReleaseQueueSlot | crates/arky-codex/src/scheduler.rs:120-123 | the counter goes down by exactly one: the subtraction never saturates |
| Scheduling.Scheduler.CancelTask | crates/arky-codex/src/scheduler.rs:70-74 | a cancelled waiter's permit returns to the semaphore, its queue slot does not |
| RegistrySafety.OrderlyStepKeeps | crates/arky-codex/src/registry.rs:48-190 | counts stay exact and leased servers running through every step that replaces no leased server |
| RegistrySafety.DisorderlyStepBreaks | crates/arky-codex/src/registry.rs:77-139 | every step that replaces, reconfigures or disposes of a leased server breaks that |
| RegistrySafety.SafeExactlyWhenOrderly | crates/arky-codex/src/registry.rs:48-190 | a run is exact and safe throughout if and only if each of its steps is orderly |
| RegistrySafety.LeasedServersStayUp | crates/arky-codex/src/registry.rs:143-190 | in an orderly run no release and no timer, even a stale one, shuts down a leased server; the count is the leases live or not yet released |
| RegistrySafety.DeathLetsStaleLeaseShutDown | crates/arky-codex/src/registry.rs:77-84 | a run in which a dead server's lease takes down its replacement |
| Registry.CodexServerRegistry.AcquireLease | crates/arky-codex/src/registry.rs:48-101 | leases the live server under the key, or replaces it; fails only if no server is alive and none starts |
| Registry.CodexServerRegistry.ReconfigureKey | crates/arky-codex/src/registry.rs:104-118 | the server under the key is shut down and replaced, whoever leases it |
| Registry.CodexServerRegistry.ReleaseLease | crates/arky-codex/src/registry.rs:143-174 | one holder fewer; the last one shuts the server down or starts an idle timer |
| Registry.CodexServerRegistry.FinalizeIdleShutdown | crates/arky-codex/src/registry.rs:176-190 | shuts down only a server nobody leases |
| Registry.CodexServerRegistry.DisposeAllServers | crates/arky-codex/src/registry.rs:121-141 | every tracked server is forgotten, and shut down up to the first failure |
| ToolFsm.ToolLifecycleTracker.Start | crates/arky-claude-code/src/tool_fsm.rs:63-81 | allowed exactly from idle or completed; refused calls change nothing |
| ToolFsm.ToolLifecycleTracker.InputDelta | crates/arky-claude-code/src/tool_fsm.rs:83-120 | allowed exactly after a start or a fragment, and accumulates the input |
| ToolFsm.ToolLifecycleTracker.CompleteInput | crates/arky-claude-code/src/tool_fsm.rs:122-160 | allowed exactly before execution; a blank final input keeps the accumulated one |
| ToolFsm.ToolLifecycleTracker.Finish | crates/arky-claude-code/src/tool_fsm.rs:162-177 | allowed exactly while executing |
| TextDedup.SlicesExactlyAtBoundaries | crates/arky-claude-code/src/dedup.rs:37 | the slice is taken if and only if it begins between two characters |
| TextDedup.PanicsExactly | crates/arky-claude-code/src/dedup.rs:28-45 | between two resets there is a panic if and only if some snapshot is longer than the count before it and has no boundary there |
| TextDedup.SnapshotCutsCharacter | crates/arky-claude-code/src/dedup.rs:37 | an input that panics |
| TextDedup.SnapshotsAddOnlyWhatIsMissing | crates/arky-claude-code/src/dedup.rs:28-45 | what the pieces of one text carry is emitted at every point, nothing twice and nothing lost, if and only if every streamed piece goes on from what came before and every snapshot that brings more begins at the beginning |
| TextDedup.BlocksComeOutWholeExactly | crates/arky-claude-code/src/dedup.rs:29-43 | a streamed text and then the blocks that repeat it come out whole if and only if all was streamed or at most one block is not empty |
| TextDedup.SecondBlockLosesText | crates/arky-claude-code/src/dedup.rs:36-37 | two blocks of which the second loses its beginning |
| TextDedup.SecondRecordIsLost | crates/arky-claude-code/src/dedup.rs:39-41 | two unstreamed texts of which the second, shorter one is lost |
| TextDedup.TextDeduplicator.Process | crates/arky-claude-code/src/dedup.rs:28-45 | the added text and the new length, counted in UTF-8 bytes |
| NestedTools.StoreSummarizesRegistrations | crates/arky-claude-code/src/nested.rs:123-149 | a store lists each registered child once, in first-registration order, all its registrations merged |
| NestedTools.StatusNeverDecreases | crates/arky-claude-code/src/nested.rs:130-132 | a child's status is the highest it was ever registered with |
| NestedTools.NestedToolTracker.Upsert | crates/arky-claude-code/src/nested.rs:123-149 | updates the entry with the same id in place, or appends one |
| NestedTools.NestedToolTracker.MergeIntoParentResult | crates/arky-claude-code/src/nested.rs:83-121 | the parent's result with its children's records; the store is gone |
| ClaudeParsing.ClaudeEventParser.ParseBlockStart | crates/arky-claude-code/src/parser.rs:618-689 | the events and the new parser state for a block start, or refusal |
| ClaudeParsing.ClaudeEventParser.ParseBlockDelta | crates/arky-claude-code/src/parser.rs:691-768 | the events and the new parser state for a fragment, or refusal |
| ClaudeParsing.ClaudeEventParser.ParseBlockStop | crates/arky-claude-code/src/parser.rs:770-804 | the completion of the block under the index, which is forgotten |
| ClaudeParsing.ClaudeEventParser.ParseAssistant | crates/arky-claude-code/src/parser.rs:354-499 | the events of a snapshot's blocks, without tools that were streamed |
| ClaudeParsing.ClaudeEventParser.ParseUser | crates/arky-claude-code/src/parser.rs:501-558 | the tool results of a user record |
| ClaudeParsing.ClaudeEventParser.ParseRecord | crates/arky-claude-code/src/parser.rs:270-293 | the events and the new parser state for any record, or refusal |
| ClaudeAgreement.AcceptedExactlyWhenOrderly | crates/arky-claude-code/src/parser.rs:456-804 | parser and tracker accept a transcript if and only if it follows the rules of the ledger, and then agree on the tools in flight |
| ClaudeAgreement.BlockCollectsFragments | crates/arky-claude-code/src/parser.rs:721-744 | a block's input grows by exactly its own fragments, whatever is interleaved |
| ClaudeAgreement.StreamedCompletionIsSnapshotPlusFragments | crates/arky-claude-code/src/parser.rs:770-804 | a streamed completion carries the start snapshot followed by all fragments of its block |
| AgentEvents.EventEmitter.Emit | crates/arky-claude-code/src/provider.rs:1276-1289 | consecutive sequence numbers, saturating at the largest |
| AgentEvents.AppendText | crates/arky-claude-code/src/provider.rs:544-551 | the message's text grows by exactly the added text |
| ClaudeRuntime.StreamRuntime.HandleTextDelta | crates/arky-claude-code/src/provider.rs:804-828 | starts the message, adds what is new, and says so; nothing more if nothing is new |
| ClaudeRuntime.StreamRuntime.EmitNestedPreview | crates/arky-claude-code/src/provider.rs:878-915 | a preview of the parent's children, only when it changed |
| ClaudeRuntime.StreamRuntime.HandleToolUseStart | crates/arky-claude-code/src/provider.rs:917-960 | starts message and tool, files a child with both trackers, then shows the preview |
| ClaudeRuntime.StreamRuntime.HandleToolUseInputDelta | crates/arky-claude-code/src/provider.rs:962-983 | two updates for an accepted fragment, refusal otherwise |
| ClaudeRuntime.StreamRuntime.HandleToolUseComplete | crates/arky-claude-code/src/provider.rs:985-1010 | puts the call into the message once per id and announces it |
| ClaudeRuntime.StreamRuntime.HandleToolResult | crates/arky-claude-code/src/provider.rs:1026-1104 | files a child's result, or closes a parent with its children; then the end of the tool |
| ClaudeRuntime.StreamRuntime.HandleFinish | crates/arky-claude-code/src/provider.rs:1106-1145 | ends message and turn; a failed finish has no turn end |
| ClaudeRuntime.StreamRuntime.RecoverFromTruncation | crates/arky-claude-code/src/provider.rs:684-709 | ends message and turn and marks the stream for a retry |
| ClaudeRuntime.StreamRuntime.HandleInput | crates/arky-claude-code/src/provider.rs:711-745 | each event goes to its handler |
| ClaudeRuntime.Stream | crates/arky-claude-code/src/provider.rs:275-299 | everything emitted, numbered from one, up to the first refused event or the truncated line |
| ClaudeGrammar.AcceptedRunsFollowTheGrammar | crates/arky-claude-code/src/provider.rs:747-1104 | every accepted run's events are accepted, one by one, by a reader that knows only the grammar |
| ClaudeGrammar.EventOrder | crates/arky-claude-code/src/provider.rs:747-757 | starts and ends alternate per tool, fragments fall between them, the message starts at most once and before every update |
| ClaudeHistory.NestedToolsFollowHistory | crates/arky-claude-code/src/provider.rs:917-1076 | in every accepted run both nested maps hold the same parents and children, and each store is the summary of the registrations since the parent's last result |
| ClaudeHistory.ParentResultListsItsChildren | crates/arky-claude-code/src/provider.rs:1069-1076 | a parent's result lists each child registered since its last one once, in first-registration order |
| ClaudeHistory.MessagesCarryTheStreamedText | crates/arky-claude-code/src/provider.rs:804-828 | every event that carries the message carries exactly the text streamed up to it |
| ClaudeHistory.TurnEndsReportTopResults | crates/arky-claude-code/src/provider.rs:1092-1130 | a turn end reports the results of the top-level tools finished before it, in order |
| ClaudeEndToEnd.RuntimeFollowsTracker | crates/arky-claude-code/src/provider.rs:804-1104 | the runtime refuses an event if and only if the tracker does, or it is a snapshot longer than the count with no boundary there |
| ClaudeEndToEnd.CountsItsWindow | crates/arky-claude-code/src/provider.rs:804-1112 | the deduplicator counts exactly the texts since its last reset |
| ClaudeEndToEnd.OrderlyTranscriptsStream | crates/arky-claude-code/src/provider.rs:280-299 | a transcript that follows the rules streams to its end if and only if none of its snapshots is cut inside a character, seen from its texts alone |
| ClaudeEndToEnd.AsciiTranscriptsStream | crates/arky-claude-code/src/provider.rs:280-299 | it does so whenever its snapshots are ASCII |
| ClaudeEndToEnd.EveryTranscriptCarriesText | crates/arky-claude-code/src/provider.rs:804-820 | the texts of every transcript are parts of one whole text, at least with each of them new |
| ClaudeEndToEnd.TextComesOutOnceExactly | crates/arky-claude-code/src/provider.rs:804-1112 | over a whole transcript the message holds at every point exactly what the texts have carried, if and only if each text comes once, counted from the last reset |
| ClaudeEndToEnd.SecondRecordLeavesNoText | crates/arky-claude-code/src/parser.rs:354-398 | of two unstreamed assistant records, a second one that is no longer than the first leaves nothing in the message |
| ClaudeEndToEnd.RepeatedAfterToolStart | crates/arky-claude-code/src/provider.rs:917-925 | a streamed text that a snapshot repeats after a tool start is in the message twice |
| CodexRuntime.TextAccumulator.PushDelta | crates/arky-codex/src/accumulator.rs:38-51 | the message's text grows by exactly the fragment |
| CodexRuntime.TextAccumulator.ApplySnapshot | crates/arky-codex/src/accumulator.rs:54-62 | the message's text is the snapshot |
| CodexRuntime.ToolTracker.Start | crates/arky-codex/src/accumulator.rs:112-135 | the tool is open with no output, replacing an earlier one of its id |
| CodexRuntime.ToolTracker.PushOutput | crates/arky-codex/src/accumulator.rs:137-159 | the output grows by the fragment; an unknown tool is opened |
| CodexRuntime.ToolTracker.Complete | crates/arky-codex/src/accumulator.rs:161-195 | the result holds the streamed output and the own result; the tool is no longer open |
| CodexRuntime.ToolTracker.FailOpenTools | crates/arky-codex/src/accumulator.rs:203-220 | each open tool fails once with its output, in the map's order, and none stays open |
| CodexRuntime.StreamRuntime.FinalizeOpenState | crates/arky-codex/src/provider.rs:603-627 | closes every open tool and then a started message, once |
| CodexRuntime.StreamRuntime.HandleMessageDelta | crates/arky-codex/src/provider.rs:709-726 | starts the message if need be, adds the fragment and says so |
| CodexRuntime.StreamRuntime.HandleMessageComplete | crates/arky-codex/src/provider.rs:728-749 | starts and ends the message at most once |
| CodexRuntime.StreamRuntime.HandleToolUpdate | crates/arky-codex/src/provider.rs:814-831 | the tool's output grows by the printed partial result |
| CodexRuntime.StreamRuntime.HandleToolComplete | crates/arky-codex/src/provider.rs:833-849 | the result is kept for the turn end and announced |
| CodexRuntime.StreamRuntime.HandleTurnCompleted | crates/arky-codex/src/provider.rs:851-865 | everything open is closed, then the turn ends with all results |
| CodexRuntime.StreamRuntime.HandleNotification | crates/arky-codex/src/provider.rs:629-692 | each notification goes to its handler; a failed turn is an error |
| CodexRuntime.StreamTurn | crates/arky-codex/src/provider.rs:267-337 | completes exactly when the first terminal notification is a completion; otherwise says how the stream ends |
| CodexGrammar.RunsFollowTheGrammar | crates/arky-codex/src/provider.rs:603-865 | every run's events are accepted by a reader that knows only the grammar |
| CodexGrammar.EventOrder | crates/arky-codex/src/provider.rs:694-849 | the message starts and ends at most once and in order; each tool end reports the text streamed since the tool's last start or end, and at most one item after it |
| CodexGrammar.CompletionReportsEverything | crates/arky-codex/src/accumulator.rs:161-195 | a completion's content is the whole streamed text and then its own result, or an empty object if there is neither |
| CodexGrammar.OpenToolsReportTheirText | crates/arky-codex/src/accumulator.rs:203-220 | a tool left open reports its whole streamed text and that it never completed |
| CodexGrammar.MessagesCarryWhatWasSpoken | crates/arky-codex/src/provider.rs:694-865 | every event that updates or ends the message, or ends the turn, carries the last snapshot with the deltas since |
| CodexGrammar.UpdateFollowsEndExactly | crates/arky-codex/src/provider.rs:709-749 | the message is updated after its end if and only if a delta is handled after a completion |
| CodexGrammar.LateDelta | crates/arky-codex/src/provider.rs:709-726 | a run with such an update |
| CodexGrammar.FinishedTurn | crates/arky-codex/src/provider.rs:851-865 | one turn end, last, with the results of all tool ends in order for any drain order; a started message has ended and no tool is left open |
| CodexGrammar.InterruptedTurnIsClosed | crates/arky-codex/src/provider.rs:327-337 | without a terminal notification every tool and the message are still closed |
| SixBitGroups.ShiftsAreSixes | crates/arky-claude-code/src/conversion.rs:505-511 | the four shifted and masked groups are the four six-bit groups of three bytes |
| Base64.DecodeInvertsEncoding | crates/arky-claude-code/src/conversion.rs:497-531 | a decoder gets every byte sequence back (section 4 of RFC 4648) |
| Base64.EncodingInvertsDecode | crates/arky-claude-code/src/conversion.rs:497-531 | the strings a strict decoder accepts are exactly the encodings |
| Base64.EncodingShape | crates/arky-claude-code/src/conversion.rs:500-501 | length 4 * ceil(n / 3), alphabet and padding only |
| Base64.EncodeBase64 | crates/arky-claude-code/src/conversion.rs:497-531 | the loop over whole groups and the remainder computes that encoding |
| Base64.EncodeRemainder | crates/arky-claude-code/src/conversion.rs:515-528 | the last one or two bytes, padded |
| DataUrls.SplitAtFirst | crates/arky-claude-code/src/conversion.rs:541 | the first separator of a data URL is the one it was built with, when the type holds none |
| DataUrls.DataUrlParses | crates/arky-claude-code/src/conversion.rs:535-555 | the trimmed type and the exact encoding come out if and only if the type is not blank and holds no separator (section 3 of RFC 2397) |
| DataUrls.DataUrlAgreesWithBytes | crates/arky-claude-code/src/conversion.rs:318-369 | for every type and all data, a data URL and the bytes it encodes make the same image part if and only if the type it is read with is unsupported, or there is data and the type holds no separator |
| Flatten.FlattenOverrideObject | crates/arky-codex/src/provider.rs:428-444 | the recursive loop inserts every leaf under its dotted key, in walking order |
| Flatten.DottedInjective | crates/arky-codex/src/provider.rs:434 | distinct leaves of dot-free keys never collide on a dotted key |
| Flatten.DottedMeetExactly | crates/arky-codex/src/provider.rs:434 | two paths meet on a dotted key if and only if splitting their keys at the dots gives the same path |
| Flatten.DotsCollide | crates/arky-codex/src/provider.rs:434 | every path meets the path of its split keys, which is another one if and only if some key has a dot |
| Flatten.LeavesSurviveExactly | crates/arky-codex/src/provider.rs:428-444 | every leaf is found under its dotted key if and only if leaves that meet have the same value |
| Flatten.FlattenUpdatesExactlyTheLeaves | crates/arky-codex/src/provider.rs:428-444 | the old map updated with exactly the prefixed leaf paths |
| Flatten.FlattenRoundTrips | crates/arky-codex/src/provider.rs:428-444 | splitting the keys at their dots and inserting the values, in any order, gives the object back if and only if no key has a dot and no nested object is empty |
| NestedMaps.GetInserted | crates/arky-config/src/loader.rs:1064-1088 | reading a path just inserted returns the inserted value |
| NestedMaps.GetElsewhere | crates/arky-config/src/loader.rs:1064-1088 | reading a path incomparable with it is unchanged |
| NestedMaps.InsertIsIdleExactlyWhenPresent | crates/arky-config/src/loader.rs:1064-1077 | an insertion changes nothing if and only if the value is already there |
| NestedMaps.CommuteExactly | crates/arky-config/src/loader.rs:1064-1088 | two insertions commute if and only if their paths are incomparable or the longer one's value is already in the shorter one's |
| NestedMaps.InsertionOrderDoesNotMatter | crates/arky-config/src/loader.rs:1064-1088 | pairwise incomparable paths give the same tree in every order |
| EnvOverrides.NormalizeSegments | crates/arky-config/src/loader.rs:1043-1062 | segments in lower case up to `env`, after which the rest is one segment |
| EnvOverrides.LoadEnvOverrides | crates/arky-config/src/loader.rs:1007-1028 | exactly the variables with the prefix and a path are inserted, in order |
| EnvOverrides.EnvironmentOrderDoesNotMatter | crates/arky-config/src/loader.rs:1007-1028 | variables of pairwise incomparable paths give the same overrides in whatever order they are listed |
| EnvOverrides.OrderCanMatter | crates/arky-config/src/loader.rs:1007-1028 | two variables, one inside the other, whose order decides what is overridden |
| ConfigMerge.MergeNamedMap | crates/arky-config/src/merge.rs:99-113 | the loop merges shared names and keeps the others of both sides |
| ConfigMerge.MergeTwoConfigs | crates/arky-config/src/merge.rs:15-25 | workspace, providers, profiles and agents are merged each with its own merge |
| ConfigMergeLaws.MergeAssociates | crates/arky-config/src/merge.rs:15-136 | merging is associative |
| ConfigMergeLaws.EmptyIsIdentity | crates/arky-config/src/merge.rs:15-136 | the default configuration is a two-sided identity |
| ConfigMergeLaws.LoadIsOneFold | crates/arky-config/src/loader.rs:938-957 | loading is one fold over file, environment and builders |
| ConfigMergeLaws.MergeSetsLeaf | crates/arky-config/src/merge.rs:15-136 | at every leaf the overlay wins where it sets one |
| ConfigMergeLaws.LastSourceWins | crates/arky-config/src/merge.rs:15-136 | every leaf has the value of the last source that sets it |
| ConfigMergeLaws.UnsetStaysUnset | crates/arky-config/src/merge.rs:15-136 | a leaf no source sets is not set |
| ConfigMergeLaws.LoadPrecedence | crates/arky-config/src/loader.rs:945-957 | builder over environment over file, at every leaf |
| ConfigMergeLaws.OverlayUnchangedExactly | crates/arky-config/src/layered.rs:279-290 | an overlay comes out of a merge unchanged if and only if it sets every field the base sets, down to the nested base |
| ConfigMergeLaws.LayersAssociateExactly | crates/arky-config/src/layered.rs:279-290 | merging typed layers associates if and only if the outer two differ in variant, or the first two do not, or the last sets every field the first sets |
| ConfigMergeLaws.LayerBetweenDropsField | crates/arky-config/src/layered.rs:279-290 | three layers that do not associate |
| LineSplitting.LinesAndRestAreTheText | scripts/markdown/check.go:2437-2449 | lines and leftover are the text cut at its line feeds, nothing lost |
| LineSplitting.SplitAnywhere | scripts/markdown/check.go:2436-2449 | cutting a first part on its own and carrying its rest over changes nothing |
| LineSplitting.SameBytesSameLines | scripts/markdown/check.go:2436-2449 | any two splits of the same bytes into chunks yield the same lines and the same leftover |
| ByteSlices.ByteBuffer.Append | scripts/markdown/check.go:2436 | appending in place or into a grown array |
| ByteSlices.ByteBuffer.EndLineInPlace | scripts/markdown/check.go:2444 | the appended line feed overwrites one byte of the backing array and no other |
| LineRings.LineRing.AppendLine | scripts/markdown/check.go:5091-5101 | the ring keeps holding the last `capN` non-empty lines offered |
| LineRings.LineRing.Snapshot | scripts/markdown/check.go:5103-5109 | the last `capN` non-empty lines |
| LineWriters.LineWriter.PassLine | scripts/markdown/check.go:2438-2448 | one line is passed on, and no unconsumed byte is altered by the line feed written in place |
| LineWriters.LineWriter.Write | scripts/markdown/check.go:2431-2451 | passes on the lines of what was held and written, and holds the rest |
| LineWriters.WriteChunks | scripts/markdown/check.go:5216-5234 | over any chunks, filter and formatter pass on the lines of all bytes and hold what follows the last |
| LineWriters.UiLogTap.Write | scripts/markdown/check.go:5167-5197 | the ring is offered the trimmed lines of what was held and written |
| LineWriters.TapChunks | scripts/markdown/check.go:5167-5197 | over any chunks, the ring shows the last non-empty lines of all bytes |

## Left out

- NotificationRouting.NotificationRouter.Dispatch: selection, sends and prune are one step; in the source they are under separate locks, so other calls can come in between. What a prune does that comes late is `LatePruneHitsSuccessors`; sends that come late are not part of this model. A channel's `queue` is everything ever sent to it; receiving is not modelled.
- NotificationRouting.NotificationRouter.DispatchToScope: one step, as for `Dispatch`.
- NotificationRouting.NotificationRouter.DispatchGlobal: one step, as for `Dispatch`.
- NotificationRouting.NotificationRouter.DispatchToThread: one step, as for `Dispatch`.
- NotificationRouting.NotificationRouter.FailEveryone: draining the indexes and sending the error are one step.
- NotificationRouting.NotificationRouter.RegisterThread: drawing the id and filing the registration are one step.
- TransportInvariant.ExecKeeps: a request may time out or see the fatal latch whenever it waits, which allows more interleavings than the biased `select!`; senders wait for room in no particular order, a closed write loop may linger, and the transport is not dropped.
- Transport.RpcTransport.HandleLine: reading JSON text is a parameter; a read error arrives as the end of reading.
- RpcFrames.ParseReadsFrame: starts from a JSON value; JSON text is not part of this model.
- Scheduling.Scheduler.TryAcquire: a semaphore that may hand a free permit to anyone, with no fairness between waiters and newcomers; its closed state is not modelled.
- Registry.CodexServerRegistry.AcquireLease: one step per key, where the source checks, replaces and inserts under separate locks.
- Registry.CodexServerRegistry.FinalizeIdleShutdown: an aborted timer may still fire, which allows more runs than the source has.
- Registry.CodexServerRegistry.DisposeAllServers: a server whose shutdown failed counts as shut down.
- Registry.CodexServerRegistry.ReleaseLease: the release always runs, where the source needs a runtime handle at the time of the drop.
- ClaudeParsing.ClaudeEventParser.ParseRecord: records come with their fields looked up and trimmed; usage figures are left out.
- ClaudeRuntime.StreamRuntime.HandleInput: the tool codec and the JSON reader are parameters; timestamps, ids, session recording, usage and warnings are left out, and so is the classified error a failed finish ends with.
- ClaudeRuntime.StreamRuntime.HandleFinish: the error a failed finish is classified as is reduced to a flag.
- ClaudeRuntime.StreamRuntime.EmitNestedPreview: two previews are compared as records, not as printed text.
- ClaudeRuntime.Stream: the end of the process after the last line is left out.
- CodexRuntime.StreamTurn: starts from normalized notifications that passed the deduplicator; the dispatcher's method tables, the metadata events (which draw sequence numbers of their own), usage and message part ids are left out.
- Base64.EncodeBase64: the table is given by the ranges of its characters.
- EnvOverrides.LoadEnvOverrides: up to the JSON object; reading it as a partial configuration is not part of this model.
- ConfigMergeLaws.LoadPrecedence: up to validation, which is not part of this model; paths and numbers are plain values.
- LineWriters.LineWriter.Write: destinations that fail, activity monitors and usage callbacks are left out, `formatLine` is a parameter, and white space is ASCII.
- LineWriters.UiLogTap.Write: one ring instead of a pair, and no message to the interface.
- Process spawning, stdio, clocks, tracing and the asynchronous runtime are environment.
- Cooldown tracking, approvals, usage arithmetic, model-id checks, argument building, profiles, error patterns, the MCP bridge, and the rest of the markdown checker would only add easy members.
