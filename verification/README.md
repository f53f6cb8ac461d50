# Verified models of the ranch event bus

ranch is an in-process event bus with transactions, a versioned and replicated key-value store, and a STOMP server
that is bridged onto the bus.  This project models the parts of it that keep state between calls or are reached from
several goroutines, and proves what they promise.

`dafny verify dfyconfig.toml` checks everything.

How the models are built:

* A class of the source that changes its fields is a class here, with methods that take the same branches; each
  method states its whole new state, mostly as a function of the old one, and keeps a `Valid()` that ties the fields
  to a ghost history or to a step function.
* Where the promise is about interleavings, a state machine has one step per lock section, atomic operation or
  channel operation, taken by any number of callers in any order.  `Runs.Run` runs such a machine on a list of actions;
  an action that is not possible leaves the state as it is, so every list of actions is a run, and a theorem over all
  lists is a theorem over all interleavings.
* Payloads, handlers and middleware are opaque values or numbers.

## What is proved

**Store and replication** (`BusStore`, `StreamDelivery`, `StreamOrder`, `StreamOutlook`, `Replication`, `SyncSystem`,
`SyncRequests`, `StoreResets`, `GalacticStore`, `SyncService`, `Readiness`).
The fields of a store are the replay of its history.  In every interleaving of commits, notifications, Subscribe and
Unsubscribe a stream that stays subscribed gets each matching change as often as it is registered.  That is once if no
Unsubscribe of it overlapped a Subscribe and the store was not reset; and an Unsubscribe keeps it sure to be once
exactly if no Subscribe of the stream is between its two sections.  The next change comes in commit order, under every
schedule, exactly if no announcement under way still has the stream before it.
`SyncRequests` ties the snapshots to the requests: each openStore is read once, as the store is at that moment, and sent
once.  A client that applies a snapshot taken at log position `n` and then the updates from an earlier
position on ends with the primary's items and version, exactly if no key was last set to nil; `SyncSystem` carries
this to every run of a primary with any number of clients.  The code does not make reading a snapshot and sending
it one step, and a run is given in which an update overtakes the snapshot and the replica never recovers.  The two
tables of the sync service stay inverse exactly as long as requests come from registered clients; a late open request
leaves a listener that nothing removes.

**Bus** (`Activity`, `Channel`, `RunOnce`, `HandlerClose`, `Wrapping`).  When Fire reports success, the request was
dispatched to everything subscribed, and that dispatch and all that it caused on the channel are over for good.  A
run-once handler is in exactly one batch if it has fired and in none otherwise, in every interleaving with stale
snapshots.  After one HandleContext and one Close the handler is off the channel, however they interleave; and until a
Close it is on it.

**Transactions** (`Transaction`, `TransactionRuns`, `TransactionListeners`, `TransactionProgress`).  One outcome, for
good, over all orders of responses, errors and cancellation; every slot holds the response that carries its own
request's id, the first that its listener's wrapper let through.  The next request is due exactly when it should be,
so that a committed transaction can always complete unless it is cancelled.

**STOMP and Fabric** (`ConnectionGrammar`, `StompConn`, `StompServer`, `Endpoint`, `EndToEnd`, `Takeover`, `Router`).
The frame loop emits exactly the traces of a grammar; the server's index holds exactly the subscriptions those traces
leave live, and its callbacks open and close each in turn; the endpoint's mappings follow the callbacks.
`EndToEnd.MappingsFollowFrames` composes the three, from raw frames to bus channels, for every interleaving.
`Takeover` shows that a fallback forwarder and a route never serve a channel together while the route is open, and
when a route that was registered has its stream on the channel: always, exactly if the channel was not auto-created.

**REST bridges** (`RestBridges`, `HttpRouting`, `ServedBridges`).  Key lists, handlers and named routes agree after any
calls, and after a late switch of routers exactly if nothing was added since the clear.  Cached muxes are those of the
current routes, with the first registration of a pattern winning; so a bridge is served by its own handler exactly if no
earlier bridge asks for its pattern.

## Where the code does less than one might expect

These are results: each has a lemma with the exact condition, and most have a run that shows the failure.

* A nil value that is put travels as a removal (`Replication.OverlappingCatchUp`, store/store.go:212-217).
* A snapshot that is overtaken by an update leaves the replica behind for good (`Replication.ItemsAgree`,
  `SyncSystem.OvertakenSnapshotDiverges`, store/store_sync_service.go:178-185).
* A Reset silences replication until a client opens the store when none has it open (`StoreResets.ResetDetaches`,
  `StoreResets.ResetSilences`, store/store.go:131-138, store/store_sync_service.go:168-176); and it does not stop an
  announcement that is pending, which reaches clients that open the store after it
  (`StoreResets.StaleAfterResetExactly`, `StoreResets.AnnouncedAfterReset`, store/store.go:352-357).
* A stream that is subscribed across a Reset hears of nothing that is announced after it, until it is unsubscribed and
  subscribed again (`StreamDelivery.ResetDeafens`, store/store.go:572-590).
* Commits may be announced in another order than they were made, also to streams that subscribed after them
  (`StreamOutlook.PutInOrderExactly`, `StreamOutlook.MayStillHearExactly`, with the runs `StreamOrder.OutOfOrder` and
  `StreamOrder.OlderThanSubscription`, store/store.go:352-357); and a stream whose Unsubscribe overlaps its Subscribe
  may be called twice with every change from then on (`StreamDelivery.UnsubscribeSafeExactly`,
  `StreamOrder.DoubleDelivery`, store/store_stream.go:64-85).
* A request processed after its channel was destroyed leaks a listener (`SyncServices.ServingKeeps`,
  `SyncServices.LateOpenLeaks`).
* A WhenReady callback whose epoch is reset before Initialize never runs (`Readiness.WakesExactly`).
* A route registered on an auto-created channel may end up in the table with its stream on no channel
  (`Takeover.RouteAliveExactly`), and closing a route lets a forwarder and the stream overlap
  (`Takeover.ClosingOverlapsExactly`).
* A route for a channel whose name begins with a slash sends to subscribers of the name without it
  (`Routers.DefaultDestinationNamesChannel`).
* A REST bridge set between ClearForService and SetRouter is lost (`RestBridges.SetsBeforeSwitchExactly`,
  `RestBridges.LostBridge`); and one whose pattern an earlier bridge has asked for is not served
  (`ServedBridges.ServedExactly`, `ServedBridges.ShadowedExactly`).

## Model

| member | source | states |
|---|---|---|
| BusStores.VersionsCountChanges | store/store.go:380-392 | between Resets the k-th effective Put or Remove carries StoreVersion k+1: versions are dense and start at 2 |
| BusStores.CommitExtends | store/store.go:380-465 | one more operation that the store may commit keeps the history committed, and its replay is the old image with that operation applied |
| BusStores.BusStore.Populate | store/store.go:319-336 | fills an empty store and initializes it, without a version step or a notification, and fails on a store with items |
| BusStores.BusStore.Put | store/store.go:342-392 | commits exactly one change with the next version, unless the context is cancelled; items, version and every subscribed stream stay those of the history |
| BusStores.BusStore.Remove | store/store.go:412-465 | removes an item that is there, and tells the streams; an absent key or a cancelled context changes nothing and tells nobody |
| BusStores.BusStore.OnStoreChange | store/store.go:541-560 | when nothing else runs meanwhile, every registered stream has then seen exactly the matching changes since it subscribed, once each and in order |
| BusStores.BusStore.AllValuesAndVersion | store/store.go:493-504 | the copy is of the items and the version of one moment |
| BusStores.BusStore.Reset | store/store.go:572-590 | back to the empty store at version 1, with no streams |
| BusStores.BusStore.OnStreamUnsubscribe | store/store.go:631-648 | exactly the given stream leaves the registry, whatever order swap-removal leaves behind |
| BusStores.SwapRemovedKeepsOthers | store/store.go:643-647 | swap-removal loses the chosen element and nothing else |
| BusStores.MatchingGrows | store/store_stream.go:29-43 | a stream's due changes grow by the new change exactly if its filter matches |
| BusStores.OnChange | store/store.go:603-608 | the filter matches exactly the changes of the given item in one of the given states, or in any if none are given |
| BusStores.OnAllChanges | store/store.go:610-615 | the filter matches exactly the changes in one of the given states, of whatever item, or all changes if no states are given |
| BusStores.StoreStream.Subscribe | store/store_stream.go:59-74 | registers once; a nil handler or a second Subscribe fails and changes nothing |
| BusStores.StoreStream.Unsubscribe | store/store_stream.go:76-87 | leaves the registry without disturbing other streams; fails when not subscribed |
| StreamDelivery.EachChangeExactly | store/store.go:541-560 | in every interleaving a stream that stays subscribed is called with each matching change announced from then on as often as it is registered: once, plus the deregistrations that found nothing, less the registrations that a Reset threw away |
| StreamDelivery.EachChangeOnce | store/store_stream.go:59-87 | exactly once, if no Unsubscribe of the stream ever came between the two sections of a Subscribe |
| StreamDelivery.UnsubscribeSafeExactly | store/store_stream.go:76-87 | an Unsubscribe leaves the stream sure of a single registration whenever it is subscribed again, exactly if no Subscribe of it is between setting the handler and registering |
| StreamDelivery.OverlapMayDouble | store/store_stream.go:59-87 | otherwise the stream may come to be registered twice |
| StreamDelivery.RunsKeep | store/store.go:617-648 | in every interleaving registrations balance against handlers and pending calls, and every call has delivered what it has passed |
| StreamDelivery.CallsAreCommits | store/store.go:342-359 | in every run there is one announcement for each commit, in commit order, and it is of that change |
| StreamDelivery.HandlerExactly | store/store_stream.go:64-87 | in every run a stream has a handler exactly if one was set and not cleared since |
| StreamDelivery.SubscribeDoes | store/store_stream.go:64-74 | setting a handler leaves one registration to do, and that adds the stream once |
| StreamDelivery.UnsubscribeDoes | store/store_stream.go:76-87 | clearing it leaves one deregistration to do, which takes the stream out once if it is there |
| StreamDelivery.ResetDeafens | store/store.go:572-590 | in every interleaving a stream that is subscribed across a Reset, and not unsubscribed, is called with no change whose announcement copies the registry after it |
| StreamOrder.HistoryInOrder | store/store.go:342-359 | announced in commit order, a stream that stays subscribed receives exactly the matching changes committed meanwhile, once each and in order |
| StreamOrder.InOrderRun | store/store.go:352-357 | announced in commit order, what any stream receives is in commit order |
| StreamOrder.OutOfOrder | store/store.go:352-357 | a run in which two Puts reach a stream in the other order |
| StreamOutlook.PutInOrderExactly | store/store.go:352-357 | at any state before a Put: until the next Put a subscribed stream hears in commit order, under every schedule, exactly if no announcement under way still has the stream before it |
| StreamOutlook.MayStillHearExactly | store/store.go:541-560 | a subscribed stream may still hear of an earlier commit, made before its subscription or after, exactly if the announcement of that commit still has the stream before it |
| StreamOutlook.PastIsNotHeard | store/store.go:551-559 | an announcement that is past a stream never calls it again, whatever follows |
| StreamOrder.OlderThanSubscription | store/store.go:352-357 | a run in which a stream hears of a change committed before it subscribed |
| StreamOrder.DoubleDelivery | store/store_stream.go:59-87 | a run in which a subscribed stream is called twice with one change |
| Replication.OverlappingCatchUp | store/store_sync_service.go:166-186 | a snapshot taken at n, followed by the updates from a <= n to m, gives the primary's version at m, and its items exactly if no key was last set to nil in that window |
| Replication.ItemsAgree | store/store_sync_service.go:285-300 | for any order of n and a: replica and primary agree exactly if no key ends in a nil put and nothing is lost in the gap between reading the snapshot and the first update |
| Replication.UntouchedAgrees | store/store_sync_service.go:178-185 | a key that no update touches is right in the replica exactly if the log between reading the snapshot and the first update leaves it as the snapshot has it |
| Replication.OutcomeAt | store/store.go:131-138 | what a stretch of the log, Populate and Reset included, leaves at a key |
| Replication.ReplicaAt | store/store.go:179-229 | each key of the replica is what the last forwarded change left there, or the snapshot's if there was none |
| Replication.PrimaryAt | store/store.go:380-465 | each key of the primary is what the last change left there |
| SyncSystem.DrainedClientAgrees | store/store_sync_service.go:150-186 | in every run of primary, listener, queues and clients, a drained client that is linked holds the primary's state exactly if no key was last put as nil and no change was announced between reading and sending its content that nothing later overwrote; `SyncRequests` says when a client is linked and what its content is |
| SyncRequests.ServedClientAgrees | store/store_sync_service.go:150-186 | the same in terms of requests alone: in every run, for a client sent a snapshot while it had the store open and the listener was registered, and not cut off since, with the snapshot it was sent last, which is the whole log as it was when one of its openStore requests was read |
| SyncRequests.SnapshotIsCurrent | store/store_sync_service.go:178-185 | from any state: the snapshot read for an openStore, sent before anything else happens, leads the client to exactly what the store holds when it is read, whatever waits in its queue |
| SyncRequests.LinkIsARead | store/store_sync_service.go:178-185 | in every run a linked client's content was read in answer to one of its openStore requests, is the log of that moment, and is the one it was sent last; and its updates follow from what was announced when it was sent |
| SyncRequests.LinkedExactly | store/store_sync_service.go:150-210 | in every run a client is linked exactly if it was sent a snapshot with the store open, the listener registered and nothing silent pending, and nothing has cut it off since |
| SyncRequests.RequestsAreServed | store/store_sync_service.go:178-185 | in every run each openStore is read once and each snapshot read is sent once |
| SyncRequests.OpenExactly | store/store_sync_service.go:166-210 | in every run a client has the store open exactly if it opened it once connected and has not closed it since |
| SyncRequests.PrimaryFollows | store/store.go:380-465 | a Put and an effective Remove change the primary by one key and one version; no request of a client changes it |
| SyncSystem.RunsKeep | store/store_sync_service.go:274-305 | in every run, what is under way to a linked client leads it to its content plus the updates announced since |
| SyncSystem.OvertakenSnapshotDiverges | store/store_sync_service.go:178-185 | a run in which an update is sent between reading and sending the snapshot, and the drained client has lost the item |
| StoreResets.ResetDetaches | store/store.go:131-138 | after a Reset, as from the start, the listener is registered exactly if some Open came when no client had the store open, and some client has had it open ever since |
| StoreResets.ResetSilences | store/store_sync_service.go:168-176 | until such an Open no client is sent an update, whatever is put, removed and announced |
| StoreResets.HearsAfterResetExactly | store/store_sync_service.go:285-300 | in every run after a Reset, announcing a change sends it to a client with the store open exactly if some Open came when no client had it open, and some client has had it open ever since |
| StoreResets.NotifySendsExactly | store/store_sync_service.go:285-300 | announcing a change sends it once to a client that has the store open while the listener is registered, and to no other |
| StoreResets.StaleAfterResetExactly | store/store.go:352-357 | at any state before a Reset: a change committed before it may still be sent to a client after it exactly if its announcement is pending |
| StoreResets.AnnouncedAfterReset | store/store.go:352-357 | a run in which a client that opened the store after a Reset is left with an item put before it |
| StoreResets.ResetLosesUpdates | store/store.go:131-138 | a run in which a client with the store open never hears of the Put after a Reset |
| GalacticStores.GalacticStore.HandleResponse | store/store.go:150-248 | a message of the sync service has the effect the catch-up theorem assumes; foreign and malformed responses have none; an update that does not convert moves only the version |
| GalacticStores.GalacticStore.LoadItems | store/store.go:191-200 | exactly the items that convert replace the old ones |
| SyncServices.ServingKeeps | store/store_sync_service.go:86-210 | a request keeps openStores and the listeners inverse to each other exactly if it comes from the registered client or changes nothing about what is open |
| SyncServices.OrderlyRunsKeep | store/store_sync_service.go:86-210 | every run of such requests keeps the relations inverse, no listener empty, and every stream used once or unsubscribed exactly once |
| SyncServices.RequestsDo | store/store_sync_service.go:166-210 | a request of the registered client opens or closes the one store for its channel, and nothing else |
| SyncServices.OpeningKeeps | store/store_sync_service.go:150-176 | the exact condition for an open request |
| SyncServices.ClosingKeeps | store/store_sync_service.go:188-210 | the exact condition for a close request |
| SyncServices.DestroyingKeeps | store/store_sync_service.go:126-148 | destroying a client's channel removes it from every listener and keeps the relations inverse |
| SyncServices.LeaveKeeps | store/store_sync_service.go:137-145 | a leaving client unsubscribes the stream of a listener exactly if it was the last, and never twice |
| SyncServices.LateOpenLeaks | store/store_sync_service.go:150-176 | an open request after its channel was destroyed leaves a listener for a dead channel that destroying it again does not remove |
| SyncServices.StoreSyncService.OpenNewClientSyncChannel | store/store_sync_service.go:86-124 | registers a fresh client with nothing open, once per channel |
| SyncServices.StoreSyncService.CloseClientSyncChannel | store/store_sync_service.go:126-148 | in any state, the client leaves every store of its own table, and its listeners with it; consistent relations stay consistent |
| SyncServices.StoreSyncService.OpenStore | store/store_sync_service.go:150-176 | joins the listener, creating it for the first client; an empty id or an unknown store changes nothing |
| SyncServices.StoreSyncService.CloseStore | store/store_sync_service.go:188-210 | leaves the listener, unsubscribing its stream with the last client; an empty id changes nothing |
| Readiness.NothingTwice | store/store.go:562-601 | over every interleaving no ready channel is closed twice and no callback runs twice |
| Readiness.RanAfterInitialize | store/store.go:592-601 | a callback that ran was registered in an epoch whose channel an Initialize of that epoch had closed before |
| Readiness.ClosedExactly | store/store.go:562-570 | an epoch's channel is closed exactly if Initialize was called in that epoch |
| Readiness.WakesExactly | store/store.go:592-601 | a callback's turn comes exactly if the epoch it registered in was initialized |
| Readiness.Lifecycle.Reset | store/store.go:131-138 | a new channel and an unused initializer |
| Readiness.Lifecycle.Wake | store/store.go:597-600 | the goroutine of a WhenReady call goes on only once its own channel is closed, and ends there |
| Activities.QuiescentIsOver | bus/channel.go:67-98 | with nothing outstanding after a watermark, each later dispatch and all it caused have ended |
| Activities.OverForGood | bus/channel.go:44-65 | once over, a dispatch stays over and causes nothing more, whatever others do |
| Activities.OutstandingExactly | bus/channel.go:50-65 | in every run a number is outstanding exactly if a dispatch began with it and has not ended since |
| Activities.CauseIsRecorded | bus/channel.go:50-58 | in every run the dispatch whose handler sent a dispatch stays on record as its cause |
| Activities.ChannelActivity.WaitQuiescentAfter | bus/channel.go:67-98 | quiescence is reported only at an instant at which nothing after `start` is outstanding, although others begin and end dispatches at every wait |
| Activities.ChannelActivity.HasOutstandingAfter | bus/channel.go:100-107 | whether some outstanding number lies in (start, target] |
| Activities.ChannelActivity.Begin | bus/channel.go:50-58 | the next number, outstanding, larger than every one before |
| Channels.Channel.FireContext | bus/message_handler.go:125-140 | success means that the request was dispatched to every subscribed handler, in order, but for run-once handlers that had fired, and that this dispatch and everything it transitively caused on the channel have ended; the list loses fired run-once handlers alone |
| Channels.Channel.DispatchContext | bus/channel.go:163-198 | the batch is in subscription order, has every handler of the snapshot that is not a fired run-once handler, and claims each run-once handler in it; those leave the list, and no other handler that has not fired does |
| Channels.Channel.Rebuild | bus/channel.go:218-272 | a copy of the list without the given id and without exactly the run-once handlers seen fired |
| Channels.Channel.UnsubscribeHandler | bus/channel.go:234-253 | the handler with that id is off the list, the others keep their order, and `found` says whether it was there |
| Channels.Channel.PruneFiredRunOnceHandlers | bus/channel.go:255-272 | every run-once handler fired before the call is off the list |
| Channels.Channel.RemoveEventHandler | bus/channel.go:275-292 | removes exactly the position given, if it exists |
| RunOnce.FiredOnce | bus/channel.go:163-292 | in every interleaving, stale snapshots included, a run-once handler is in exactly one batch if it has fired and in none otherwise |
| RunOnce.ListAlwaysExact | bus/channel.go:218-292 | in every interleaving the list is in subscription order, with everything neither removed nor fired and nothing removed |
| RunOnce.BatchIsComplete | bus/channel.go:163-198 | in every interleaving a dispatch that walked its whole snapshot has, in order, everything on the list when it started but run-once handlers that had fired; and never anything else |
| RunOnce.ListStepDoes | bus/channel.go:218-292 | subscribing puts a new handler on the list, unsubscribing leaves none of the id, pruning none seen fired; nothing else leaves it |
| RunOnce.ClaimAdvances | bus/channel.go:172-187 | a claim takes a dispatch one handler on, into its batch unless it is a run-once handler that has fired |
| RunOnce.ClaimFires | bus/channel.go:178-184 | claiming by compare-and-swap keeps fired equal to being in exactly one batch |
| RunOnce.WithoutKeeps | bus/channel.go:218-272 | dropping handlers keeps the order and exactly the others |
| HandlerClose.NoLeak | bus/message_handler.go:79-111 | once HandleContext and some Close have returned, the handler is not on the channel and never comes back, in every interleaving |
| HandlerClose.SubscribedExactly | bus/message_handler.go:79-111 | in every run a subscribed handler is on the channel as long as nobody calls Close; and after HandleContext exactly as long as every Close came after the id was stored and has yet to unsubscribe it |
| HandlerClose.MessageHandler.HandleContext | bus/message_handler.go:79-100 | with other goroutines between its steps, it leaves the handler on the channel exactly if every call of Close found its id and has yet to unsubscribe it: with no Close it is subscribed, and with one that has returned it is not |
| HandlerClose.MessageHandler.Close | bus/message_handler.go:102-111 | with other goroutines between its steps, it leaves no subscription if HandleContext has returned |
| Wrapping.CallsExactly | bus/eventbus.go:409-495 | a stream handler gets every message that passes its filter before cancellation, in order; a run-once handler gets the first, as message or error, and no other |
| Wrapping.HeardExactly | bus/eventbus.go:259-326 | what each kind of listener hears: errors fail all; streams hear their direction, those of a destination what is addressed to it alone, and the firehose everything |
| Wrapping.WrappedHandler.Receive | bus/eventbus.go:461-491 | the branches of the wrapper compute that filter |
| Wrapping.WrappedHandler.Handle | bus/eventbus.go:420-459 | the once-only call and the close that goes with it |
| TransactionRuns.EverySlotAnswered | bus/tx/transaction.go:214-271 | completedRequests is the number of filled slots; each filled slot has the response with its own request's id; on completion all are filled; requests execute in order, in sync mode only after all earlier answers |
| TransactionRuns.OneOutcomeForGood | bus/tx/transaction.go:273-339 | all complete handlers once with full responses, or all error handlers once with one error, never both, and nothing after that changes it |
| TransactionRuns.OneRequestPerResponse | bus/tx/transaction.go:232-262 | in every run a bus message answers at most one request |
| TransactionProgress.AlwaysLive | bus/tx/transaction.go:210-230 | in every run of a committed transaction the next request is about to be executed exactly when all executed ones are answered, if it is synchronous, and exactly until all are executed, if it is asynchronous; and each executed request is answered or listened for unless the context is cancelled |
| TransactionProgress.NeverStuck | bus/tx/transaction.go:309-339 | in every run a committed transaction that is not cancelled may yet complete |
| TransactionProgress.AbortsExactly | bus/tx/transaction.go:214-285 | an action aborts a committed transaction exactly if it is a failed execution or send, an error on the channel of a request listened for, or the cancellation seen; every error handler is then started once, in order, with that error |
| TransactionProgress.FillsExactly | bus/tx/transaction.go:309-324 | a slot is filled by exactly the first response addressed to its request, or the content of the store it waits for |
| TransactionProgress.ClosedIsSilent | bus/tx/transaction.go:241-262 | in every run, once a cancelled context has closed the listener of a request, no message on its channel and no failure to send has any effect |
| TransactionProgress.CompletedExactly | bus/tx/transaction.go:321-333 | a transaction that was committed and has not failed is completed exactly when every slot is filled; every completion handler was then started once, in order, with all the responses |
| TransactionProgress.PreparedExactly | bus/tx/transaction.go:101-199 | in every run the transaction has the requests and handlers added before the first commit that could succeed, in their order |
| TransactionProgress.NextComes | bus/tx/transaction.go:335-338 | a success that does not complete a synchronous transaction names the following request |
| TransactionListeners.SlotIsFirstAccepted | bus/tx/transaction.go:232-262 | in every run of a transaction that has not failed, a slot is filled exactly if something has passed the filter of its request's listener, and holds the first that did |
| TransactionListeners.RunTies | bus/eventbus.go:409-495 | in every run each listener of a transaction has done what the wrapper does with the messages and the cancellation that came to it |
| TransactionRuns.StepKeeps | bus/tx/transaction.go:166-339 | each step of commit, execution, delivery, failure or cancellation keeps the invariant behind both |
| TransactionRuns.FillingCompletes | bus/tx/transaction.go:309-333 | a success completes the transaction exactly when it fills the last slot |
| TransactionRuns.TerminalStays | bus/tx/transaction.go:273-320 | completed and aborted are absorbing |
| Transactions.CountFill | bus/tx/transaction.go:318-319 | filling an empty slot raises the count of filled slots by one |
| Transactions.CountBounds | bus/tx/transaction.go:321-324 | the count reaches the number of requests exactly when every slot is filled |
| Transactions.BusTransaction.CommitContext | bus/tx/transaction.go:166-199 | commits once, and not when cancelled or empty |
| Transactions.BusTransaction.OnTransactionError | bus/tx/transaction.go:273-285 | launches every error handler once, in order, unless the transaction has an outcome |
| Transactions.BusTransaction.OnTransactionRequestSuccess | bus/tx/transaction.go:309-339 | fills the slot, launches every complete handler with the responses when it was the last, and names the following request exactly if the transaction is synchronous and goes on |
| ConnectionGrammar.PhasesGiveShape | stompserver/stomp_connection.go:253-313 | a trace is Closed alone, or Established, then subscriptions, unsubscriptions and messages, then possibly Closed |
| ConnectionGrammar.LiveMeansSubscribed | stompserver/stomp_connection.go:161-186 | a subscription is live exactly if it was subscribed to that destination and not unsubscribed since |
| ConnectionGrammar.AppRequestExactly | stompserver/config.go:85-92 | an application destination is a non-empty prefix followed by anything |
| StompConns.EveryTraceHappens | stompserver/stomp_connection.go:315-545 | the grammar allows no more than the frame loop emits |
| StompConns.GoneStays | stompserver/stomp_connection.go:261-263 | inputs after the end are not looked at |
| StompConns.StompConn.Run | stompserver/stomp_connection.go:253-313 | on any inputs the loop emits a trace of the grammar, the one the reference session gives, and numbers MESSAGE frames 1, 2, 3, ... in write order |
| StompConns.StompConn.HandleConnect | stompserver/stomp_connection.go:348-415 | connects exactly an unconnected client with acceptable headers, answering with one version, the highest that the client named and the server supports, and in each direction a heart-beat that both sides allow |
| StompConns.StompConn.ReplyAgrees | stompserver/stomp_connection.go:374-399 | for every acceptable client the reply has exactly one version, named by the client, 1.2 whenever it named that; and each direction has heart-beats exactly if the client wants them and the server's minimum is not zero, then no more often than either asks |
| StompConns.StompConn.DetermineVersion | stompserver/stomp_connection.go:582-599 | the highest supported version in the list, 1.0 without the header, none if none is supported |
| StompConns.StompConn.Negotiate | stompserver/stomp_connection.go:353-399 | the checks before CONNECTED; the reply names 1.2 if the client did and 1.1 otherwise, and rates neither side rules out |
| StompConns.StompConn.HandleDisconnect | stompserver/stomp_connection.go:417-428 | answers the receipt, then closes; an unconnected client gets an error |
| StompConns.StompConn.HandleSubscribe | stompserver/stomp_connection.go:430-470 | a new id becomes live and is reported; a live id is ignored; missing headers are errors |
| StompConns.StompConn.HandleUnsubscribe | stompserver/stomp_connection.go:472-504 | a live id is reported with its stored destination and gone; an unknown id is ignored |
| StompConns.StompConn.HandleSend | stompserver/stomp_connection.go:506-545 | only application destinations without a transaction header, reported once the receipt is written |
| StompConns.StompConn.WriteOutgoing | stompserver/stomp_connection.go:271-289 | a MESSAGE takes the next id; a failed write or an ERROR ends the loop |
| StompConns.StompConn.Close | stompserver/stomp_connection.go:200-213 | one Closed event, however often it is called |
| StompServers.FaithfulStep | stompserver/server.go:446-533 | handling an event keeps the index equal to the live subscriptions and the callbacks balanced |
| StompServers.MirrorsStep | stompserver/server.go:455-515 | the index part of it |
| StompServers.BalancesStep | stompserver/server.go:455-515 | the callback part: each subscription is opened once and closed once, by UNSUBSCRIBE or by close |
| StompServers.LedgerCloses | stompserver/server.go:455-469 | unsubscribing different open subscriptions closes just those |
| StompServers.LedgerMeans | stompserver/server.go:455-515 | a subscription is open by the callbacks exactly if one opened it and none has closed it since |
| StompServers.StompServer.HandleConnectionEvent | stompserver/server.go:446-533 | after any events, the index is that of the live subscriptions; new callbacks are those the event calls for |
| StompServers.StompServer.CloseConnection | stompserver/server.go:455-469 | takes every subscription of the connection out and reports each exactly once |
| StompServers.StompServer.SendFrame | stompserver/server.go:535-544 | a broadcast sends exactly one frame per subscription to the destination |
| StompServers.StompServer.SendFrameToClient | stompserver/server.go:546-566 | exactly one frame per subscription of that one client to the destination |
| Endpoints.MappingIdInjective | transport/fabric/endpoint.go:378 | conId#subId determines both, because conId has no '#' |
| Endpoints.MappingIdClash | transport/fabric/endpoint.go:245 | two different subscriptions with one mapping id, when a connection id has a '#' |
| Endpoints.NamedExactly | transport/fabric/endpoint.go:431-440 | a destination names exactly the channel whose topic it is, or whose user queue it is when there are user queues and it is no topic |
| Endpoints.ProtectedExactly | transport/fabric/endpoint.go:445-447 | the protected channels are exactly those under the internal prefix |
| Endpoints.EnsureTrailingSlash | transport/fabric/endpoint.go:60-65 | a prefix that is not empty ends in a slash, and one that does is left alone |
| Endpoints.MirrorStep | transport/fabric/endpoint.go:188-249 | one callback keeps the mapping of every channel equal to the open, unprotected subscriptions that name it |
| Endpoints.ExpectedShrinks | transport/fabric/endpoint.go:366-397 | closing a subscription takes out exactly its mapping id |
| Endpoints.FabricEndpoint.AddSubscription | transport/fabric/endpoint.go:188-249 | maps the subscription; only a new mapping without a route gets a forwarder, and creates the channel only if it is missing |
| Endpoints.FabricEndpoint.RemoveSubscription | transport/fabric/endpoint.go:366-397 | unmaps it; the channel is destroyed only with its last subscription and only while auto-created |
| Endpoints.FabricEndpoint.DetachSubscriptionForwarder | transport/fabric/endpoint.go:251-273 | hands over the forwarder, keeps the subscriptions, and gives up ownership of the channel |
| EndToEnd.MappingsFollowFrames | transport/fabric/endpoint.go:182-186 | for any frames on any connections and any interleaving of their events, the endpoint's mappings are exactly the live subscriptions that name each channel |
| EndToEnd.FramesAreWellFormed | stompserver/server.go:403-444 | whatever the frames, the server sees a trace of the grammar for each connection |
| EndToEnd.EndedConnectionLeavesNothing | stompserver/server.go:455-469 | once a connection has ended and its events are handled, no mapping mentions it |
| EndToEnd.DrainedLiveIsOwn | stompserver/stomp_connection.go:150-186 | once all events are handled, the server's live subscriptions are those of the connection's own table |
| EndToEnd.FabricBroker.Handle | transport/fabric/endpoint.go:182-186 | server and endpoint stay in step over any events |
| EndToEnd.FabricBroker.MappingsAreServed | transport/fabric/endpoint.go:182-186 | in every state the broker reaches, its mappings are exactly the live subscriptions that name each channel |
| EndToEnd.FabricBroker.Broadcast | stompserver/server.go:207-221 | a broadcast reaches exactly the subscriptions that the clients' frames leave live |
| Takeover.NoFallbackBesideRoute | transport/fabric/router.go:99-149 | in every interleaving, after takeover and until the route closes no mapping or subscription call holds a fallback, and none is on the channel beside the stream |
| Takeover.RouteAliveExactly | transport/fabric/router.go:106-149 | every route registered from here on has its stream on the channel exactly if the channel is not auto-created for its subscriptions |
| Takeover.RouteMayBeDead | transport/fabric/endpoint.go:376-391 | how the subscribers of an auto-created channel take it away under a registration |
| Takeover.BothWhileClosing | transport/fabric/router.go:210-217 | a forwarder and a stream may overlap between the two steps of closing a route |
| Takeover.ClosingOverlapsExactly | transport/fabric/router.go:210-226 | from any state: closing a returned route may bring a fallback forwarder beside its stream exactly if the stream is on the channel |
| Takeover.StepKeeps | transport/fabric/endpoint.go:202-273 | each step keeps the ownership invariant of fallback forwarders |
| Takeover.SubscribingAlone | transport/fabric/endpoint.go:202-249 | a subscription with nobody in between: a first one without a route puts a forwarder on the channel, and owns the channel exactly if it made it |
| Takeover.LeavingAlone | transport/fabric/endpoint.go:376-391 | the last one to leave takes the forwarder away, and the channel exactly if it was auto-created |
| Takeover.ClosedStreamIsGone | transport/fabric/router.go:210-226 | in every interleaving a closed stream is never on the channel again, and its handle never in the table |
| Takeover.RouterStaysClosed | transport/fabric/router.go:183-201 | after Close no route is in the table again, and the one that was is marked to be closed |
| Takeover.PublishDecides | transport/fabric/router.go:106-131 | a registration enters the table exactly if the router is open and the channel has no route, and is turned away for good otherwise |
| Takeover.AliveRun | transport/fabric/router.go:141-148 | a channel that is not auto-owned survives, and keeps the stream of every route open on it |
| Routers.DefaultDestinationNamesChannel | transport/fabric/router.go:73-79 | subscribers of a route's default destination are filed under its channel exactly if the name has no leading slash, and otherwise under the name without it; without a topic prefix under the whole destination |
| Routers.MessageRouter.RegisterRoute | transport/fabric/router.go:81-160 | succeeds exactly for a named, existing, unrouted channel of an open router and a supported direction, and then replaces the fallback; otherwise changes nothing |
| Routers.MessageRouter.CloseHandle | transport/fabric/router.go:210-226 | closing a handle, even twice, leaves every other route alone, including a successor on its channel |
| Routers.MessageRouter.Close | transport/fabric/router.go:183-201 | every route is gone and every stream closed |
| Routers.MessageRouter.RouteMessage | transport/fabric/router.go:162-181 | a message goes to the destination of the open route of its channel; a cancelled context and a channel without a route are errors |
| HttpRouting.RebuildChangesNothing | plank/pkg/routing/router.go:220-237 | with no edit between, the cached muxes are those of a rebuild |
| HttpRouting.FirstWinsOnce | plank/pkg/routing/router.go:277-283 | the first-registration-wins mux of a route list is unique |
| HttpRouting.ServesFirst | plank/pkg/routing/router.go:248-283 | a pattern is in the mux exactly if some route with a handler asks for it, for one of its methods or bare if it has none, and leads to the handler of the first that does, with its methods and inside all middleware in order |
| HttpRouting.PathsExactly | plank/pkg/routing/router.go:263-265 | the path mux has exactly the path patterns of the routes with a handler, whatever their methods |
| HttpRouting.RouteMatches | plank/pkg/routing/router.go:322-336 | without variables, an exact route matches its own path and no other; a prefix route its path and what is below it, and no path that merely begins alike |
| HttpRouting.Chained | plank/pkg/routing/router.go:338-343 | from the outside in, the layers of a handler are the middleware in order of registration, and then the handler |
| HttpRouting.PatternIsPair | plank/pkg/routing/router.go:316 | a pattern determines its method and its path pattern |
| HttpRouting.CompiledExtends | plank/pkg/routing/router.go:254-266 | one more route adds exactly the patterns no earlier route asked for |
| HttpRouting.NamesDoNotMatter | plank/pkg/routing/router.go:136-149 | Name may leave the cache clean, because the muxes do not depend on names |
| HttpRouting.ExcludingKeeps | plank/pkg/routing/router.go:88-97 | a clone keeps exactly the routes whose names are not excluded |
| HttpRouting.Router.Snapshot | plank/pkg/routing/router.go:220-237 | after any edits, the muxes served are those of the current routes and middleware |
| HttpRouting.Router.CloneExcluding | plank/pkg/routing/router.go:78-100 | the other routes in order, all their names in the index, and a dirty cache |
| HttpRouting.Router.Name | plank/pkg/routing/router.go:136-149 | renames one route; the index keeps leading to routes of the name looked up |
| HttpRouting.Reindexed | plank/pkg/routing/router.go:136-149 | the new name of a route leads to it, its old name no longer does, and every other name stays |
| HttpRouting.RegisterPatterns | plank/pkg/routing/router.go:277-283 | registers exactly the patterns that are not taken |
| HttpRouting.DispatchPatterns | plank/pkg/routing/router.go:307-320 | every method with every path pattern |
| HttpRouting.BuildMiddlewareChain | plank/pkg/routing/router.go:338-343 | the first middleware is the outermost |
| RestBridges.PartitionAdds | plank/pkg/server/rest_bridge_registry.go:114-115 | a new key keeps the key lists free of repetition, pairwise disjoint, and equal to the keys with a handler |
| RestBridges.PartitionClears | plank/pkg/server/rest_bridge_registry.go:132-137 | so does clearing a service |
| RestBridges.SetExactly | plank/pkg/server/rest_bridge_registry.go:85-119 | a set adds one key, one handler and one route with the bridge's path, name and methods, and changes nothing else; or, for a taken key or a service without a listener, no handler, key or route |
| RestBridges.ClearExactly | plank/pkg/server/rest_bridge_registry.go:121-139 | clearing takes out the keys of the one service, their handlers and their routes, and nothing else |
| RestBridges.ClearKeepsRouted | plank/pkg/server/rest_bridge_registry.go:126-130 | every key of another service keeps its route |
| RestBridges.SwitchAgreesExactly | plank/pkg/server/rest_bridge_registry.go:121-146 | after any calls, a clear, any calls again and the switch to the cleared router: agreement exactly if no bridge set since the clear is still there, and sound key lists in any case |
| RestBridges.SetsBeforeSwitchExactly | plank/pkg/server/rest_bridge_registry.go:121-146 | with nothing but Set calls between clear and switch: agreement exactly if none of them added a bridge |
| RestBridges.LostBridge | plank/pkg/server/rest_bridge_registry.go:93-97 | the run clear, set, switch: the bridge has a key and a handler, no route, and cannot be set again |
| RestBridges.StepKeeps | plank/pkg/server/rest_bridge_registry.go:85-146 | setting, clearing, and clearing with the switch keep lists, handlers and routes in agreement |
| ServedBridges.ServedExactly | plank/pkg/routing/router.go:248-283 | after any calls, a bridge's pattern is served by its own handler exactly if no earlier bridge that is still there asks for it |
| ServedBridges.ShadowedExactly | plank/pkg/server/rest_bridge_registry.go:183-195 | of two exact bridges for one path the first takes the second's pattern exactly if it permits the second's method, HEAD and OPTIONS included |
| ServedBridges.RunAscends | plank/pkg/server/rest_bridge_registry.go:85-139 | after any calls the routes are in the order in which their handlers were built |
| RestBridges.RestBridgeRegistry.Set | plank/pkg/server/rest_bridge_registry.go:85-119 | adds a key, its handler and its route together, or nothing; agreement survives |
| RestBridges.RestBridgeRegistry.ClearForService | plank/pkg/server/rest_bridge_registry.go:121-139 | removes exactly the service's keys and returns a router without exactly their routes, the others in order |
| RestBridges.RestBridgeRegistry.SetRouter | plank/pkg/server/rest_bridge_registry.go:141-146 | keys, handlers and the soundness of the lists survive any router |

## Left out

Hypotheses of the theorems:

- SyncSystem.DrainedClientAgrees: assumes that each client's messages arrive in the order sent and that changes are
  announced in commit order; the code notifies outside the items lock (store/store.go:353-357) and gives each bus
  message a goroutine of its own (bus/channel.go:193-197). Values convert to themselves; `GalacticStores` has the
  conversion.
- SyncRequests.ServedClientAgrees: as DrainedClientAgrees.
- TransactionProgress.NeverStuck: says that some answers complete the transaction, not that they ever come.
- Activities.ChannelActivity.WaitQuiescentAfter: waits at most `waits` times, any number chosen by the caller, and
  reports StillWaiting after that; the code waits as long as it takes.
- Channels.Channel.FireContext: has the same bound on waiting. The ghost `sender` says from inside which dispatch a
  message is sent.
- HandlerClose.NoLeak: assumes that the channel is not destroyed and created again under the handler.
- HandlerClose.SubscribedExactly: as NoLeak.
- StompConns.StompConn.Run: assumes that events reach the server (no send timeout,
  stompserver/stomp_connection.go:228-243) and that only the frame loop closes the connection; a Close from elsewhere
  would race handleConnect, which rejects only a connected state (stompserver/stomp_connection.go:349).
- Takeover.NoFallbackBesideRoute: takes HandleContext as one step, because `HandlerClose` has its race with Close, and
  follows one channel, because channels share nothing but the locks.
- EndToEnd.FabricBroker.Handle: runs the endpoint's callbacks after the event and not during it; neither reads the
  other's fields.
- Readiness.RanAfterInitialize: says what may run and what may not, not that a goroutine whose turn has come is ever
  scheduled; the same holds of all the state machines here.

- StreamOrder.HistoryInOrder: assumes that changes are announced in commit order, which nothing in
  store/store.go:352-357 sees to; the claims of `StreamDelivery` do not need it.
- BusStores.BusStore.Put: this and the other methods of `BusStores.BusStore` and `BusStores.StoreStream` are one call
  at a time, commit and notification together; `StreamDelivery` has their sections interleaved.
- BusStores.BusStore.Remove: as Put.
- BusStores.BusStore.OnStoreChange: as Put.
- BusStores.StoreStream.Subscribe: as Put; setting the handler and registering are two steps in `StreamDelivery`.
- BusStores.StoreStream.Unsubscribe: as Subscribe.
- RestBridges.StepKeeps: takes the registry's handler map as its own; SetStaticRoute and the SPA routes write to the
  same map and router (plank/pkg/server/server.go:381-382).

Not modelled:

- JSON, reflection and mapstructure decoding: payloads are opaque, and decoding is a function that may fail.
- Sockets, TLS, WebSocket and the go-stomp codec: a raw connection is a source of frames and a sink that may fail.
- uint64 and int64 wrap-around of sequence numbers, message ids and versions: they are mathematical integers.
- Put and Remove of a galactic store, which send a request and change nothing locally, and updateStore of the sync
  service, which calls them on the other side.
- Mutation streams of a store: the same registry pattern as change streams.
- Broker subscriptions of a channel, the bridge client, and the monitor's listener table.
- STOMP frame and command middleware, Stop, CloseConnectionsByIP, IP blocking, session event callbacks, and more than
  one callback of a kind.
- The text of ERROR frames, and the accept-version header before it is split at commas.
- The endpoint without a bus, bridgeMessage, and the choice between broadcast and private delivery in forwardMessage.
- serveMuxPathTemplate (path variables with patterns), the matching of net/http other than of patterns without
  variables, and the panic of ServeMux on conflicting patterns.
- The rate limiter, server start and stop, static files, TLS setup and logging.
