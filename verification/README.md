# Verified model of node-red-contrib-bull

The project models the parts of the package that carry state, concurrency or unbounded data, and proves what they
promise over every run or every input.

- `AckProtocol.dfy`: the manual-acknowledgement protocol as a state machine whose events are the blocks of code between
  two awaits, with theorems about whole runs stated on the history of events alone.
- `Acknowledgements.dfy`: the entries, the registry and the dispatch of aborts as objects on the heap; every run of
  them is proved to be a run of that state machine, event by event.
- `JobActions.dfy`: the input handler of the `bullmq job` node, branch by branch, with arbitrary interference while it
  is suspended and an exception possible at every call and every send; it writes a log of what it does.
- `Shutdown.dfy`: closing owners, their companion connections and the whole config node, in time, with promises that
  settle at any moment or never.
- `Ownership.dfy`: which owners are live, being closed or closed at any moment, under any interleaving of creations,
  releases and config closes.
- `FlowDefaults.dfy`: retention defaults of flow trees on JavaScript values; the stack walk of a single tree and the
  recursive rewriting of bulk trees.
- `FlowObjects.dfy`: the same on objects that live on the heap and may share parts; nothing of the caller's is changed.
- `BackendStatus.dfy`: the shared queue and its listeners, the live backend status, its readers, and the latch that
  reports each failure category once.
- `RunNode.dfy`: how a `bullmq run` node starts its worker, and which of its failures go to that latch.
- `Lists.dfy`: the event filter and the endpoint lists.
- `HashTags.dfy`: the Redis Cluster prefix check against the hash tags and slots of the Redis Cluster Specification,
  sections "Hash tags" and "Key distribution model".
- `Commands.dfy`: `stopAndRemoveAllJobs` on a queue whose calls may fail.
- `Histories.dfy`, `Wrappers.dfy`: what the others share.

## Where the code and its documentation differ

The model follows the code.

- docs/CONNECTIONS.md says that untagged Cluster prefixes are rejected. The check accepts `{}{bull}`, under which keys
  hash as a whole and end up in different slots. `HashTags.AcceptedSharesASlot` gives the exact condition for an
  accepted prefix.
- docs/NODE_GUIDE.md says that an empty event filter subscribes to the default events. A single space subscribes to
  none (`Lists.SpaceIsForNothing`), and so does exactly every filter that is not empty but consists only of separators
  and white space: `Lists.FilterForNothing`.
- docs/CONNECTIONS.md describes one format for endpoint lists. The text `" ,a"` is accepted as a string and refused as
  an item of an array (`Lists.ArrayRefusesWhatStringAccepts`). Where the comma-joined string is accepted, the array is
  refused exactly if one of its pieces is blank without being empty: `Lists.ArrayAgreesWithString`.
- docs/ARCHITECTURE.md says that an error in one shutdown step does not stop the later ones. An owner that gives no
  access to its backend, or throws when asked for it, keeps both worker timers when it is forced down:
  `Shutdown.ForceDisconnectOwner`. A lock manager that fails to close leaves the stalled-job checker running:
  `Shutdown.FailingLockManager`. One that never settles leaves the companion connection open:
  `Shutdown.HangingLockManager`. `done` stays uncalled exactly if some pair hangs and none fails
  (`Shutdown.WhenDoneIsCalled`); when one pair fails it is called at once, while other pairs may still be closing:
  `Shutdown.EarlyDone`.
- docs/COMMANDS.md says that `stopAndRemoveAllJobs` cleans inactive states. Parents that wait for their children stay
  (`Commands.ParentsStay`), and so do prioritized jobs unless draining takes them; nothing else does:
  `Commands.InactiveJobsGo`.
- An acknowledgement created on a signal that has already fired is not failed by it, nor by a further abort
  (`AckProtocol.DeafEntry`); `AckProtocol.LateListenersHearNothing` says exactly when an abort is heard.
- An acknowledgement created after its run node has closed is not rejected by that close:
  `AckProtocol.RegisteredAfterTheClose`.

## Model

| member | source | states |
|---|---|---|
| AckProtocol.NextKeepsInv | lib/acknowledgements.js:5-124 | every event keeps: an id is registered exactly while its entry is unsettled, the timer is armed exactly while it is unsettled and was given a positive timeout, the abort listener is attached exactly while it is unsettled and has a signal, answered waiters hold the settlement |
| AckProtocol.RunKeepsInv | lib/acknowledgements.js:5-124 | the same in every state any run can reach |
| AckProtocol.StepsInValues | lib/acknowledgements.js:5-124 | what each event does to the entries, the registry and the fired signals, in plain values: who takes which settlement, and what becomes of timer, listener and waiters |
| AckProtocol.SettlementIsFinal | lib/acknowledgements.js:59-69 | over any run a settlement never changes and a settled entry never returns to the registry |
| AckProtocol.FirstOfferWins | lib/acknowledgements.js:51-69 | after any run from the start an entry is settled with s exactly when the first event of the history that offered it anything offered s |
| AckProtocol.OneOfferPerEvent | lib/acknowledgements.js:23-39 | one event never offers two settlements to the same entry |
| AckProtocol.WaitersAreKept | lib/acknowledgements.js:42-49 | exactly the waiters that were started are answered or parked |
| AckProtocol.WaitersGetTheSettlement | lib/acknowledgements.js:42-102 | every waiter, early or late, is answered with the one settlement once there is one, by when its entry has left the registry, and nobody else is answered |
| AckProtocol.ClosingFreesTheWorker | lib/acknowledgements.js:115-123 | after any run, closing a run node leaves none of its entries registered, every wait ever started on one of them answered, an unsettled one rejected with the given error, a settled one as it was, and the entries of other run nodes untouched |
| AckProtocol.RegisteredAfterTheClose | lib/acknowledgements.js:115-123 | whatever happens after a run node has closed, exactly those of its entries are registered that have been created since and are not settled |
| AckProtocol.NothingLeftAfterTheClose | lib/acknowledgements.js:115-123 | none of its entries is registered in any continuation in which none is created on it |
| AckProtocol.LateListenersHearNothing | lib/acknowledgements.js:22-29 | an abort settles an unsettled entry of its signal exactly when the signal has not fired before; a second firing changes nothing |
| AckProtocol.DeafEntry | lib/acknowledgements.js:22-29 | a run in which an entry is created on a fired signal and a further abort leaves everything as it is |
| Acknowledgements.AcknowledgementEntry.constructor | lib/acknowledgements.js:6-40 | a new entry is unsettled, its timer armed only for a positive timeout, its listener attached whenever there is a signal |
| Acknowledgements.AcknowledgementEntry.Wait | lib/acknowledgements.js:42-49 | answers at once from an existing settlement, else parks the waiter |
| Acknowledgements.AcknowledgementEntry.Complete | lib/acknowledgements.js:51-53 | settles with the value unless settled already |
| Acknowledgements.AcknowledgementEntry.Fail | lib/acknowledgements.js:55-57 | settles with the error unless settled already |
| Acknowledgements.AcknowledgementEntry.TimerFires | lib/acknowledgements.js:31-39 | fails the entry with its timeout |
| Acknowledgements.AcknowledgementEntry.OnAbort | lib/acknowledgements.js:24-29 | fails the entry with the abort reason |
| Acknowledgements.AcknowledgementEntry.Settle | lib/acknowledgements.js:59-69 | first settlement only: stops the timer, detaches the listener, answers every parked waiter, leaves the registry |
| Acknowledgements.AcknowledgementEntry.Emit | lib/acknowledgements.js:68-101 | runs all one-shot listeners: the registry drops the entry and every parked waiter is answered in order |
| Acknowledgements.AcknowledgementRegistry.CreateEntry | lib/acknowledgements.js:90-103 | a fresh id maps to a fresh unsettled entry, all others stay |
| Acknowledgements.AcknowledgementRegistry.Get | lib/acknowledgements.js:105-113 | finds an entry exactly while it is unsettled |
| Acknowledgements.AcknowledgementRegistry.RejectByRunNode | lib/acknowledgements.js:115-123 | the walk over the shrinking map settles exactly the registered entries of the run node, with the error, as one single step of the protocol |
| Acknowledgements.AcknowledgementRegistry.DispatchAbort | lib/acknowledgements.js:24-29 | a signal that fires fails exactly the entries that listen to it, as one single step of the protocol |
| Acknowledgements.AcknowledgementRegistry.CreatedIsOneStep | lib/acknowledgements.js:90-103 | a heap entry added to the registry is the protocol's creation |
| Acknowledgements.AcknowledgementRegistry.WaitedIsOneStep | lib/acknowledgements.js:42-49 | waiting on a heap entry is the protocol's wait |
| Acknowledgements.AcknowledgementRegistry.SettledIsOneStep | lib/acknowledgements.js:59-69 | settling a heap entry, seen from the registry, is the protocol's settling of that entry and of no other |
| Acknowledgements.Runtime.OnCreate | bull-queue.js:788-799 | creating keeps the heap in the state the history prescribes, with a create event added |
| Acknowledgements.Runtime.OnWait | bull-queue.js:806-806 | the same for a wait |
| Acknowledgements.Runtime.OnComplete | lib/acknowledgements.js:51-53 | the same for a completion |
| Acknowledgements.Runtime.OnFail | lib/acknowledgements.js:55-57 | the same for a failure |
| Acknowledgements.Runtime.OnTimer | lib/acknowledgements.js:31-39 | the same for a timer that fires |
| Acknowledgements.Runtime.OnAbort | lib/acknowledgements.js:22-29 | the same for an aborted controller, whose signal fires only once |
| Acknowledgements.Runtime.OnCloseRunNode | bull-queue.js:864-868 | the same for a closing run node |
| Acknowledgements.Runtime.HeapKeepsTheProtocol | lib/acknowledgements.js:5-124 | after any run of the heap objects, an entry's settlement is the first offer of the history, it is registered exactly while there is none, and every waiter that ever came holds the settlement or is parked |
| JobActions.VerdictDecides | bull-queue.js:918-973 | after any interference a terminal action leaves its entry settled, with its own verdict unless somebody was faster, and touches no other entry |
| JobActions.AbortsSettle | bull-queue.js:982-1002 | aborting a worker's controllers settles exactly the unsettled entries that listen to one of them and were created before it fired |
| JobActions.AbortsCancel | bull-queue.js:982-1002 | the same for all entries at once |
| JobActions.ActionsAccomplish | bull-queue.js:889-1003 | a refused action changes nothing, one whose call fails leaves only what others did, every other has its documented outcome on what it finds after its call; non-terminal ones settle nothing themselves |
| JobActions.PromisesAreKept | bull-queue.js:883-1009 | for every action in plain values: with which problem it is refused, what it awaits, which settlement an unsettled entry is left with, which message is sent and what is reported |
| JobActions.Invocation.Update | bull-queue.js:890-981 | the branches progress and updateData do exactly what the log and the run prescribed for them say, and throw exactly when their call or their send fails |
| JobActions.Invocation.Ask | bull-queue.js:898-917 | the same for the four branches that send what BullMQ answers |
| JobActions.Invocation.Decide | bull-queue.js:918-942 | the same for complete, fail and failUnrecoverable |
| JobActions.Invocation.HandBack | bull-queue.js:943-959 | the same for rateLimit and moveToWait |
| JobActions.Invocation.Postpone | bull-queue.js:960-973 | the same for moveToDelayed, which refuses a bad delay before its call and fails the entry with MovedToDelayed after it |
| JobActions.Invocation.Cancel | bull-queue.js:982-1002 | the same for cancelJob and cancelAllJobs |
| JobActions.Invocation.OnInput | bull-queue.js:883-1009 | the whole handler, its catch included: the exact log and run, and for every action in plain values what it sends, reports and leaves behind |
| JobActions.OneReportAtTheEnd | bull-queue.js:217-223 | in every such log how it went is reported exactly once, to done if there is one and else to node.error if there is an error; at most one message is handed to send; call, deeds, message and report come in this order |
| JobActions.SuccessMeansNoTrouble | bull-queue.js:889-1007 | done hears of success exactly when nothing went wrong |
| JobActions.SuccessMeansSent | bull-queue.js:889-1007 | when done hears of success, the promised message has been sent |
| JobActions.DeedsComeFirst | bull-queue.js:918-1002 | when a message is handed to send, all the deeds of its action are done, and it got past its call |
| Shutdown.SettleWithin | bull-queue.js:89-108 | times out exactly when the promise is still open at the end of the budget, and never takes longer than the budget |
| Shutdown.ForceDisconnectOwner | bull-queue.js:120-164 | when it hangs and fails, with which error, and exactly when it ends; which steps it takes, and that a Redis worker loses its sockets, its lock-renewal timer and its stalled checker in this order |
| Shutdown.FirstFailureEnds | bull-queue.js:120-164 | the first of getBackend, lock manager and stalled checker that fails ends a forced disconnect and is reported |
| Shutdown.CloseOwner | bull-queue.js:166-194 | an owner is forced down exactly if it is still open after 10000 ms on a ready connection, 1000 ms on any other and 11000 ms with none, and then at that moment; the exact time it ends and the error it reports |
| Shutdown.CloseRaw | bull-queue.js:171-183 | a ready connection is quit, and cut off if that takes more than 1000 ms; any other is cut off at once; if quit itself throws it is not |
| Shutdown.CloseResourcePair | bull-queue.js:196-211 | the owner is cut off exactly when it is still open after 10000, 1000 or 11000 ms, once and at that moment; the companion is closed as soon as the owner has ended, however it ended; the first error is reported; the exact end |
| Shutdown.OwnerThenCompanionEnds | bull-queue.js:196-211 | in plain values: the times of owner and companion add up, the owner's error wins over the companion's |
| Shutdown.OnClose | bull-queue.js:647-662 | done is called as Promise.all settles: never exactly if some pair hangs and none fails, with the earliest failure if some pair fails, and else at the end of the last pair |
| Shutdown.WhenDoneIsCalled | bull-queue.js:652-661 | done is never called exactly if some pair hangs and none fails, called with an error exactly if some pair fails, and called without one only after every pair has ended |
| Shutdown.CloseIsBounded | bull-queue.js:59-77 | for any number of pairs done is called within 11000 ms plus the bound on the lock managers, under 15000 ms when that bound is under 4000 ms |
| Shutdown.HangingLockManager | bull-queue.js:151-153 | a lock manager that never settles leaves done uncalled and the companion open |
| Shutdown.FailingLockManager | bull-queue.js:151-161 | a lock manager that fails leaves the stalled checker running, while the companion is closed and the error reported |
| Shutdown.EarlyDone | bull-queue.js:652-661 | one failing pair has done called while another is still closing, even if that one never ends |
| Ownership.LiveUntilReached | bull-queue.js:465-521 | over any run an owner is in the table, with its own connection, exactly from its creation until the first release of it or close of the node |
| Ownership.EventsInValues | bull-queue.js:465-656 | what a creation, a release and a close of the node do to the table and which closings they start, in plain values |
| Ownership.ClosingStartsOnce | bull-queue.js:465-656 | over any run the closing of a pair starts exactly once, at the first release of its owner or close of the node after its creation, and never otherwise |
| Ownership.OneClosingPerOwner | bull-queue.js:465-656 | no owner is closed twice, at whatever times or with whatever connection |
| Ownership.ExactlyOneStage | bull-queue.js:465-656 | at any moment of any run every created owner is in exactly one of live, closing and closed |
| Ownership.ClosedInTime | bull-queue.js:59-77 | an owner that has been reached is closed once its pair's budget is over unless its lock manager hangs, in which case it is closing forever |
| Ownership.ClosedForGood | bull-queue.js:465-656 | a closed owner stays closed whatever happens later |
| Ownership.DoneMeansClosed | bull-queue.js:647-659 | when the node closes and done comes without an error, at that moment every owner that was left in the table is closed |
| Ownership.ResourceTable.CreateResource | bull-queue.js:487-523 | keeps the table as the history prescribes; a failed construction leaves it alone |
| Ownership.ResourceTable.ReleaseResource | bull-queue.js:465-472 | keeps the table as the history prescribes; starts the closing exactly when the owner is still there |
| Ownership.ResourceTable.OnClose | bull-queue.js:647-656 | keeps the table as the history prescribes, and empties it |
| FlowDefaults.BulkKeeps | bull-queue.js:239-243 | every property of a node other than options and children is kept |
| FlowDefaults.BulkChildNodes | bull-queue.js:233-242 | a node keeps its children in number and order, each rewritten; children that are not an array are left as they are |
| FlowDefaults.BulkInValues | bull-queue.js:229-243 | in plain values: without defaults, or on what is no object, nothing is rewritten; a job keeps every option it has and takes the others from the defaults |
| FlowDefaults.BulkAt | bull-queue.js:228-244 | the rewriting keeps the shape of the whole tree and reaches every position |
| FlowDefaults.BulkIdempotent | bull-queue.js:228-244 | rewriting twice with the same defaults is rewriting once |
| FlowDefaults.CollectQueues | bull-queue.js:255-276 | the loop ends and computes the walk |
| FlowDefaults.WithFlowJobDefaults | bull-queue.js:246-279 | without defaults the caller's options are returned as they are; otherwise exactly the queues named in the tree are stamped, all other entries and options of the caller's stay, whatever the order of the walk |
| FlowDefaults.OtherOptionsStay | bull-queue.js:247-278 | in plain values: without defaults nothing changes, with them nothing but queuesOptions does |
| FlowDefaults.QueueEntriesInValues | bull-queue.js:255-276 | in plain values: entries of queues that no node names stay, every named one is stamped once |
| FlowDefaults.StampedInValues | bull-queue.js:264-271 | in plain values: stamping changes only the job defaults of an entry, where the entry's own win over the node's |
| FlowDefaults.QueueNames | bull-queue.js:260-275 | in plain values: only a non-empty string names a queue, only an array holds children |
| FlowDefaults.WalkStamps | bull-queue.js:256-276 | what a walk collects depends only on the set of names still to be visited, not on order or repetition |
| FlowDefaults.NamesReach | bull-queue.js:258-275 | the queue of every node at every position is among the stamped names |
| FlowDefaults.NamesAreThere | bull-queue.js:258-275 | every stamped name belongs to some node of the tree |
| FlowDefaults.QueueEntry | bull-queue.js:264-271 | a named queue's job defaults are the node's overridden by the caller's |
| FlowDefaults.PathsAgree | bull-queue.js:225-279 | a single-tree job ends up with the options its bulk form would get exactly when every default the caller set for its queue is overridden by the job or equal to the node's |
| FlowDefaults.PathsAgreeWithoutCallerOptions | docs/NODE_GUIDE.md:22-22 | without options of the caller's both paths always agree, for every tree and every position |
| FlowObjects.BulkObjects | bull-queue.js:228-244 | on objects, which may share parts: without defaults the caller's own reference comes back; otherwise the result stands for the rewritten tree, every object made for it is new, and no object of the caller's is changed |
| FlowObjects.BulkItems | bull-queue.js:233-237 | the same for all children of a node, in order |
| FlowObjects.CollectInPlace | bull-queue.js:255-276 | the loop assigns into one new object only, which ends up standing for what the walk collects |
| FlowObjects.FlowOptionsObject | bull-queue.js:246-279 | on objects: without defaults the caller's own reference comes back; otherwise the result stands for the options computed on values and is built of new objects; no object of the caller's, neither tree nor options nor defaults, is changed |
| FlowObjects.ViewInMore | bull-queue.js:228-279 | making further objects changes nothing about what the existing ones stand for |
| BackendStatus.ConfigNode.Publish | bull-queue.js:562-567 | stores the status and tells every current reader once and nobody else |
| BackendStatus.ConfigNode.ReportBackendFailure | bull-queue.js:411-419 | reports a category unless it has been reported since the last close |
| BackendStatus.ConfigNode.RunListeners | bull-queue.js:569-572 | with the listeners attached to the backend, an event sets the status and tells every reader exactly once |
| BackendStatus.ConfigNode.Emit | bull-queue.js:569-572 | a live event keeps the node as its history prescribes |
| BackendStatus.ConfigNode.GetQueue | bull-queue.js:525-549 | the queue is built at most once and only then are listeners attached; a failed construction is tried again at the next call, and is published and reported on PostgreSQL, while on Redis the exception escapes and changes nothing |
| BackendStatus.ConfigNode.ListenersDoNotAddUp | bull-queue.js:687-691 | the backend has three listeners from the moment the queue is built, however many readers came and went |
| BackendStatus.ConfigNode.OnReadinessResolved | bull-queue.js:577-582 | changes nothing once something has been heard |
| BackendStatus.ConfigNode.OnReadinessRejected | bull-queue.js:583-598 | changes and reports nothing once something has been heard |
| BackendStatus.ConfigNode.OnConstructionFailed | bull-queue.js:507-513 | publishes disconnected and hands the failure to the latch |
| BackendStatus.ConfigNode.ReadBackendStatus | bull-queue.js:605-607 | a new reader is told the current status at once, and nobody else hears of it |
| BackendStatus.ConfigNode.StopReading | bull-queue.js:608-610 | the reader is gone and hears nothing more |
| BackendStatus.ConfigNode.OnClose | bull-queue.js:649-649 | a close starts a fresh epoch of reports |
| BackendStatus.StatusStep | bull-queue.js:551-600 | one more event changes the prescribed status only by a live word, or by readiness while nothing has been heard |
| BackendStatus.RunsAreAsPrescribed | bull-queue.js:344-600 | after any run the status is the last live word, else the first readiness outcome, else connecting; the readers are those whose last word was to subscribe; the reports are the categories passed since the last close, each once |
| BackendStatus.StatusInValues | bull-queue.js:569-598 | what each event does to the status, in plain values |
| BackendStatus.ReportsInValues | bull-queue.js:411-419 | what each event adds to the reports, in plain values |
| BackendStatus.DeliveriesInValues | bull-queue.js:562-610 | what each event tells a reader, in plain values |
| BackendStatus.ReadersAreUpToDate | bull-queue.js:602-611 | after any run the last thing every subscribed reader was told is the current status |
| BackendStatus.OthersHearNothing | bull-queue.js:608-610 | a reader that is not subscribed hears nothing in any continuation in which it does not subscribe |
| BackendStatus.NeverConnectingAgain | bull-queue.js:559-600 | after any continuation the status never returns to connecting |
| BackendStatus.ReadinessNeverOverrides | bull-queue.js:577-597 | after a live event no continuation without one changes the status, readiness outcomes included |
| BackendStatus.DistinctIsExact | bull-queue.js:406-419 | the reports between two closes contain exactly the categories passed, each once |
| RunNode.RunsOnceWhenReady | bull-queue.js:830-854 | over any run the PostgreSQL worker is run at most once, exactly if its readiness came before its close, and the ready flags of the listener and of the start never disagree |
| RunNode.StatusInValues | bull-queue.js:816-862 | what each event does to the status of the node, in plain values |
| RunNode.StartupFailuresGoToTheConfigNode | bull-queue.js:320-336 | over any run on PostgreSQL exactly the failures heard before the start go to the config node and exactly those heard since to node.error, in order |
| RunNode.RedisFailuresStay | bull-queue.js:823-860 | on Redis every failure is the run node's own |
| RunNode.PassedOnAreStartupFailures | bull-queue.js:325-331 | what a node hands to the config node is exactly its start-up failures |
| RunNode.StartupFailuresOncePerEpoch | bull-queue.js:406-419 | over any joint run of any number of run nodes, between two closes of their config node it reports exactly the categories of their start-up failures and of those it came upon otherwise, each once |
| RunNode.Node.OnError | bull-queue.js:325-332 | the error listener keeps the node as its history prescribes and hands the failure to the latch only on PostgreSQL before readiness |
| RunNode.Node.OnReadinessResolved | bull-queue.js:834-841 | run() is called unless the worker is closing |
| RunNode.Node.OnStartFailed | bull-queue.js:842-852 | a closing worker fails silently; otherwise the failure goes to the latch before readiness and to node.error after it |
| Lists.RunsDoNotMatter | bull-queue.js:296-304 | splitting at runs of separators and at each separator give the same tokens |
| Lists.TokensOfSum | bull-queue.js:296-304 | a separator anywhere cuts a list into the tokens of its two parts |
| Lists.CommasAndLinesCut | bull-queue.js:300-303 | a comma cuts a list, and so does a line break |
| Lists.NothingElseCuts | bull-queue.js:300-303 | a text with neither is one token, trimmed, or none |
| Lists.TrimInCharacters | bull-queue.js:302-302 | trimming takes exactly the 25 white-space characters of JavaScript off both ends |
| Lists.JoinedNamesComeBack | bull-queue.js:300-303 | plain names joined by commas come back as they are |
| Lists.SplittingUndoesJoining | bull-queue.js:296-304 | however tokens are joined and padded, with any mixture of separators and white space around them and a separator between any two, they come back in order |
| Lists.EveryTextIsWritten | bull-queue.js:296-304 | every text is a list written that way, so the round trip determines the tokens of every text |
| Lists.NoTokens | bull-queue.js:300-303 | a text has no tokens exactly when it consists of separators and white space |
| Lists.EventFilterRoundTrip | bull-queue.js:296-304 | the round trip for the event filter; only the empty filter means the defaults |
| Lists.EmptyFilterMeansAll | bull-queue.js:36-54 | the empty filter means the 17 events, and so does their list written out |
| Lists.FilterForNothing | bull-queue.js:296-304 | a filter subscribes to nothing exactly when it is not empty and consists of separators and white space |
| Lists.SpaceIsForNothing | bull-queue.js:296-304 | a single space is such a filter |
| Lists.EndpointListRoundTrip | lib/connections.js:127-151 | the round trip for endpoint lists given as one string |
| Lists.ParseEachMeans | lib/connections.js:127-151 | a list is accepted exactly if every piece is neither blank nor refused, and then holds the endpoints of its pieces in order |
| Lists.ArrayAgreesWithString | lib/connections.js:127-151 | an array of texts means what their joined list means exactly when none of its pieces is blank without being empty, and is an error otherwise |
| Lists.ArrayRefusesWhatStringAccepts | lib/connections.js:127-151 | a list that is accepted as a string and refused as an array, whatever counts as an endpoint |
| HashTags.TagIsInherited | lib/connections.js:283-288 | a usable tag of the prefix is the tag of every key under it |
| HashTags.HashPartInCharacters | lib/connections.js:283-288 | the hash tag in plain characters: what stands between the first opening brace and the first closing one behind it, if anything does |
| HashTags.UntaggedDiffers | lib/connections.js:283-288 | without a usable tag two keys of the prefix are in different slots |
| HashTags.OneSlotMeansTagged | lib/connections.js:283-288 | all keys that continue a prefix with a colon are in one slot exactly when the prefix has a usable tag |
| HashTags.TaggedIsAccepted | lib/connections.js:284-284 | every prefix with a usable tag is accepted |
| HashTags.PrefixesInCharacters | lib/connections.js:283-288 | an empty prefix becomes the default; any other is kept exactly if somewhere an opening brace is followed by something else than a closing one and later by a closing one |
| HashTags.EmptyTagIsRefused | lib/connections.js:284-288 | a prefix that is refused |
| HashTags.AcceptedSharesASlot | lib/connections.js:284-284 | an accepted prefix keeps its keys in one slot exactly when its first opening brace is not closed at once |
| HashTags.RedisKeepsTogether | lib/connections.js:284-284 | the same for the slots of Redis themselves, CRC16 modulo 16384 |
| HashTags.DefaultIsSafe | lib/connections.js:283-288 | an empty prefix becomes the default one, under which all keys are in one slot |
| HashTags.AcceptanceIsNotSafe | lib/connections.js:284-284 | an accepted prefix whose keys are not |
| Commands.RemoveSchedulers | lib/commands.js:49-56 | removes the listed schedulers that have an id or key, in listing order, up to the first failure |
| Commands.CleanStates | lib/commands.js:60-63 | empties the four states in order up to the first failure, and reports what was in them |
| Commands.StopAndRemoveAllJobs | lib/commands.js:47-66 | for every number of calls that succeed: which schedulers are gone, what is left in every state, and when and what is reported; on success every listed scheduler is removed and reported under its id, or else its key, in listing order, and no other is |
| Commands.ListedAreRemoved | lib/commands.js:50-56 | a scheduler with an id goes by its id, one with only a key by that, one with neither stays; nothing else goes; the order is that of the listing |
| Commands.CallsInNumbers | lib/commands.js:47-66 | how far the command gets with a given number of calls: the removals in order, then draining, then completed, failed, delayed and waiting jobs |
| Commands.ActiveJobsStay | docs/COMMANDS.md:128-128 | active jobs are untouched however far the command gets |
| Commands.InactiveJobsGo | docs/COMMANDS.md:128-128 | a command that succeeds empties the four cleaned states, and every inactive state exactly if no parents wait for children and no prioritized jobs are left that draining does not take |
| Commands.ParentsStay | lib/commands.js:6-6 | a queue with a parent waiting for its children keeps it |

## Left out

- Collisions of acknowledgement ids: the id built from the time and a random suffix is taken to be fresh.
- Order of the entries in JavaScript maps: loops over a map visit it in any order.
- Re-entrant handling of a message inside `send`, and `done` callbacks that throw.
- Which message field an action takes its value from, and the wording of errors.
- Cyclic flow trees, and the identity of arrays: objects are on the heap, arrays are sequences of references.
- The encoding of keys as bytes: arbitrary, but for two letters that stand for themselves.
- Spreading a string into an object, holes in arrays, and property names that exist on every object.
- JavaScript numbers that are not finite, except a delay that is refused.
- The error listeners of the events and flow nodes, which follow the one of the run node; their failures enter as calls of the latch.
- How an error is put into a failure category: failures carry their category.
- The connection built for a Redis owner whose constructor throws: it never enters the table of owners.
- The order in which a config close visits its pairs: calls are counted, not ordered.
- WHATWG URL parsing inside `parseEndpoint`: an arbitrary function of the trimmed text stands for it.
- Endpoint arrays whose items are objects.
- Option building for Redis and PostgreSQL, number and boolean parsing, serialization and the other commands: each is settled by reading one branch.
- BullMQ, ioredis and pg themselves, clocks, timer clamping and telemetry.
