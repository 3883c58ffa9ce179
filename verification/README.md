# nhh3 host driver and C-boundary codecs: a Dafny model

nhh3 is a Unity client for HTTP/3. Its managed driver, `Nhh3Impl`, runs one native engine handle
per host: the application thread constructs an instance, publishes batches of requests, polls for
results and destroys it, while a worker task per host keeps calling the engine. The two threads
share a lock, three command flags and a cancellation token; all instances share two static
dictionaries. Create, set-options and destroy run without the lock. The C boundary of the
transport library below, `ffi.rs`, converts socket addresses and copies packet header fields into
caller buffers.

This project models those parts and proves their properties for every interleaving, every run and
every input.

## How the model is laid out

- `NativeTrace.dfy` -- native calls of one host as a trace of begin, return and throw events, and
  what a legal trace is.
- `HostProtocol.dfy` -- the two threads of one host as a labelled state machine. Lock acquisition,
  start and end of a native call, lock release and the exception exit are separate actions; which
  calls throw and what the engine queues is left open. A run is any sequence of enabled actions.
- `HostInvariants.dfy`, `HostSafety.dfy` -- the inductive invariant over both program counters;
  exclusion, handle lifecycle and token safety.
- `Shutdown.dfy` -- the join in `Destroy` returns; no state is stuck.
- `Commands.dfy` -- retry, abort and reconnect requests are coalesced, not lost, and served.
- `WorkerGrammar.dfy` -- the shape of the worker's calls.
- `Delivery.dfy` -- what `Update` hands over, against what the engine's callbacks delivered.
- `BlockRecords.dfy`, `AtomicHost.dfy`, `BlockTraces.dfy` -- refinement to a machine in which each
  locked block is one step, by commuting the other thread's steps in front of the block; what that
  means for traces.
- `HostSystem.dfy`, `SystemProperties.dfy` -- any number of hosts, one application thread,
  `Uninitialize`; every host of the system runs the two-thread machine.
- `Counterexamples.dfy` -- runs on which the conditional promises below fail.
- `Reachability.dfy` -- the sample's network monitor and the command flags as classes, and
  reconnects from a reachability change to the native call.
- `Requests.dfy`, `ResponseHeaders.dfy`, `Instances.dfy` -- publishing loop, header loop, result
  callbacks and the two dictionaries as classes and loops, run by the application thread alone.
- `PublishBlock.dfy` -- the publishing loop as one block of the state machine.
- `SocketAddress.dfy`, `HeaderInfo.dfy` -- the codecs of `ffi.rs` over byte arrays.
- `SharedTypes.dfy` -- bytes and string references.

## Assumptions

- The engine is abstract. Every native call returns or throws; result callbacks run only inside
  `qwfsIssueCallbacks`, on the caller's thread, tagged with the caller's host, in queue order, and
  the call returns only when the queue is empty. What is left in the queue when it throws is open,
  and any other call may change the queue at will.
- In `HostSystem`, `qwfsCreate` returns an id that was never used before. `Instances` does without
  this assumption and shows what reuse costs.
- Callers stop using an instance that has been destroyed, by `Destroy` as the sample does, or by
  `Uninitialize`; calling `Destroy` again is allowed at any time, as is `Uninitialize`.
- A `Cancel` that has begun on a live token returns, also when the worker disposes the token
  meanwhile. A `Debug.Assert` has no effect.

## Promises that hold only under a condition

Each is proved as an if-and-only-if, or with a run that breaks it.

- The dictionaries have the same keys between operations exactly when, since they were last
  cleared, no constructor threw after `qwfsCreate` and no `Uninitialize` was cut short by a throwing
  `qwfsDestroy` after it had destroyed a host (`DictionariesAgree`; it fails in
  `ConstructorLeavesAnEntry` and `InterruptedUninitialize`). `qwfsUninitialize` finds no live handle
  exactly when no constructor ever threw there (`UninitializeFindsNoLiveHandle`; it fails in
  `UninitializeLeavesAHandle`).
- `Update` loses nothing exactly when no `Update` threw after one of its callbacks had delivered
  a result: the next one empties the shared list (`DeliveryIsConserved`; it fails in
  `UpdateLosesAResult`).
- A request that `qwfsGetRequest` throws on leaves its id to the next one, so ids of attempts
  repeat exactly when an attempt follows such a throw (`AttemptsRepeatAfterAThrow`).
- `Cancel` meets only live tokens while no `qwfsDestroy` has thrown; after that, destroying the
  host again throws (`CancelMeetsALiveToken`, `ThrowingDestroyLeavesADeadToken`). It also throws
  for an instance whose id was given out again (`StaleInstance`).
- All header pairs of a list without null entries are read exactly when the count is even and the
  last offset fits in 32 bits; an odd count throws (`AllPairsOrNot`).
- Reading a socket address and storing it again gives the same bytes exactly when padding and
  length byte are canonical (`ReadAddressIsStoredBack`).
- The in/out lengths of `quiche_header_info` shrink: a next packet succeeds with lengths that were
  not reset exactly when none of its fields is longer (`LengthsMustBeReset`).

Where the code and its comments disagree the model follows the code: the comment on the `Nhh3`
constructor (unity/Assets/nhh3/Scripts/Nhh3Sharp.cs:460) promises an exception for a repeated host
name, but the dictionaries are keyed by native id and host names are never compared.

## Model

| member | source | states |
|---|---|---|
| NativeTrace.LegalRunsOneCallAtATime | unity/Assets/nhh3/Scripts/Impl/Nhh3Impl.cs:104-146 | in a legal trace the calls begun and not ended are one or none |
| NativeTrace.LegalLifecycleCounts | unity/Assets/nhh3/Scripts/Impl/Nhh3Impl.cs:104-146 | a legal trace creates once, sets options at most once and destroys at most once |
| NativeTrace.NothingAfterDestroy | unity/Assets/nhh3/Scripts/Impl/Nhh3Impl.cs:144-146 | a legal trace ends with its destroy, whether that returned or threw |
| NativeTrace.EverydayCallsNeedAConfiguredHandle | unity/Assets/nhh3/Scripts/Impl/Nhh3Impl.cs:104-137 | every other call comes after create and set-options, before destroy, with no call in progress, and on its own thread |
| HostInvariants.RunKeepsInv | unity/Assets/nhh3/Scripts/Impl/Nhh3Impl.cs:95-371 | every interleaving keeps the invariant that ties lock owner, token, task, dictionaries and native trace to the two program counters |
| HostSafety.NativeCallsExclude | unity/Assets/nhh3/Scripts/Impl/Nhh3Impl.cs:128-146 | the threads inside a native call are the calls in progress and never two, the unlocked set-options and destroy included |
| HostSafety.TraceIsLegal | unity/Assets/nhh3/Scripts/Impl/Nhh3Impl.cs:104-146 | over every run the handle is created, configured, used, destroyed at most once after the worker has exited |
| HostSafety.NoCallAfterDestroy | unity/Assets/nhh3/Scripts/Impl/Nhh3Impl.cs:140-157 | no continuation makes another native call for a host whose destroy has ended |
| HostSafety.TokenUse | unity/Assets/nhh3/Scripts/Impl/Nhh3Impl.cs:140-145 | the worker never reads a disposed token; Cancel begins on a live or a disposed token, the latter exactly when qwfsDestroy began before; from then to the join the token is not live |
| HostSafety.DisposedInsideCancel | unity/Assets/nhh3/Scripts/Impl/Nhh3Impl.cs:140-145 | a run in which the worker disposes the token before the Cancel it reacts to has returned |
| HostSafety.ThrowingDestroyLeavesADeadToken | unity/Assets/nhh3/Scripts/Impl/Nhh3Impl.cs:144-154 | a run in which qwfsDestroy throws and the next Destroy cancels a disposed token |
| Shutdown.ShutdownIsBounded | unity/Assets/nhh3/Scripts/Impl/Nhh3Impl.cs:317-371 | after Cancel the worker takes at most 23 steps and begins at most four native calls, whatever throws |
| Shutdown.JoinReturns | unity/Assets/nhh3/Scripts/Impl/Nhh3Impl.cs:144-145 | once the worker has taken them it has exited, the lock is free and the wait returns |
| Shutdown.WorkerNeverBlockedByDestroy | unity/Assets/nhh3/Scripts/Impl/Nhh3Impl.cs:144-145 | while Destroy waits the worker always has an enabled step |
| Shutdown.WorkerRunsOut | unity/Assets/nhh3/Scripts/Impl/Nhh3Impl.cs:319-370 | from Cancel the worker alone reaches the state in which the wait returns |
| Shutdown.NoDeadlock | unity/Assets/nhh3/Scripts/Impl/Nhh3Impl.cs:140-206 | in every reachable state inside an operation the application, or the worker it waits for, can step |
| Shutdown.LockOwnerCanStep | unity/Assets/nhh3/Scripts/Impl/Nhh3Impl.cs:329-358 | whichever thread holds the lock has an enabled step |
| Shutdown.OperationsCanStart | unity/Assets/nhh3/Scripts/Impl/Nhh3Impl.cs:140-225 | between operations an instance that is listed and not cancelled can start each of its operations; Destroy does something exactly for a listed host |
| Shutdown.AnythingCanThrow | unity/Assets/nhh3/Scripts/Impl/Nhh3Impl.cs:104-203 | directory creation, preparing a request and every native call may throw wherever they occur |
| Commands.CallsNeverExceedRequests | unity/Assets/nhh3/Scripts/Impl/Nhh3Impl.cs:208-221 | native calls, set flag and consumed flag of a command never exceed its requests |
| Commands.NoRequestIsLost | unity/Assets/nhh3/Scripts/Impl/Nhh3Impl.cs:329-352 | a request with no native call after it has its flag set or is in the worker's hands, also when earlier commands throw |
| Commands.NothingWithoutARequest | unity/Assets/nhh3/Scripts/Impl/Nhh3Impl.cs:329-352 | an outstanding command has more requests than native calls |
| Commands.OutstandingIsServed | unity/Assets/nhh3/Scripts/Impl/Nhh3Impl.cs:319-362 | under any interleaving an outstanding command's call begins within 22 worker steps unless a call throws or the token is cancelled |
| WorkerGrammar.WorkerCallsFormIterations | unity/Assets/nhh3/Scripts/Impl/Nhh3Impl.cs:319-369 | the worker's calls are iterations of optional retry, abort, reconnect, then update; only a throw ends one early; cancellation falls between them |
| Delivery.CallbacksTakeFromTheFront | unity/Assets/nhh3/Scripts/Impl/Nhh3Impl.cs:260-312 | at every moment inside qwfsIssueCallbacks the host's list followed by the engine's queue is the queue as the call found it: front first, in order |
| Delivery.DeliveryIsConserved | unity/Assets/nhh3/Scripts/Impl/Nhh3Impl.cs:184-206 | over every run the lists Update returned, one after the other, are the completions drained from the engine's queues, in order, if and only if no Update threw after delivering |
| Delivery.UpdateReturnsItsOwnDrain | unity/Assets/nhh3/Scripts/Impl/Nhh3Impl.cs:191-205 | the returned list, which stays in the dictionary, is the whole queue as this Update's qwfsIssueCallbacks found it, and extends the earlier results to everything drained |
| Delivery.ReturnedListStays | unity/Assets/nhh3/Scripts/Impl/Nhh3Impl.cs:191-205 | the shared list is untouched until the next Update or the host's destruction |
| AtomicHost.CommuteBlock | unity/Assets/nhh3/Scripts/Impl/Nhh3Impl.cs:329-358 | steps of the other thread move in front of a locked block without changing its outcome |
| AtomicHost.Atomise | unity/Assets/nhh3/Scripts/Impl/Nhh3Impl.cs:161-203 | every concurrent run ends where a run with whole locked blocks as single steps ends, up to the block under way; each thread does the same in its own order, and the same blocks are on record in the same order |
| BlockTraces.AppBlockPlays | unity/Assets/nhh3/Scripts/Impl/Nhh3Impl.cs:161-203 | an application block adds its own calls in order, stopping only at a throw, as its own actions tell |
| BlockTraces.WorkerBlockPlays | unity/Assets/nhh3/Scripts/Impl/Nhh3Impl.cs:331-358 | a worker block adds exactly one native call |
| BlockTraces.NativeTraceIsWholeBlocks | unity/Assets/nhh3/Scripts/Impl/Nhh3Impl.cs:161-203 | in every run, whenever the lock is free, the native trace is the replay of the blocks the run has released, in order |
| BlockTraces.RecordedBlocksWereEntered | unity/Assets/nhh3/Scripts/Impl/Nhh3Impl.cs:161-203 | those are the blocks the application entered, sizes included, in order, but for the one it is in |
| BlockTraces.WorkerSeesWholeBlocks | unity/Assets/nhh3/Scripts/Impl/Nhh3Impl.cs:354-358 | when qwfsUpdate or another worker call begins, every batch entered and not still waiting for the lock is on record with all its calls, or with those before its exception: no partly published batch |
| BlockTraces.UpdateIsThreeCalls | unity/Assets/nhh3/Scripts/Impl/Nhh3Impl.cs:193-203 | in every run, when an Update in which nothing threw gives back the lock, the native trace ends in progress, callbacks, status, right after what was there when it took it |
| BlockTraces.DetailIsOneCall | unity/Assets/nhh3/Scripts/Impl/Nhh3Impl.cs:223-230 | in every run, when an error query in which nothing threw gives back the lock, the native trace ends in its one call |
| BlockTraces.BatchesAreSubmittedInOrder | unity/Assets/nhh3/Scripts/Impl/Nhh3Impl.cs:163-180 | over a whole run the requests that got through are, batch after batch, each batch's first ones in order, each once, and all of them unless something threw |
| PublishBlock.BatchIsABlock | unity/Assets/nhh3/Scripts/Impl/Nhh3Impl.cs:161-181 | publishing a batch, with any requests and exceptions, is one whole block of the state machine, and the engine sees exactly the calls it accepts or throws on |
| HostSystem.StoryKeepsWorld | unity/Assets/nhh3/Scripts/Impl/Nhh3Impl.cs:63-157 | with any number of hosts every step keeps each host's invariant and the loop state of Uninitialize |
| HostSystem.EveryHostRuns | unity/Assets/nhh3/Scripts/Impl/Nhh3Impl.cs:74-157 | what happens in the system is, for each host, a run of the two-thread machine |
| SystemProperties.EveryHostIsSafe | unity/Assets/nhh3/Scripts/Impl/Nhh3Impl.cs:104-146 | every host of the system has a legal native trace with at most one call in progress |
| SystemProperties.CancelMeetsALiveToken | unity/Assets/nhh3/Scripts/Impl/Nhh3Impl.cs:140-157 | with Destroy and Uninitialize in any order Cancel meets a live token if and only if the host's qwfsDestroy never began, which is always so while no qwfsDestroy has thrown; otherwise Destroy throws |
| SystemProperties.OrphansAreFailedConstructors | unity/Assets/nhh3/Scripts/Impl/Nhh3Impl.cs:103-137 | the handles no instance owns are those whose constructor threw after qwfsCreate |
| SystemProperties.DictionariesAgree | unity/Assets/nhh3/Scripts/Impl/Nhh3Impl.cs:74-137 | between operations the key sets agree if and only if since the last clearing no constructor threw after qwfsCreate and no Uninitialize destroyed a host; while no qwfsDestroy has thrown every listed host is usable with a started, unjoined worker |
| SystemProperties.OthersUntouched | unity/Assets/nhh3/Scripts/Impl/Nhh3Impl.cs:140-206 | over any stretch of operations on other hosts a host's two entries and its list stay, whatever its own worker does |
| SystemProperties.SweepLoopInvariant | unity/Assets/nhh3/Scripts/Impl/Nhh3Impl.cs:63-72 | during Uninitialize the enumerated dictionary does not change, visited hosts are destroyed, and the response keys are the listed hosts not destroyed plus orphaned entries; destroyed means visited while no qwfsDestroy has thrown |
| SystemProperties.UninitializeFindsNoLiveHandle | unity/Assets/nhh3/Scripts/Impl/Nhh3Impl.cs:63-72 | when qwfsUninitialize runs no worker runs, the dictionaries are empty and a handle has been destroyed, once, if and only if its constructor did not throw |
| SystemProperties.SystemNeverStuck | unity/Assets/nhh3/Scripts/Impl/Nhh3Impl.cs:63-206 | inside any operation, Uninitialize included, the application or the worker it waits for can step |
| SystemProperties.SystemCanStart | unity/Assets/nhh3/Scripts/Impl/Nhh3Impl.cs:63-225 | between operations the application can construct, call Uninitialize, and start every operation of a usable instance; a worker's steps are never held up by it |
| Counterexamples.UpdateLosesAResult | unity/Assets/nhh3/Scripts/Impl/Nhh3Impl.cs:191-205 | a run in which an Update delivers, throws, and no Update has returned the result |
| Counterexamples.ConstructorLeavesAnEntry | unity/Assets/nhh3/Scripts/Impl/Nhh3Impl.cs:103-131 | a story in which qwfsSetOptions throws and the response dictionary keeps an entry |
| Counterexamples.UninitializeLeavesAHandle | unity/Assets/nhh3/Scripts/Impl/Nhh3Impl.cs:63-72 | a story in which that handle is still undestroyed when qwfsUninitialize runs |
| Counterexamples.InterruptedUninitialize | unity/Assets/nhh3/Scripts/Impl/Nhh3Impl.cs:63-72 | a story in which the second qwfsDestroy throws and the first host stays listed without a response entry |
| Reachability.CommandFlags.Retry | unity/Assets/nhh3/Scripts/Impl/Nhh3Impl.cs:208-211 | sets the retry flag and no other |
| Reachability.CommandFlags.Abort | unity/Assets/nhh3/Scripts/Impl/Nhh3Impl.cs:213-216 | sets the abort flag and no other |
| Reachability.CommandFlags.Reconnect | unity/Assets/nhh3/Scripts/Impl/Nhh3Impl.cs:218-221 | sets the reconnect flag and no other |
| Reachability.CommandFlags.TestAndClear | unity/Assets/nhh3/Scripts/Impl/Nhh3Impl.cs:329-345 | takes one flag away and reports whether it was set |
| Reachability.NetworkMonitor.constructor | unity/Assets/nhh3/Examples/Scripts/Nhh3SampleCore.cs:172-173 | opening is not a change of reachability |
| Reachability.NetworkMonitor.CheckNetworkReachability | unity/Assets/nhh3/Examples/Scripts/Nhh3SampleCore.cs:198-209 | asks for a reconnect exactly on a change to a reachable network, or raises a null reference there if there is no instance |
| Reachability.Watch | unity/Assets/nhh3/Examples/Scripts/Nhh3SampleCore.cs:198-209 | a monitor taken through any frames asks for exactly as many reconnects as there are changes to a reachable network |
| Reachability.MonitorAsksOnEdges | unity/Assets/nhh3/Examples/Scripts/Nhh3SampleCore.cs:198-209 | the two shifted fields ask for a reconnect in a frame if and only if the observations change to a reachable network |
| Reachability.NetworkMonitor.OnDestroy | unity/Assets/nhh3/Examples/Scripts/Nhh3SampleCore.cs:239-246 | hands the instance over for destruction and forgets it |
| Reachability.OneRequestPerEdge | unity/Assets/nhh3/Examples/Scripts/Nhh3SampleCore.cs:198-209 | over any frames the reconnect requests are as many as the changes to a reachable network |
| Reachability.ReconnectsFollowEdges | unity/Assets/nhh3/Examples/Scripts/Nhh3SampleCore.cs:198-209 | native reconnects never exceed those changes, and each change is followed by one or still outstanding |
| Requests.Normalise | unity/Assets/nhh3/Scripts/Impl/Nhh3Impl.cs:173-176 | the path becomes absolute by at most one added slash, and absolute paths are unchanged |
| Requests.Publisher.PublishRequest | unity/Assets/nhh3/Scripts/Impl/Nhh3Impl.cs:159-182 | the loop submits what the specification of a batch says, under consecutive ids; each request object keeps its path or gets its normalised one, repeated and null elements included |
| Requests.PublishedWhole | unity/Assets/nhh3/Scripts/Impl/Nhh3Impl.cs:163-180 | a batch is published whole if and only if none of its requests makes something throw |
| Requests.BatchKeepsOrder | unity/Assets/nhh3/Scripts/Impl/Nhh3Impl.cs:163-180 | the submissions are the batch's requests in order, each with its normalised path |
| Requests.BatchIdsCountUp | unity/Assets/nhh3/Scripts/Impl/Nhh3Impl.cs:177-179 | below the 64-bit bound a batch's submissions carry consecutive ids, and the counter grows by one for each accepted one |
| Requests.BatchEndsAtFirstFailure | unity/Assets/nhh3/Scripts/Impl/Nhh3Impl.cs:163-180 | a batch ends at its first request that makes something throw, with the exception of the first thing that does, and nothing after it is submitted |
| Requests.AcceptedIdsCountUp | unity/Assets/nhh3/Scripts/Impl/Nhh3Impl.cs:177-179 | over any batches, cut short or not, the accepted ids are 0, 1, 2, ... below 2^64, where they start over, and every submitted path is absolute |
| Requests.AttemptsRepeatAfterAThrow | unity/Assets/nhh3/Scripts/Impl/Nhh3Impl.cs:177-179 | attempted ids are distinct if and only if no attempt follows one that threw |
| ResponseHeaders.ReadResponseHeaders | unity/Assets/nhh3/Scripts/Impl/Nhh3Impl.cs:240-257 | the loop, with 32-bit bound and offsets, comes to its specified outcome; each half of a slot is unset when stored |
| ResponseHeaders.ReadingReadsEntries | unity/Assets/nhh3/Scripts/Impl/Nhh3Impl.cs:240-257 | entry by entry what is read for every count: counts beyond 32 bits are cut down, an offset beyond 31 bits or an odd count fails, a slot without an entry stays null |
| ResponseHeaders.AllPairsOrNot | unity/Assets/nhh3/Scripts/Impl/Nhh3Impl.cs:242-256 | all pairs are read if, and for lists without null entries only if, the count is even and the last offset fits in 32 bits |
| ResponseHeaders.FlattenedPairsAreRead | unity/Assets/nhh3/Scripts/Impl/Nhh3Impl.cs:245-256 | reading a flattened list of pairs gives exactly those pairs in order |
| Instances.Registry.Create | unity/Assets/nhh3/Scripts/Impl/Nhh3Impl.cs:95-138 | the constructor lists the instance if and only if nothing throws and the id is new; a throw leaves the response entry |
| Instances.Registry.Destroy | unity/Assets/nhh3/Scripts/Impl/Nhh3Impl.cs:140-157 | which of its outcomes occurs when, and both dictionaries after each |
| Instances.Registry.Uninitialize | unity/Assets/nhh3/Scripts/Impl/Nhh3Impl.cs:63-72 | completes if and only if every listed instance can be destroyed; then each was, once, and both dictionaries are empty; after an exception exactly the hosts destroyed before it have lost their response entry |
| Instances.StaleInstance | unity/Assets/nhh3/Scripts/Impl/Nhh3Impl.cs:140-157 | with an id given out again, destroying the instance from before throws |
| Instances.ResponseCarries | unity/Assets/nhh3/Scripts/Impl/Nhh3Impl.cs:260-312 | a response carries the fields its completion brought, and every other field is initial; which completions are refused, and with which exception |
| Instances.Registry.RequestFileSuccess | unity/Assets/nhh3/Scripts/Impl/Nhh3Impl.cs:261-272 | appends one response with the path, code and header pairs, all other fields initial, if the headers can be read; else throws and appends nothing |
| Instances.Registry.RequestBinarySuccess | unity/Assets/nhh3/Scripts/Impl/Nhh3Impl.cs:275-298 | appends one response with the code, header pairs and the body, if there is one, all other fields initial; or throws and appends nothing |
| Instances.Registry.RequestError | unity/Assets/nhh3/Scripts/Impl/Nhh3Impl.cs:301-312 | appends one response with status and message, all other fields initial |
| Instances.GoodPrefix | unity/Assets/nhh3/Scripts/Impl/Nhh3Impl.cs:240-312 | the completions before the first whose callback throws |
| Instances.Registry.Update | unity/Assets/nhh3/Scripts/Impl/Nhh3Impl.cs:184-206 | returns the host's own list, whose i-th response carries the i-th drained completion; after a throw the ones delivered before stay in it; no other list is touched |
| SocketAddress.StdAddrToC | Bat/patch/quiche/src/ffi.rs:1440-1534 | stores the structure, ports and octets in network order on every host, and leaves the storage behind it alone |
| SocketAddress.StructureBytes | Bat/patch/quiche/src/ffi.rs:1440-1534 | the stored structure byte by byte: length and family as each system and byte order lays them out, port and octets in network order, flow info and scope id in host order |
| SocketAddress.ReadsExactlyItsFamilies | Bat/patch/quiche/src/ffi.rs:1383-1438 | reading succeeds exactly on the family bytes of the two families with length 16 or 28, and gives the address whose stored fields are the bytes in memory |
| SocketAddress.StoredAddressIsReadBack | Bat/patch/quiche/src/ffi.rs:1383-1534 | every address stored is read back the same, with the returned length, on every platform and byte order |
| SocketAddress.ReadAddressIsStoredBack | Bat/patch/quiche/src/ffi.rs:1383-1534 | an address read and stored again gives the same bytes if and only if they are canonical |
| SocketAddress.NetworkOrder16 | Bat/patch/quiche/src/ffi.rs:1404-1441 | storing to_be of a port gives network order on every host, and from_be undoes it |
| SocketAddress.NetworkOrder32 | Bat/patch/quiche/src/ffi.rs:1390-1402 | the IPv4 address through a host word gives the octets in memory, as the Windows branch reads them |
| HeaderInfo.Buffer.Fill | Bat/patch/quiche/src/ffi.rs:414-422 | one stage copies the field whole and updates the length, or touches nothing |
| HeaderInfo.QuicheHeaderInfo | Bat/patch/quiche/src/ffi.rs:390-452 | returns 0 if and only if parsing succeeds and all fields fit, and -1 if one does not; the type code of each packet type; the fields before the first that does not fit are copied whole, tails preserved, the others untouched |
| HeaderInfo.RepeatReachesTheSameStage | Bat/patch/quiche/src/ffi.rs:414-448 | repeating the call with the lengths it left gets exactly as far |
| HeaderInfo.LengthsMustBeReset | Bat/patch/quiche/src/ffi.rs:414-448 | with lengths left by one packet the next succeeds if and only if none of its fields is longer |
| HeaderInfo.ReadTwoPackets | Bat/patch/quiche/src/ffi.rs:390-452 | the same of two calls on the same buffers; the same packet again gives the same result |

## Left out

- The native engine (qwfs/sources/shared): what its calls do to connections is left open, and its id counter is the freshness assumption above.
- The transport library itself, packet parsing, connection migration, and the one-line forwards in `ffi.rs`; the time conversion, which writes zeros or reinterprets memory.
- HostSystem.StoryKeepsWorld: ids are never reused here; reuse after the engine is initialised again is covered by the dictionary classes only.
- Delivery.DeliveryIsConserved: a completion counts once its callback has delivered it; what the engine does with one whose callback throws is left open.
- ResponseHeaders.ReadResponseHeaders: an allocation that fails for lack of memory is not modelled.
- Instances.Registry.Update: the dictionary classes and the state machine of many hosts describe the same operations separately; no lemma connects their states, as `BatchIsABlock` does for publishing.
- Instances.Registry.Destroy: the cancel and join are one step there; the state machine has them apart.
- Instances.Registry.RequestBinarySuccess: a body whose size does not fit in 32 bits is one exception, whichever of allocation or copy throws it.
- Reachability.CommandFlags.TestAndClear: the exchange is one step of the class; its interleaving with the other thread is in the state machine.
- Requests.Normalise: `StartsWith` is plain comparison of the first character, without culture rules.
- Requests.Publisher.PublishRequest: a request's remaining header contents and save path are passed on unread and not modelled; `StartsWith` is plain comparison of the first character, without culture rules.
- Re-entrant calls from a lazily evaluated batch, from inside the lock the caller already holds. An enumeration that throws is part of the state machine; the batch class takes a list that is there.
- `GetErrorDetail` beyond its locked call: copying the string depends on the lifetime of a native buffer.
- `Initialize`, debug output, marshalling attributes and sleeping; directory creation is only a step that may throw.
- Buttons, texts and progress display of the samples, `Nhh3Manager`, and the forwarding facade in `Nhh3Sharp.cs`.
- Socket wrappers, error-code tables, build files, certificates and Unity assets.
