# The bookkeeping of the uProtocol/SOME-IP transport, verified

`up-transport-vsomeip` bridges uProtocol messages to SOME/IP through the vsomeip C++ library. The
library only accepts plain `extern "C"` callbacks, so the crate generates 10000 of them and hands
their ids out; it correlates requests and responses through two maps; one engine thread issues all
library calls; and a transport registers, unregisters, sends and is dropped on top of that. This
project models those four parts and proves what every run of them keeps.

| file | contents |
|---|---|
| `Uris.dfy` | option/result types, addresses, packing helpers, classification of filters |
| `StatusCodes.dfy` | the two status-code maps and what survives any number of bridges |
| `Allocator.dfy` | the three stores of the callback-id allocator, atomic specification, registry class with rollback |
| `LockSteps.dfy`, `LockRuns.dfy` | the allocator as lock-level steps of any number of concurrent calls: linearizability, partition, dispatch, deadlock freedom, termination |
| `RpcCorrelation.dfy`, `Conversions.dfy` | correlation registry, session counter, converters |
| `RpcProtocol.dfy`, `RpcRuns.dfy` | any number of clients and services over a lossy, reordering, misrouting network: token invariant, RPC safety, lockstep of session ids, end-to-end addresses |
| `Engine.dfy`, `EngineCalls.dfy` | the command loop with a ghost log of library calls; what it answers and calls, in numbers |
| `Stamps.dfy` | the same protocol under a library that stamps requests by its own count |
| `Allocation.dfy`, `Transports.dfy` | the transport class: register, unregister, point-to-point, send, Drop, with an engine that may have stopped |
| `Worlds.dfy` | whole runs with any number of transports: partition, stability, atomic dispatch |
| `Drops.dfy` | what a Drop gives back in such runs, and when it leaks |
| `HandlerTables.dfy`, `Routes.dfy` | the library's handler tables in such runs; response routes of a sequence of sends |

## How to read the main results

- **Interleaved atomicity.** A refused `get_message_handler` releases the free-set lock while the
  id is still in the owner map; `LockRuns.OverlapOccurs` gives a run that reaches this overlap for every
  transport and config. `LockRuns.Linearizable` proves that every run of lock-level steps nevertheless
  equals a history of atomic calls, and `LockRuns.PartitionVisible` that nobody who holds the owner-map
  lock sees the overlap.
- **RPC safety.** `RpcRuns.RpcSafety` ties each delivered response to the request that caused it,
  also after the 16-bit session ids repeat; `RpcRuns.OneToken` says why that is harmless. It rests on
  the wire carrying the recorded request id; `Stamps.SafeUpTo` gives the exact limit when the library
  counts for itself.
- **Lifecycle.** The Register and Unregister steps of `Worlds.dfy` are what `RegisterConfig` and
  `ReleaseConfig` of `Transports.Transport` promise. `Drops.DropConserves`, `Drops.DropReturnsEach` and
  `Drops.DropAlone` say what a Drop gives back, whatever the transport did before, whatever the running
  engine answers, and with other transports working meanwhile.
- **False as one might state them, with the exact condition.**
  - A Drop does not always give its ids back. `Engine.StopsExactlyWhen`: the engine thread of a build that
    checks overflow ends with the 65535th Request of a client. `Drops.DropOutcome`: a Drop runs to its end if
    and only if the engine is running or nothing is stored; else it panics at its first config, and
    `Drops.LeakedForever`: its ids are gone for good. `Drops.OverflowLeaks` is such a run for every config, and
    `Drops.OwnersAliveIff` says when every owner is alive.
  - The wrapping session counter does not follow the standard (section 4.1.2.3, "Request ID", of the
    AUTOSAR SOME/IP Protocol Specification): `RpcCorrelation.WrappingMeetsStandard` says for which calls it does.
  - RPC safety under a library that stamps by the standard: always in a checked build; in a wrapping build up
    to the 65535th request of a host (`Stamps.StampedSafety`) and not beyond (`Stamps.WrapBreaksSafety`).
  - A duplicate config with an empty pool reports exhaustion, and a duplicate reported as such carries the
    pointer of the id just rolled back: `Allocator.GetOutcome`.
  - Unregistering a Publish listener, and most Response listeners, leaves the callback in the library's
    table although its id is free again: `EngineLog.KeysAgree` and `Transports.StaleHandlerIff`.
  - The source a client sees is its own sink only if that sink fits: `RpcRuns.ResponseAddress`.
  - Only eight status codes arrive unchanged: `StatusCodes.PreservedCodes`.

## Assumptions about the environment

- An outgoing request is stamped on the wire with the request id recorded for it; the code never
  sets client and session on requests. `RpcRuns.Lockstep` shows that for the first 65535 requests of a
  host this is what a library that counts its own sends by the standard does; `Stamps.dfy` drops the
  assumption.
- Hosts have different client ids. The network does not duplicate messages; it may lose, delay,
  reorder and misroute them.
- Message ids made by `UMessageBuilder` are fresh. Whether it, or the URI builder, accepts its input
  is left open (`Builder`).
- `ComparableListener` equality is listener identity.
- `UAttributesValidators` guarantees what `Transports.Validated` says: by the kind of a message, which ends
  it has, that a Request has source resource id 0 and a concrete sink, and that Response and Notification
  have sink resource id 0.
- `has_wildcard_*` means `"*"`, 0xFFFF and 0xFF.
- vsomeip's handler table is an exact-key map.
- What a running engine makes of each command of a transport is an arbitrary input (`answers`). That success
  means the command was run is `EngineCalls.OkMeansCalled`; that only the overflow of the session counter ends an
  engine is `Engine.StopsExactlyWhen`.

## Model

| member | source | states |
|---|---|---|
| `Uris.PackSplitInverse` | up-transport-vsomeip/src/utils.rs:16-34 | packing client and session into a request id and splitting it are mutual inverses |
| `Uris.TypeExactly` | up-transport-vsomeip/src/determine_message_type.rs:28-99 | in numbers, exactly when a pair of filters is AllPointToPoint, Publish, Response or Request |
| `Uris.ServiceFilters` | up-transport-vsomeip/src/lib.rs:477-485 | the filters of a configured service in numbers: instance in the high half of the entity id, service in the low half, wildcards elsewhere |
| `Uris.ServiceSinkInjective` | up-transport-vsomeip/src/lib.rs:477-492 | distinct configured services get distinct sink filters, all classified Request |
| `Uris.SwappedRequestIsResponse` | up-transport-vsomeip/src/lib.rs:390-398 | swapping the ends of a Request never gives AllPointToPoint, and gives a Response filter exactly when the source resource is 0 |
| `StatusCodes.DecodedExactly` | up-transport-vsomeip/src/message_conversions.rs:580-595 | for every UCode the exact set of return codes read as it; an error is read as OK only for E_OK |
| `StatusCodes.EncodedExactly` | up-transport-vsomeip/src/message_conversions.rs:236-278 | for every return code the exact set of statuses sent as it, with the message type |
| `StatusCodes.HopsSettle` | up-transport-vsomeip/src/message_conversions.rs:236-278 | success arrives as success and failure never does; n further bridges change nothing, for every n |
| `StatusCodes.PreservedCodes` | up-transport-vsomeip/src/message_conversions.rs:580-595 | exactly eight codes arrive unchanged |
| `Allocator.HandlerStatics.constructor` | vsomeip-proc-macro/src/lib.rs:37-73 | the generated initializer makes all 10000 ids free |
| `Allocator.HandlerStatics.Rollback` | up-transport-vsomeip/src/storage/message_handler_registry.rs:228-231 | the statics become what running the closures in order gives |
| `Allocator.MessageHandlerRegistry.GetMessageHandler` | up-transport-vsomeip/src/storage/message_handler_registry.rs:157-255 | from every state, even a broken one: success moves one free id into both maps; it fails if and only if all three stores are as before, and names a true reason |
| `Allocator.MessageHandlerRegistry.InsertConfig` | up-transport-vsomeip/src/storage/message_handler_registry.rs:466-497 | inserted exactly if neither side is taken; a refusal always carries an error |
| `Allocator.MessageHandlerRegistry.ReleaseMessageHandler` | up-transport-vsomeip/src/storage/message_handler_registry.rs:258-304 | the id of the config leaves both maps and becomes free; NOT_FOUND changes nothing |
| `Allocator.MessageHandlerRegistry.MessageHandlerIds` | up-transport-vsomeip/src/storage/message_handler_registry.rs:325-333 | each stored id exactly once |
| `Allocator.MessageHandlerRegistry.GetAllListenerConfigs` | up-transport-vsomeip/src/storage/message_handler_registry.rs:307-322 | each stored config exactly once |
| `Allocator.MessageHandlerRegistry.GetListenerForMessageHandlerId` | up-transport-vsomeip/src/storage/message_handler_registry.rs:350-361 | the listener of the config under the id, if any |
| `Allocator.GetOutcome` | up-transport-vsomeip/src/storage/message_handler_registry.rs:174-243 | in partitioned states get fails exactly on an empty pool or a duplicate; exhaustion wins over a duplicate; the reported pointer is never the existing one; the partition is kept |
| `Allocator.ReleaseKeepsPartition` | up-transport-vsomeip/src/storage/message_handler_registry.rs:258-304 | release succeeds exactly for a stored config, else NOT_FOUND with no change; it keeps the partition, every other config and every other transport |
| `Allocator.ReleaseUndoesGet` | up-transport-vsomeip/src/storage/message_handler_registry.rs:157-304 | release after a successful get restores all three stores |
| `LockSteps.StepRefines` | up-transport-vsomeip/src/storage/message_handler_registry.rs:163-304 | each lock-level step keeps the lock invariant and is either no atomic step or exactly one |
| `LockRuns.Linearizable` | up-transport-vsomeip/src/storage/message_handler_registry.rs:163-304 | every run replays as atomic calls with exactly the answers given, every atomic state being partitioned |
| `LockRuns.PartitionVisible` | up-transport-vsomeip/src/storage/message_handler_registry.rs:186-231 | whenever the owner-map lock is not write-locked, and for every holder before its own first change, the ids are partitioned |
| `LockRuns.RollbackOverlap` | up-transport-vsomeip/src/storage/message_handler_registry.rs:186-231 | whenever a rollback stands between its two steps, the id is free and mapped while nobody holds the free-set lock and the owner-map lock is held |
| `LockRuns.OverlapOccurs` | up-transport-vsomeip/src/storage/message_handler_registry.rs:186-231 | for every transport and config a run that reaches that point, where the ids are not partitioned |
| `LockRuns.GuardsDropInOrder` | up-transport-vsomeip/src/storage/message_handler_registry.rs:163-304 | in every run, which guards a call still holds for each answer: the order in which the source drops them |
| `LockRuns.RealTimeOrder` | up-transport-vsomeip/src/storage/message_handler_registry.rs:163-304 | a call answered before another began comes first in the history |
| `LockRuns.GetFailsExactlyWhen` | up-transport-vsomeip/src/storage/message_handler_registry.rs:174-243 | in runs get fails exactly on an empty pool or duplicate at its point in the history |
| `LockRuns.DispatchSound` | vsomeip-proc-macro/src/lib.rs:77-165 | with releases and drops interleaved, the transport found is alive at both lookups and the listener delivered owned the id at the second; "not found" needs a release of that id between them; "no transport" means the id is free or its owner dead |
| `LockSteps.BlockedExactlyWhen` | up-transport-vsomeip/src/storage/message_handler_registry.rs:62-66 | a writer waits exactly for the other guards of its lock, a reader only for writers, nobody else at all |
| `LockRuns.NoDeadlock` | up-transport-vsomeip/src/storage/message_handler_registry.rs:163-170 | in every run with an unfinished get, release, dispatch or lookup some call can step |
| `LockRuns.SchedulesEnd` | up-transport-vsomeip/src/storage/message_handler_registry.rs:163-304 | without new calls every schedule is finite, with an explicit bound |
| `RpcCorrelation.SessionIds` | up-transport-vsomeip/src/storage/rpc_correlation.rs:76-83 | the k-th session id of a client under any interleaving: k, then wrap to 0 or panic at call 65535 |
| `RpcCorrelation.RequestIdsDistinct` | up-transport-vsomeip/src/storage/rpc_correlation.rs:76-83 | request ids are pairwise distinct over all clients before the first wrap |
| `RpcCorrelation.WrappingMeetsStandard` | up-transport-vsomeip/src/storage/rpc_correlation.rs:81-82 | exactly for which k the wrapping counter gives the session id of the standard |
| `RpcCorrelation.RpcCorrelationRegistry.RetrieveSessionId` | up-transport-vsomeip/src/storage/rpc_correlation.rs:76-83 | returns the old counter and increments it, or panics without a change |
| `RpcCorrelation.RpcCorrelationRegistry.InsertUeRequestCorrelation` | up-transport-vsomeip/src/storage/rpc_correlation.rs:86-108 | inserted exactly if absent, never overwrites |
| `RpcCorrelation.RpcCorrelationRegistry.RemoveUeRequestCorrelation` | up-transport-vsomeip/src/storage/rpc_correlation.rs:111-130 | removes and returns the entry, or NOT_FOUND |
| `RpcCorrelation.RpcCorrelationRegistry.InsertMeRequestCorrelation` | up-transport-vsomeip/src/storage/rpc_correlation.rs:133-154 | inserted exactly if absent, never overwrites |
| `RpcCorrelation.RpcCorrelationRegistry.RemoveMeRequestCorrelation` | up-transport-vsomeip/src/storage/rpc_correlation.rs:157-174 | removes and returns the entry, or NOT_FOUND |
| `Conversions.UmsgRequestToVsomeipMessage` | up-transport-vsomeip/src/message_conversions.rs:98-168 | the in-place conversion and its registry effects refine `RequestToWire`, errors included |
| `Conversions.UmsgResponseToVsomeipMessage` | up-transport-vsomeip/src/message_conversions.rs:170-262 | the same for `ResponseToWire` |
| `Conversions.VsomeipRequestToUmsg` | up-transport-vsomeip/src/message_conversions.rs:348-425 | the same for `WireToRequest` |
| `Conversions.VsomeipResponseToUmsg` | up-transport-vsomeip/src/message_conversions.rs:427-536 | the same for `WireToResponse`, for responses and errors |
| `Conversions.RequestOnWire` | up-transport-vsomeip/src/message_conversions.rs:98-168 | an outgoing request in numbers: exactly when it fails with which code, every wire field, and the entry it leaves |
| `Conversions.ResponseOnWire` | up-transport-vsomeip/src/message_conversions.rs:170-262 | the same for an outgoing response |
| `Conversions.RequestFromWire` | up-transport-vsomeip/src/message_conversions.rs:348-425 | an incoming request in numbers: failures, source with the sender's client id, sink, and the entry kept for the answer |
| `Conversions.ResponseFromWire` | up-transport-vsomeip/src/message_conversions.rs:427-536 | an incoming response or error in numbers; one that cannot be built is lost with its entry |
| `Conversions.AddressTrip` | up-transport-vsomeip/src/message_conversions.rs:120-141 | an address read back from the wire is the address truncated to the SOME/IP fields |
| `Conversions.EchoedAddress` | up-transport-vsomeip/src/message_conversions.rs:364-389 | two truncations equal one, and truncation is the identity exactly when the address fits and the authority matches |
| `RpcProtocol.ResponseFindsOwn` | up-transport-vsomeip/src/message_conversions.rs:460-463 | the entry a response finds is the one made for the request that caused it, at the host that sent it |
| `RpcProtocol.ShapeKeepsTokens` | up-transport-vsomeip/src/message_conversions.rs:143-161 | every step keeps one token per live request |
| `RpcProtocol.ShapeKeepsBooks` | up-transport-vsomeip/src/message_conversions.rs:216-227 | every step keeps client entries, deliveries and client ids consistent |
| `RpcRuns.OneToken` | up-transport-vsomeip/src/message_conversions.rs:143-422 | in every run one wire request, service entry or wire response per request id, and only while the client's entry for that very request exists |
| `RpcRuns.RpcSafety` | up-transport-vsomeip/src/message_conversions.rs:98-536 | in every run each delivered response carries id and source of exactly the request that caused it, with that reply's payload and status, and no request is answered twice |
| `Stamps.StampRunIsRun` | up-transport-vsomeip/src/message_conversions.rs:143-161 | with at most 65535 requests per host, and always in a checked build, a library that stamps by its own count behaves as one that stamps the recorded id |
| `Stamps.StampedSafety` | up-transport-vsomeip/src/message_conversions.rs:143-161 | so RPC safety holds under such a library within that limit |
| `Stamps.WrapBreaksSafety` | up-transport-vsomeip/src/storage/rpc_correlation.rs:76-83 | a run of a wrapping build in which the answer to the 65536th request is delivered as the answer to the first |
| `Stamps.SafeUpTo` | up-transport-vsomeip/src/storage/rpc_correlation.rs:76-83 | safety in all runs of a wrapping build with at most N requests per host if and only if N is at most 65535 |
| `RpcRuns.RequestArrival` | up-transport-vsomeip/src/message_conversions.rs:348-425 | in every run, what reaches a service is a request some host sent, from that host's client id, at its truncated sink, with its payload |
| `RpcRuns.ResponseAddress` | up-transport-vsomeip/src/message_conversions.rs:120-464 | in every run the source a client sees for an echoing service, and exactly when it is the original sink |
| `RpcRuns.Lockstep` | up-transport-vsomeip/src/transport_engine.rs:781-793 | in every run, until the first wrap, one request handed over per session id taken, the k-th recorded under the k-th request id of the standard |
| `RpcRuns.NextSessionIsNew` | up-transport-vsomeip/src/storage/rpc_correlation.rs:86-108 | before the first wrap the correlation insert cannot fail |
| `EngineLog.EventCallsOnce` | up-transport-vsomeip/src/transport_engine.rs:429-492 | in an ordered log each event is offered, requested and subscribed at most once |
| `EngineLog.KeysAgree` | up-transport-vsomeip/src/transport_engine.rs:630-703 | exactly when unregistration clears the key that registration wrote |
| `Engine.OfferedRequestedRegistry.InsertServiceOffered` | up-transport-vsomeip/src/storage/vsomeip_offered_requested.rs:122-133 | adds exactly that key to that set and says whether it was new |
| `Engine.OfferedRequestedRegistry.InsertServiceRequested` | up-transport-vsomeip/src/storage/vsomeip_offered_requested.rs:148-159 | adds exactly that key to that set and says whether it was new |
| `Engine.OfferedRequestedRegistry.InsertEventOffered` | up-transport-vsomeip/src/storage/vsomeip_offered_requested.rs:174-185 | adds exactly that key to that set and says whether it was new |
| `Engine.OfferedRequestedRegistry.InsertEventRequested` | up-transport-vsomeip/src/storage/vsomeip_offered_requested.rs:200-210 | adds exactly that key to that set and says whether it was new |
| `Engine.EngineThread.RegisterListenerInternal` | up-transport-vsomeip/src/transport_engine.rs:412-616 | keeps the log in order and the registry equal to the blocks run; writes exactly the key of its type |
| `Engine.EngineThread.UnregisterListenerInternal` | up-transport-vsomeip/src/transport_engine.rs:618-724 | clears exactly the key of its type, or fails without a change |
| `Engine.EngineThread.SendPublish` | up-transport-vsomeip/src/message_conversions.rs:36-96 | the offer block, unless run before, and then the notify |
| `Engine.EngineThread.SendInternal` | up-transport-vsomeip/src/transport_engine.rs:726-808 | result, log and correlation registry for every message type |
| `Engine.EngineThread.EventLoop` | up-transport-vsomeip/src/transport_engine.rs:239-410 | the loop refines `HandleAll` over every finite command stream, with any inbound change of the correlation maps between commands |
| `Engine.EngineThread.HandleCommand` | up-transport-vsomeip/src/transport_engine.rs:247-409 | one command with its early exits refines `Handle`; a panic gives no reply |
| `Engine.OneReplyPerCommand` | up-transport-vsomeip/src/transport_engine.rs:247-409 | one result per command, in order, on its own channel; one is missing only after an overflow panic |
| `Engine.PanicEnds` | up-transport-vsomeip/src/storage/rpc_correlation.rs:81-82 | after an overflow panic nothing more is handled |
| `Engine.BlocksOnce` | up-transport-vsomeip/src/transport_engine.rs:429-610 | for every command stream each guarded block runs at most once and completely, every offer, request and subscription is made in a block, and every registration and notify comes after the block of a key its own fields determine |
| `Engine.CallsInOrder` | up-transport-vsomeip/src/transport_engine.rs:764-779 | said of every command stream without keys: event calls at most once, a notify after the offer of its event, a handler registration after the subscription, offer or request it needs |
| `Engine.StopsExactlyWhen` | up-transport-vsomeip/src/storage/rpc_correlation.rs:76-83 | the engine thread ends if and only if overflow is checked and one client has sent 65535 Requests, whatever else is sent or received |
| `EngineCalls.EngineServes` | up-transport-vsomeip/src/transport_engine.rs:239-410 | over every command stream and in numbers: the result each command gets with the code of every failure, exactly its own library calls, and what becomes of table and registry |
| `EngineCalls.OkMeansCalled` | up-transport-vsomeip/src/transport_engine.rs:271-278 | a register, unregister or send command is answered Ok if and only if a library call was made for it; an error leaves log and table as they were |
| `EngineCalls.DoneExactlyWhen` | up-transport-vsomeip/src/storage/vsomeip_offered_requested.rs:109-210 | a guard has been passed exactly if an earlier command needed it, so every library call is a function of the commands alone |
| `EngineCalls.RequestMeetsListener` | up-transport-vsomeip/src/transport_engine.rs:509-547 | a service registered at a sink listens under the service and method a request to that sink is sent with |
| `EngineCalls.ResponseMeetsListener` | up-transport-vsomeip/src/transport_engine.rs:557-610 | a response filter with a source listens under the service and method a response from that source is sent with |
| `Transports.ServiceConfigRepeats` | up-transport-vsomeip/src/lib.rs:477-499 | the point-to-point loop collides with itself exactly on a repeated service |
| `Transports.ServiceListens` | up-transport-vsomeip/src/lib.rs:477-499 | the config of a service in numbers, and the table key of its callback |
| `Transports.TableStepIsHandle` | up-transport-vsomeip/src/transport_engine.rs:412-724 | a command that ran changes the handler table as the engine does |
| `Transports.RouteIsResponse` | up-transport-vsomeip/src/lib.rs:390-398 | a validated message classified Request is one, and its response route is classified Response |
| `Transports.RegisterKeepsTable` | up-transport-vsomeip/src/transport_engine.rs:509-547 | registration keeps every handler in the library's table allocated, if the keys agree |
| `Transports.UnregisterKeepsTable` | up-transport-vsomeip/src/transport_engine.rs:670-678 | so does unregistration with release |
| `Transports.StaleHandlerIff` | up-transport-vsomeip/src/transport_engine.rs:640-703 | after register and unregister the id is free, and its callback is still in the table if and only if the keys disagree or an earlier owner left it there under another key |
| `Transports.Transport.RegisterConfig` | up-transport-vsomeip/src/transport.rs:105-133 | allocation and engine command: fails exactly as the allocator does; otherwise exactly this config is added under one free id and exactly one command with its callback is sent, also when the command fails; a stopped engine gets none |
| `Transports.Transport.ReleaseConfig` | up-transport-vsomeip/src/lib.rs:314-358 | exactly one unregister command, then the release: prevented by a stopped engine, and on the point-to-point path by a failing command |
| `Transports.Transport.RegisterListener` | up-transport-vsomeip/src/transport.rs:87-134 | for given engine answers: which configs are added, which commands are sent and the result, in every branch; the streamer's filters, in numbers, set the slot |
| `Transports.Transport.RegisterPointToPointListener` | up-transport-vsomeip/src/lib.rs:452-530 | for given engine answers: exactly the first n services are added and commanded in order, up to the first failure, with the reason; the slot is set first and stays set |
| `Transports.Transport.UnregisterListener` | up-transport-vsomeip/src/lib.rs:294-360 | with a running engine one command is sent and the config is released whatever the answer, and nothing else; with a stopped one it panics and nothing changes |
| `Transports.Transport.UnregisterPointToPointListener` | up-transport-vsomeip/src/lib.rs:532-621 | one unregister command per configured service in order, and exactly the stored configs whose answer was Completed are released; a stopped engine panics at the first service; the slot is never cleared |
| `Transports.Transport.RegisterForReturningResponse` | up-transport-vsomeip/src/lib.rs:362-450 | exactly the missing response route of a Request is added and commanded; refused exactly on an empty pool; panics exactly if the command for a new route does not complete |
| `Transports.Transport.Send` | up-transport-vsomeip/src/transport.rs:30-85 | for given engine answers: the route added, the commands sent, the result, the session id taken, and every refusal and panic |
| `Transports.Transport.Drop` | up-transport-vsomeip/src/lib.rs:683-702 | every id goes back and nothing else changes if and only if the engine is running or nothing is stored; one unregister command per stored config and one stop command; else nothing changes and it panics |
| `Worlds.OriginStable` | up-transport-vsomeip/src/determine_message_type.rs:28-99 | each of the three places that store a config gives the engine the type recomputation yields, never AllPointToPoint |
| `Worlds.StepKeeps` | up-transport-vsomeip/src/storage/message_handler_registry.rs:375-497 | every lifecycle step keeps the partition over all transports, the stability of stored configs, and the enumeration of a Drop |
| `Worlds.RunKeeps` | up-transport-vsomeip/src/lib.rs:294-621 | so these hold in every state of every run with any engine results |
| `Worlds.AtomicDispatch` | vsomeip-proc-macro/src/lib.rs:77-165 | in one step a callback reaches a listener exactly when a live transport holds the id with it; "not found" is unreachable; no transport exactly when the id is free or its owner dead |
| `Drops.DropOutcome` | up-transport-vsomeip/src/lib.rs:683-702 | a Drop runs to its end if and only if the engine is running or nothing is stored; else it leaves every id mapped to a dead transport |
| `Drops.DropConserves` | up-transport-vsomeip/src/lib.rs:683-702 | with other transports interleaved, a full Drop takes one release step per id held and leaves none |
| `Drops.DropReturnsEach` | up-transport-vsomeip/src/lib.rs:683-702 | each id held at the start is handed back by a step of that Drop |
| `Drops.DropAlone` | up-transport-vsomeip/src/lib.rs:683-702 | alone, a full Drop moves exactly the ids of its transport from the owner map to the free set |
| `Drops.LeakedForever` | up-transport-vsomeip/src/lib.rs:334-336 | an id mapped to a dead transport stays so in every later state and is never free |
| `Drops.OwnersAliveIff` | up-transport-vsomeip/src/lib.rs:334-336 | every owner is alive exactly as long as no Drop has been aborted |
| `Drops.OverflowLeaks` | up-transport-vsomeip/src/lib.rs:334-336 | for every config that can be stored: registering it, sending 65535 Requests and dropping leaks its id in a checked build |
| `HandlerTables.RequestTableSafe` | up-transport-vsomeip/src/lib.rs:553-608 | in every run of Request registrations whose commands complete, no id is both in a library table and free |
| `ResponseRoutes.SendsAddRoutes` | up-transport-vsomeip/src/lib.rs:362-450 | any sequence of sends adds exactly the missing routes of the Requests among them |
| `ResponseRoutes.OneIdPerRoute` | up-transport-vsomeip/src/lib.rs:390-420 | one id per distinct (sink, source) pair, however often it is sent, under the swapped filter with the point-to-point listener |

## Left out

- The vsomeip bindings, the C++ glue and pointer wrappers: the library is a log of calls and a table of handlers.
- Runtimes, threads, channels, timeouts, lock poisoning and sleeps: replaced by atomic or lock-level steps and an open engine result. A command that times out, or is still queued when the engine stops, and so is handled or lost after its caller has gone on, is not modelled; nor is an engine thread that ends for another reason than the overflow, such as a poisoned lock.
- `create_app`, start and stop of the application and the pool of application-state handlers; in the engine loop their results are inputs.
- The JSON configuration: a transport is given its services, or the error of reading them.
- The delegation in `storage.rs`, the tokens of the macros, tracing and protobuf; payload is a byte sequence that is carried along.
- The inbound notification converter and the choice of an inbound converter by message type: no registry is involved.
- Removal of stale entries from the correlation and offered/requested registries: the code never does it.
- In the lock-level model running a rollback closure and dropping the guard it owns are one step.
- Shifts and masks are written as division and remainder.
- RpcSafety: rests on the stamp assumption above; `Stamps.SafeUpTo` says how far it holds without.
- RequestTableSafe: does not cover Publish and Response registrations, because it is false for them; `Transports.StaleHandlerIff` gives the exact condition.
- Liveness of the RPC protocol: the network may lose everything.
