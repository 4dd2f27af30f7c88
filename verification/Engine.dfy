/**
 * The engine thread of transport_engine.rs: it consumes commands one by one, guards each
 * offer/request/subscribe block with the registry of vsomeip_offered_requested.rs, and answers each
 * command on its own channel. The vsomeip library is a log of the calls made to it and a table of
 * message handlers.
 */
module EngineLog {
  import opened Wrappers
  import opened Uris
  import opened Allocator
  import opened Conversions

  const ANY_INSTANCE: u16 := 0xFFFF
  const ANY_MAJOR: u8 := 0xFF

  /** Which of the four sets of the offered/requested registry. */
  datatype GuardKind = ServiceOffered | ServiceRequested | EventOffered | EventRequested

  datatype GuardKey = GuardKey(kind: GuardKind, service: u16, instance: u16, id: u16)

  datatype LibCall =
    | OfferService(service: u16, instance: u16, major: u8)
    | OfferEvent(service: u16, instance: u16, event: u16)
    | RequestService(service: u16, instance: u16)
    | RequestEvent(service: u16, instance: u16, event: u16)
    | Subscribe(service: u16, instance: u16, event: u16)
    | RegisterHandler(service: u16, instance: u16, id: u16, handler: ExternFn)
    | UnregisterHandler(service: u16, instance: u16, id: u16)
    | Notify(service: u16, instance: u16, event: u16, payload: seq<u8>)
    | SendMessage(wire: Wire)

  /** A call inside the guarded block of a key, a call that relies on that block, or another call. */
  datatype Entry =
    | InBlock(key: GuardKey, call: LibCall)
    | Relying(key: GuardKey, call: LibCall)
    | Plain(call: LibCall)

  /** The calls made in the block of `k`, in order. */
  function Project(log: seq<Entry>, k: GuardKey): seq<LibCall> {
    if log == [] then []
    else
      var last := log[|log| - 1];
      Project(log[..|log| - 1], k) + (if last.InBlock? && last.key == k then [last.call] else [])
  }

  lemma {:induction false} ProjectAppend(log: seq<Entry>, more: seq<Entry>, k: GuardKey)
    ensures Project(log + more, k) == Project(log, k) + Project(more, k)
    decreases |more|
  {
    if more == [] {
      assert log + more == log;
    } else {
      ProjectAppend(log, more[..|more| - 1], k);
      assert (log + more)[..|log + more| - 1] == log + more[..|more| - 1];
    }
  }

  /** The block a key stands for. */
  ghost predicate IsBlock(k: GuardKey, calls: seq<LibCall>) {
    match k.kind
    case ServiceOffered => exists major :: calls == [OfferService(k.service, k.instance, major)]
    case ServiceRequested => calls == [RequestService(k.service, k.instance)]
    case EventOffered =>
      calls == [OfferService(k.service, k.instance, ANY_MAJOR), OfferEvent(k.service, k.instance, k.id)]
    case EventRequested =>
      calls == [RequestService(k.service, k.instance), RequestEvent(k.service, k.instance, k.id),
                Subscribe(k.service, k.instance, k.id)]
  }

  /** The only key whose block contains a given event call. */
  function EventKey(c: LibCall): Option<GuardKey> {
    match c
    case OfferEvent(s, i, e) => Some(GuardKey(EventOffered, s, i, e))
    case RequestEvent(s, i, e) => Some(GuardKey(EventRequested, s, i, e))
    case Subscribe(s, i, e) => Some(GuardKey(EventRequested, s, i, e))
    case _ => None
  }

  /** The keys whose block makes a handler registration legitimate: one for each type of registration. */
  predicate Licenses(k: GuardKey, service: u16, instance: u16, id: u16) {
    || (k == GuardKey(EventRequested, service, 1, id) && instance == 1)
    || (k == GuardKey(ServiceOffered, service, 1, id) && instance == ANY_INSTANCE)
    || (k == GuardKey(ServiceRequested, service, ANY_INSTANCE, id) && instance == ANY_INSTANCE)
  }

  /** Which entry a library call may make: the call alone decides, not how the code tagged it. */
  predicate EntryOk(e: Entry) {
    match e.call
    case OfferService(s, i, _) =>
      e.InBlock? && e.key.service == s && e.key.instance == i && (e.key.kind == ServiceOffered || e.key.kind == EventOffered)
    case RequestService(s, i) =>
      e.InBlock? && e.key.service == s && e.key.instance == i && (e.key.kind == ServiceRequested || e.key.kind == EventRequested)
    case OfferEvent(_, _, _) => e.InBlock? && Some(e.key) == EventKey(e.call)
    case RequestEvent(_, _, _) => e.InBlock? && Some(e.key) == EventKey(e.call)
    case Subscribe(_, _, _) => e.InBlock? && Some(e.key) == EventKey(e.call)
    case Notify(s, i, event, _) => e.Relying? && e.key == GuardKey(EventOffered, s, i, event)
    case RegisterHandler(s, i, id, _) => e.Relying? && Licenses(e.key, s, i, id)
    case UnregisterHandler(_, _, _) => e.Plain?
    case SendMessage(_) => e.Plain?
  }

  /**
   * Every block ran at most once and completely, every handler registration and every notify comes
   * after the block of a key its own fields determine, and every offer, request and subscription is
   * made inside such a block.
   */
  ghost predicate LogOk(log: seq<Entry>) {
    && (forall k :: Project(log, k) == [] || IsBlock(k, Project(log, k)))
    && (forall n :: 0 <= n < |log| && log[n].Relying? ==> IsBlock(log[n].key, Project(log[..n], log[n].key)))
    && (forall n :: 0 <= n < |log| ==> EntryOk(log[n]))
  }

  function BlockEntries(k: GuardKey, calls: seq<LibCall>): (r: seq<Entry>)
    ensures |r| == |calls| && forall n :: 0 <= n < |r| ==> r[n] == InBlock(k, calls[n])
  {
    seq(|calls|, n requires 0 <= n < |calls| => InBlock(k, calls[n]))
  }

  lemma {:induction false} ProjectBlock(k: GuardKey, calls: seq<LibCall>, j: GuardKey)
    ensures Project(BlockEntries(k, calls), j) == if j == k then calls else []
    decreases |calls|
  {
    if calls != [] {
      var n := |calls| - 1;
      ProjectBlock(k, calls[..n], j);
      assert BlockEntries(k, calls)[..n] == BlockEntries(k, calls[..n]);
    }
  }

  /** The log after a guard: the block, unless it was run before. */
  function Ensured(log: seq<Entry>, k: GuardKey, block: seq<LibCall>): seq<Entry> {
    if Project(log, k) == [] then log + BlockEntries(k, block) else log
  }

  /** The log after a guarded operation: the guard, then the call that relies on it. */
  function Guarded(log: seq<Entry>, k: GuardKey, block: seq<LibCall>, call: LibCall): seq<Entry> {
    Ensured(log, k, block) + [Relying(k, call)]
  }

  lemma BlockProjects(log: seq<Entry>, k: GuardKey, block: seq<LibCall>)
    requires Project(log, k) == []
    ensures forall j :: Project(log + BlockEntries(k, block), j) == if j == k then block else Project(log, j)
  {
    forall j ensures Project(log + BlockEntries(k, block), j) == if j == k then block else Project(log, j) {
      ProjectAppend(log, BlockEntries(k, block), j);
      ProjectBlock(k, block, j);
    }
  }

  lemma BlockKeepsLog(log: seq<Entry>, k: GuardKey, block: seq<LibCall>)
    requires LogOk(log) && Project(log, k) == [] && IsBlock(k, block)
    ensures LogOk(log + BlockEntries(k, block))
  {
    var log' := log + BlockEntries(k, block);
    BlockProjects(log, k, block);
    forall n | 0 <= n < |log'| && log'[n].Relying? ensures IsBlock(log'[n].key, Project(log'[..n], log'[n].key)) {
      assert n < |log| && log'[..n] == log[..n];
    }
    forall n | 0 <= n < |log'| ensures EntryOk(log'[n]) {
      if n >= |log| {
        BlockEntryOk(k, block, n - |log|);
      }
    }
  }

  lemma BlockEntryOk(k: GuardKey, block: seq<LibCall>, n: nat)
    requires IsBlock(k, block) && n < |block|
    ensures EntryOk(InBlock(k, block[n]))
  {
  }

  /** One more call that is in no block. */
  lemma AppendKeepsLog(log: seq<Entry>, e: Entry)
    requires LogOk(log) && !e.InBlock? && EntryOk(e)
    requires e.Relying? ==> IsBlock(e.key, Project(log, e.key))
    ensures LogOk(log + [e])
    ensures forall k :: Project(log + [e], k) == Project(log, k)
  {
    var log' := log + [e];
    assert log'[..|log|] == log;
    forall n | 0 <= n < |log'| && log'[n].Relying? ensures IsBlock(log'[n].key, Project(log'[..n], log'[n].key)) {
      assert n < |log| ==> log'[..n] == log[..n];
    }
  }

  /** After a guard the log is in order and contains the block of the key. */
  lemma EnsuredKeepsLog(log: seq<Entry>, k: GuardKey, block: seq<LibCall>)
    requires LogOk(log) && IsBlock(k, block)
    ensures LogOk(Ensured(log, k, block)) && IsBlock(k, Project(Ensured(log, k, block), k))
    ensures forall j :: Project(Ensured(log, k, block), j) != [] <==> Project(log, j) != [] || j == k
  {
    if Project(log, k) == [] {
      BlockKeepsLog(log, k, block);
      BlockProjects(log, k, block);
    }
  }

  function CountCall(log: seq<Entry>, c: LibCall): nat {
    if log == [] then 0 else CountCall(log[..|log| - 1], c) + (if log[|log| - 1].call == c then 1 else 0)
  }

  function CountIn(calls: seq<LibCall>, c: LibCall): nat {
    if calls == [] then 0 else CountIn(calls[..|calls| - 1], c) + (if calls[|calls| - 1] == c then 1 else 0)
  }

  lemma CountInSnoc(calls: seq<LibCall>, last: LibCall, c: LibCall)
    ensures CountIn(calls + [last], c) == CountIn(calls, c) + (if last == c then 1 else 0)
  {
    assert (calls + [last])[..|calls|] == calls;
  }

  lemma {:induction false} EventCallsInBlock(log: seq<Entry>, c: LibCall)
    requires EventKey(c).Some? && forall n :: 0 <= n < |log| ==> EntryOk(log[n])
    ensures CountCall(log, c) == CountIn(Project(log, EventKey(c).value), c)
    decreases |log|
  {
    if log != [] {
      var k, rest, last := EventKey(c).value, log[..|log| - 1], log[|log| - 1];
      EventCallsInBlock(rest, c);
      assert EntryOk(last);
      if last.InBlock? && last.key == k {
        CountInSnoc(Project(rest, k), last.call, c);
      } else {
        assert Project(rest, k) + [] == Project(rest, k);
      }
    }
  }

  /** Said without keys: each event is offered, requested and subscribed at most once. */
  lemma EventCallsOnce(log: seq<Entry>, c: LibCall)
    requires LogOk(log) && EventKey(c).Some?
    ensures CountCall(log, c) <= 1
  {
    EventCallsInBlock(log, c);
    var p := Project(log, EventKey(c).value);
    if p != [] {
      assert IsBlock(EventKey(c).value, p);
      if c.OfferEvent? {
        assert p[..1] == [p[0]] && p[..1][..0] == [];
        assert CountIn(p[..1], c) == 0;
      } else {
        assert p[..2][..1] == [p[0]] && p[..2][..1][..0] == [];
        assert CountIn(p[..2][..1], c) == 0;
        assert p[..2] == [p[0], p[1]];
      }
    }
  }

  ghost predicate Made(log: seq<Entry>, c: LibCall) {
    exists m :: 0 <= m < |log| && log[m].call == c
  }

  /**
   * What must have been called before `c`: the offer of the event before a notify; the subscription,
   * the offer or the request of the service before a handler registration.
   */
  ghost predicate Prepared(log: seq<Entry>, c: LibCall) {
    match c
    case Notify(s, i, event, _) => Made(log, OfferEvent(s, i, event))
    case RegisterHandler(s, i, id, _) =>
      || (i == 1 && Made(log, Subscribe(s, 1, id)))
      || (i == ANY_INSTANCE && exists major :: Made(log, OfferService(s, 1, major)))
      || (i == ANY_INSTANCE && Made(log, RequestService(s, ANY_INSTANCE)))
    case _ => true
  }

  lemma {:induction false} ProjectedMade(log: seq<Entry>, k: GuardKey, c: LibCall)
    requires c in Project(log, k)
    ensures Made(log, c)
    decreases |log|
  {
    var n := |log| - 1;
    if c in Project(log[..n], k) {
      ProjectedMade(log[..n], k, c);
      var m :| 0 <= m < n && log[..n][m].call == c;
      assert log[m].call == c;
    } else {
      assert log[n].call == c;
    }
  }

  lemma LogPrepares(log: seq<Entry>, n: nat)
    requires LogOk(log) && n < |log|
    ensures Prepared(log[..n], log[n].call)
  {
    assert EntryOk(log[n]);
    if log[n].Relying? {
      var k := log[n].key;
      var block := Project(log[..n], k);
      assert IsBlock(k, block);
      forall c | c in block ensures Made(log[..n], c) {
        ProjectedMade(log[..n], k, c);
      }
      match k.kind
      case ServiceOffered =>
        var major :| block == [OfferService(k.service, k.instance, major)];
        assert block[0] in block;
      case ServiceRequested => assert block[0] in block;
      case EventOffered => assert block[1] in block;
      case EventRequested => assert block[2] in block;
    }
  }

  // ----- keys of listeners -----

  /** The library's handler table of one application. */
  type Table = map<(u16, u16, u16), ExternFn>

  function Low(x: u32): u16 {
    SplitU32ToU16(x).1
  }

  /** The guard of a registration; None when a Request has no sink, or the type cannot be registered. */
  function GuardOf(kind: RegistrationType, source: UUri, sink: Option<UUri>): Option<GuardKey> {
    match kind
    case Publish => Some(GuardKey(EventRequested, Low(source.ueId), 1, Low(source.resource)))
    case Request =>
      if sink.None? then None else Some(GuardKey(ServiceOffered, Low(sink.value.ueId), 1, Low(sink.value.resource)))
    case Response => Some(GuardKey(ServiceRequested, Low(source.ueId), ANY_INSTANCE, Low(source.resource)))
    case AllPointToPoint => None
  }

  /** The key of the library's handler table a registration writes. */
  function TableKey(kind: RegistrationType, source: UUri, sink: Option<UUri>): Option<(u16, u16, u16)> {
    match kind
    case Publish => Some((Low(source.ueId), 1, Low(source.resource)))
    case Request =>
      if sink.None? then None else Some((Low(sink.value.ueId), ANY_INSTANCE, Low(sink.value.resource)))
    case Response => Some((Low(source.ueId), ANY_INSTANCE, Low(source.resource)))
    case AllPointToPoint => None
  }

  /** The key of the library's handler table an unregistration clears. */
  function UntableKey(kind: RegistrationType, source: UUri, sink: Option<UUri>): Option<(u16, u16, u16)> {
    match kind
    case Publish => Some((Low(source.ueId), ANY_INSTANCE, Low(source.resource)))
    case Request =>
      if sink.None? then None else Some((Low(sink.value.ueId), ANY_INSTANCE, Low(sink.value.resource)))
    case Response =>
      if sink.None? then None else Some((Low(sink.value.ueId), ANY_INSTANCE, Low(sink.value.resource)))
    case AllPointToPoint => None
  }

  /** The block of a registration. */
  function BlockOf(k: GuardKey, major: u8): seq<LibCall> {
    match k.kind
    case ServiceOffered => [OfferService(k.service, k.instance, major)]
    case ServiceRequested => [RequestService(k.service, k.instance)]
    case EventOffered =>
      [OfferService(k.service, k.instance, ANY_MAJOR), OfferEvent(k.service, k.instance, k.id)]
    case EventRequested =>
      [RequestService(k.service, k.instance), RequestEvent(k.service, k.instance, k.id),
       Subscribe(k.service, k.instance, k.id)]
  }

  /**
   * Exactly when unregistering a config clears the table key its registration wrote: always for
   * Request; never for Publish; for Response only if source and sink agree in the low halves.
   */
  lemma KeysAgree(source: UUri, sink: Option<UUri>)
    ensures var kind := DetermineType(source, sink);
      TableKey(kind, source, sink) == UntableKey(kind, source, sink) <==>
        match kind
        case Publish => false
        case Request => true
        case Response =>
          source.ueId % 0x1_0000 == sink.value.ueId % 0x1_0000 && source.resource % 0x1_0000 == 0
        case AllPointToPoint => true
  {
  }
}

module Engine {
  import opened Wrappers
  import opened Uris
  import opened StatusCodes
  import opened Allocator
  import opened RpcCorrelation
  import opened Conversions
  import opened EngineLog

  class OfferedRequestedRegistry {
    var offeredServices: set<(u16, u16, u16)>
    var requestedServices: set<(u16, u16, u16)>
    var offeredEvents: set<(u16, u16, u16)>
    var requestedEvents: set<(u16, u16, u16)>

    constructor ()
      ensures forall k :: !Has(k)
    {
      offeredServices, requestedServices, offeredEvents, requestedEvents := {}, {}, {}, {};
    }

    predicate Has(k: GuardKey)
      reads this
    {
      var t := (k.service, k.instance, k.id);
      match k.kind
      case ServiceOffered => t in offeredServices
      case ServiceRequested => t in requestedServices
      case EventOffered => t in offeredEvents
      case EventRequested => t in requestedEvents
    }

    method InsertServiceOffered(s: u16, i: u16, m: u16) returns (added: bool)
      modifies this
      ensures forall k :: Has(k) <==> old(Has(k)) || k == GuardKey(ServiceOffered, s, i, m)
      ensures added <==> !old(Has(GuardKey(ServiceOffered, s, i, m)))
    {
      added := (s, i, m) !in offeredServices;
      offeredServices := offeredServices + {(s, i, m)};
    }

    method InsertServiceRequested(s: u16, i: u16, m: u16) returns (added: bool)
      modifies this
      ensures forall k :: Has(k) <==> old(Has(k)) || k == GuardKey(ServiceRequested, s, i, m)
      ensures added <==> !old(Has(GuardKey(ServiceRequested, s, i, m)))
    {
      added := (s, i, m) !in requestedServices;
      requestedServices := requestedServices + {(s, i, m)};
    }

    method InsertEventOffered(s: u16, i: u16, e: u16) returns (added: bool)
      modifies this
      ensures forall k :: Has(k) <==> old(Has(k)) || k == GuardKey(EventOffered, s, i, e)
      ensures added <==> !old(Has(GuardKey(EventOffered, s, i, e)))
    {
      added := (s, i, e) !in offeredEvents;
      offeredEvents := offeredEvents + {(s, i, e)};
    }

    method InsertEventRequested(s: u16, i: u16, e: u16) returns (added: bool)
      modifies this
      ensures forall k :: Has(k) <==> old(Has(k)) || k == GuardKey(EventRequested, s, i, e)
      ensures added <==> !old(Has(GuardKey(EventRequested, s, i, e)))
    {
      added := (s, i, e) !in requestedEvents;
      requestedEvents := requestedEvents + {(s, i, e)};
    }
  }

  type Channel = int

  datatype Command =
    | RegisterListener(source: UUri, sink: Option<UUri>, kind: RegistrationType, handler: ExternFn, channel: Channel)
    | UnregisterListener(source: UUri, sink: Option<UUri>, kind: RegistrationType, channel: Channel)
    | Send(msg: UMessage, channel: Channel)
    | StartVsomeipApp(channel: Channel)
    | StopVsomeipApp(channel: Channel)

  /**
   * What the environment decides while a command is handled, and the two correlation maps as the
   * inbound converters on other threads have left them; those never touch the session counters.
   */
  datatype Env = Env(appExists: bool, client: u16, started: Result<(), UCode>,
                     ue: map<u32, (Uid, UUri)>, me: map<Uid, u32>)

  datatype Reply = Reply(channel: Channel, result: Result<(), UCode>)

  class EngineThread {
    const registry: OfferedRequestedRegistry
    const rpc: RpcCorrelationRegistry
    ghost var log: seq<Entry>
    ghost var table: Table

    constructor (build: Build)
      ensures Valid() && log == [] && table == map[] && rpc.build == build && fresh(registry) && fresh(rpc)
    {
      registry := new OfferedRequestedRegistry();
      rpc := new RpcCorrelationRegistry(build);
      log, table := [], map[];
    }

    /** The registry knows exactly the blocks in the log. */
    ghost predicate Valid()
      reads this, registry
    {
      && LogOk(log)
      && forall k :: registry.Has(k) <==> Project(log, k) != []
    }

    /** What a completed registration leaves in the log and in the handler table. */
    twostate predicate Registered(source: UUri, sink: Option<UUri>, kind: RegistrationType, handler: ExternFn)
      reads this, rpc
    {
      RegisterResult(source, sink, kind).Ok? && State() == RegisterState(old(State()), source, sink, kind, handler)
    }

    /** The guard of `k` has been passed: its block is in the log, run now or before. */
    twostate predicate EnsuredBy(k: GuardKey, major: u8)
      reads this
    {
      log == Ensured(old(log), k, BlockOf(k, major)) && IsBlock(k, Project(log, k))
    }

    method GuardEventRequested(service: u16, instance: u16, event: u16)
      requires Valid()
      modifies this, registry
      ensures Valid() && table == old(table)
      ensures EnsuredBy(GuardKey(EventRequested, service, instance, event), ANY_MAJOR)
    {
      ghost var k := GuardKey(EventRequested, service, instance, event);
      EnsuredKeepsLog(log, k, BlockOf(k, ANY_MAJOR));
      assert registry.Has(k) <==> (service, instance, event) in registry.requestedEvents;
      if (service, instance, event) !in registry.requestedEvents {
        log := log + [InBlock(k, RequestService(service, instance)),
                      InBlock(k, RequestEvent(service, instance, event)),
                      InBlock(k, Subscribe(service, instance, event))];
        assert log == old(log) + BlockEntries(k, BlockOf(k, ANY_MAJOR));
        var _ := registry.InsertEventRequested(service, instance, event);
      }
    }

    method GuardServiceOffered(service: u16, instance: u16, method_: u16, major: u8)
      requires Valid()
      modifies this, registry
      ensures Valid() && table == old(table)
      ensures EnsuredBy(GuardKey(ServiceOffered, service, instance, method_), major)
    {
      ghost var k := GuardKey(ServiceOffered, service, instance, method_);
      EnsuredKeepsLog(log, k, BlockOf(k, major));
      assert registry.Has(k) <==> (service, instance, method_) in registry.offeredServices;
      if (service, instance, method_) !in registry.offeredServices {
        log := log + [InBlock(k, OfferService(service, instance, major))];
        assert log == old(log) + BlockEntries(k, BlockOf(k, major));
        var _ := registry.InsertServiceOffered(service, instance, method_);
      }
    }

    method GuardServiceRequested(service: u16, instance: u16, method_: u16)
      requires Valid()
      modifies this, registry
      ensures Valid() && table == old(table)
      ensures EnsuredBy(GuardKey(ServiceRequested, service, instance, method_), ANY_MAJOR)
    {
      ghost var k := GuardKey(ServiceRequested, service, instance, method_);
      EnsuredKeepsLog(log, k, BlockOf(k, ANY_MAJOR));
      assert registry.Has(k) <==> (service, instance, method_) in registry.requestedServices;
      if (service, instance, method_) !in registry.requestedServices {
        log := log + [InBlock(k, RequestService(service, instance))];
        assert log == old(log) + BlockEntries(k, BlockOf(k, ANY_MAJOR));
        var _ := registry.InsertServiceRequested(service, instance, method_);
      }
    }

    // The await of umsg_publish_to_vsomeip_notification stands before the insertion; the engine thread handles no other
    // command meanwhile, and nobody else writes to the registry.
    method GuardEventOffered(service: u16, instance: u16, event: u16)
      requires Valid()
      modifies this, registry
      ensures Valid() && table == old(table)
      ensures EnsuredBy(GuardKey(EventOffered, service, instance, event), ANY_MAJOR)
    {
      ghost var k := GuardKey(EventOffered, service, instance, event);
      EnsuredKeepsLog(log, k, BlockOf(k, ANY_MAJOR));
      assert registry.Has(k) <==> (service, instance, event) in registry.offeredEvents;
      if (service, instance, event) !in registry.offeredEvents {
        log := log + [InBlock(k, OfferService(service, instance, ANY_MAJOR)),
                      InBlock(k, OfferEvent(service, instance, event))];
        assert log == old(log) + BlockEntries(k, BlockOf(k, ANY_MAJOR));
        var _ := registry.InsertEventOffered(service, instance, event);
      }
    }

    method RegisterPublish(source: UUri, sink: Option<UUri>, handler: ExternFn)
      requires Valid()
      modifies this, registry
      ensures Valid() && Registered(source, sink, Publish, handler)
    {
      var service, instance: u16, event := Low(source.ueId), 1, Low(source.resource);
      GuardEventRequested(service, instance, event);
      RegisterHandlerFn(GuardKey(EventRequested, service, instance, event), service, instance, event, handler);
    }

    method RegisterRequest(source: UUri, sink: UUri, handler: ExternFn)
      requires Valid()
      modifies this, registry
      ensures Valid() && Registered(source, Some(sink), Request, handler)
    {
      var service, instance: u16, method_ := Low(sink.ueId), 1, Low(sink.resource);
      GuardServiceOffered(service, instance, method_, LowByte(sink.version));
      RegisterHandlerFn(GuardKey(ServiceOffered, service, instance, method_), service, ANY_INSTANCE, method_, handler);
    }

    method RegisterResponse(source: UUri, sink: Option<UUri>, handler: ExternFn)
      requires Valid()
      modifies this, registry
      ensures Valid() && Registered(source, sink, Response, handler)
    {
      var service, instance, method_ := Low(source.ueId), ANY_INSTANCE, Low(source.resource);
      GuardServiceRequested(service, instance, method_);
      RegisterHandlerFn(GuardKey(ServiceRequested, service, instance, method_), service, instance, method_, handler);
    }

    /** register_message_handler_fn_ptr_safe, after the guard of `k`. */
    method RegisterHandlerFn(ghost k: GuardKey, service: u16, instance: u16, id: u16, handler: ExternFn)
      requires Valid() && IsBlock(k, Project(log, k)) && Licenses(k, service, instance, id)
      modifies this
      ensures Valid()
      ensures log == old(log) + [Relying(k, RegisterHandler(service, instance, id, handler))]
      ensures table == old(table)[(service, instance, id) := handler]
    {
      AppendKeepsLog(log, Relying(k, RegisterHandler(service, instance, id, handler)));
      log := log + [Relying(k, RegisterHandler(service, instance, id, handler))];
      table := table[(service, instance, id) := handler];
    }

    method RegisterListenerInternal(source: UUri, sink: Option<UUri>, kind: RegistrationType, handler: ExternFn)
      returns (r: Result<(), UCode>)
      requires Valid()
      modifies this, registry
      ensures Valid()
      ensures r == RegisterResult(source, sink, kind)
      ensures r.Ok? ==> Registered(source, sink, kind, handler)
      ensures r.Err? ==> State() == old(State())
    {
      match kind {
        case Publish =>
          RegisterPublish(source, sink, handler);
          r := Ok(());
        case Request =>
          if sink.None? {
            return Err(INVALID_ARGUMENT);
          }
          RegisterRequest(source, sink.value, handler);
          r := Ok(());
        case Response =>
          RegisterResponse(source, sink, handler);
          r := Ok(());
        case AllPointToPoint =>
          r := Err(INTERNAL);
      }
    }

    method UnregisterListenerInternal(source: UUri, sink: Option<UUri>, kind: RegistrationType)
      returns (r: Result<(), UCode>)
      requires Valid()
      modifies this
      ensures Valid()
      ensures r == UnregisterResult(source, sink, kind)
      ensures State() == if r.Ok? then UnregisterState(old(State()), source, sink, kind) else old(State())
    {
      var uri := source;
      match kind {
        case Publish =>
        case Request =>
          if sink.None? {
            return Err(INVALID_ARGUMENT);
          }
          uri := sink.value;
        case Response =>
          if sink.None? {
            return Err(INVALID_ARGUMENT);
          }
          uri := sink.value;
        case AllPointToPoint =>
          return Err(INTERNAL);
      }
      var service, instance, method_ := Low(uri.ueId), ANY_INSTANCE, Low(uri.resource);
      AppendKeepsLog(log, Plain(UnregisterHandler(service, instance, method_)));
      log := log + [Plain(UnregisterHandler(service, instance, method_))];
      table := table - {(service, instance, method_)};
      r := Ok(());
    }

    /** umsg_publish_to_vsomeip_notification followed by notify. */
    method SendPublish(msg: UMessage) returns (r: Result<(), UCode>)
      requires Valid()
      modifies this, registry
      ensures Valid() && table == old(table)
      ensures r == if msg.source.None? then Err(INVALID_ARGUMENT) else Ok(())
      ensures log == if r.Ok? then PublishLog(old(log), msg.source.value, Bytes(msg)) else old(log)
    {
      if msg.source.None? {
        return Err(INVALID_ARGUMENT);
      }
      var service, instance: u16, event := Low(msg.source.value.ueId), 1, Low(msg.source.value.resource);
      GuardEventOffered(service, instance, event);
      ghost var k := GuardKey(EventOffered, service, instance, event);
      AppendKeepsLog(log, Relying(k, Notify(service, instance, event, Bytes(msg))));
      log := log + [Relying(k, Notify(service, instance, event, Bytes(msg)))];
      r := Ok(());
    }

    /** send_internal */
    method SendInternal(msg: UMessage, client: u16) returns (r: Result<(), Failure>)
      requires Valid()
      modifies this, registry, rpc
      ensures Valid()
      ensures r == SendResult(old(rpc.View()), rpc.build, client, msg)
      ensures State() == SendState(old(State()), rpc.build, client, msg)
    {
      match msg.kind {
        case UNSPECIFIED =>
          r := Err(Status(INVALID_ARGUMENT));
        case NOTIFICATION =>
          r := Err(Status(INVALID_ARGUMENT));
        case PUBLISH =>
          var published := SendPublish(msg);
          r := if published.Ok? then Ok(()) else Err(Status(published.error));
        case REQUEST =>
          var wire := UmsgRequestToVsomeipMessage(msg, rpc, client);
          if wire.Err? {
            return Err(wire.error);
          }
          AppendKeepsLog(log, Plain(SendMessage(wire.value)));
          log := log + [Plain(SendMessage(wire.value))];
          r := Ok(());
        case RESPONSE =>
          var wire := UmsgResponseToVsomeipMessage(msg, rpc);
          if wire.Err? {
            return Err(wire.error);
          }
          AppendKeepsLog(log, Plain(SendMessage(wire.value)));
          log := log + [Plain(SendMessage(wire.value))];
          r := Ok(());
      }
    }

    ghost function State(): EngineState
      reads this, rpc
    {
      EngineState(log, table, rpc.View())
    }

    /** The command loop over a finite stream. */
    method EventLoop(commands: seq<Command>, env: seq<Env>) returns (replies: seq<Reply>, panicked: bool)
      requires |env| == |commands| && Valid()
      modifies this, registry, rpc
      ensures Valid()
      ensures Outcome(State(), replies, panicked) == HandleAll(old(State()), rpc.build, commands, env)
    {
      replies, panicked := [], false;
      var n := 0;
      while n < |commands|
        invariant 0 <= n <= |commands| && Valid() && !panicked
        invariant Outcome(State(), replies, false) == HandleAll(old(State()), rpc.build, commands[..n], env[..n])
      {
        assert commands[..n + 1][..n] == commands[..n] && env[..n + 1][..n] == env[..n];
        var reply := HandleCommand(commands[n], env[n]);
        n := n + 1;
        if reply.None? {
          panicked := true;
          PanicEnds(old(State()), rpc.build, commands, env, n);
          return;
        }
        replies := replies + [reply.value];
      }
      assert commands[..n] == commands && env[..n] == env;
    }

    /** The body of the loop, its early `continue` paths as early returns; None is a panic. */
    method HandleCommand(cmd: Command, e: Env) returns (reply: Option<Reply>)
      requires Valid()
      modifies this, registry, rpc
      ensures Valid()
      ensures var (st, r) := Handle(Inbound(old(State()), e), rpc.build, cmd, e);
        State() == st && reply == (if r.None? then None else Some(Reply(cmd.channel, r.value)))
    {
      rpc.ue, rpc.me := e.ue, e.me;
      assert State() == Inbound(old(State()), e);
      match cmd {
        case RegisterListener(source, sink, kind, handler, channel) =>
          if !e.appExists {
            return Some(Reply(channel, Err(INTERNAL)));
          }
          var r := RegisterListenerInternal(source, sink, kind, handler);
          return Some(Reply(channel, r));
        case UnregisterListener(source, sink, kind, channel) =>
          if !e.appExists {
            return Some(Reply(channel, Err(INTERNAL)));
          }
          var r := UnregisterListenerInternal(source, sink, kind);
          return Some(Reply(channel, r));
        case Send(msg, channel) =>
          if !e.appExists {
            return Some(Reply(channel, Err(INTERNAL)));
          }
          var r := SendInternal(msg, e.client);
          if r == Err(Panicked) {
            return None;
          }
          return Some(Reply(channel, if r.Ok? then Ok(()) else Err(r.error.code)));
        case StartVsomeipApp(channel) =>
          return Some(Reply(channel, e.started));
        case StopVsomeipApp(channel) =>
          return Some(Reply(channel, if e.appExists then Ok(()) else Err(INTERNAL)));
      }
    }
  }

  // ----- the loop as a function of the command stream -----

  datatype EngineState = EngineState(log: seq<Entry>, table: Table, reg: Registry)

  datatype Outcome = Outcome(state: EngineState, replies: seq<Reply>, panicked: bool)

  function RegisterState(st: EngineState, source: UUri, sink: Option<UUri>, kind: RegistrationType, handler: ExternFn)
    : EngineState
    requires RegisterResult(source, sink, kind).Ok?
  {
    var k, key := GuardOf(kind, source, sink).value, TableKey(kind, source, sink).value;
    st.(table := st.table[key := handler],
        log := Guarded(st.log, k, BlockOf(k, if kind.Request? then LowByte(sink.value.version) else ANY_MAJOR),
                       RegisterHandler(key.0, key.1, key.2, handler)))
  }

  function UnregisterState(st: EngineState, source: UUri, sink: Option<UUri>, kind: RegistrationType): EngineState
    requires UnregisterResult(source, sink, kind).Ok?
  {
    var key := UntableKey(kind, source, sink).value;
    st.(table := st.table - {key}, log := st.log + [Plain(UnregisterHandler(key.0, key.1, key.2))])
  }

  function PublishLog(log: seq<Entry>, source: UUri, payload: seq<u8>): seq<Entry> {
    var k := GuardKey(EventOffered, Low(source.ueId), 1, Low(source.resource));
    Guarded(log, k, BlockOf(k, ANY_MAJOR), Notify(k.service, 1, k.id, payload))
  }

  function SendState(st: EngineState, build: Build, client: u16, msg: UMessage): EngineState {
    match msg.kind
    case PUBLISH => if msg.source.None? then st else st.(log := PublishLog(st.log, msg.source.value, Bytes(msg)))
    case REQUEST =>
      var (reg, r) := RequestToWire(st.reg, build, client, msg);
      st.(reg := reg, log := if r.Ok? then st.log + [Plain(SendMessage(r.value))] else st.log)
    case RESPONSE =>
      var (reg, r) := ResponseToWire(st.reg, msg);
      st.(reg := reg, log := if r.Ok? then st.log + [Plain(SendMessage(r.value))] else st.log)
    case _ => st
  }

  /** One command: the new state and the result to send back, or None for a panic. */
  function Handle(st: EngineState, build: Build, cmd: Command, e: Env): (EngineState, Option<Result<(), UCode>>) {
    match cmd
    case RegisterListener(source, sink, kind, handler, _) =>
      if !e.appExists then (st, Some(Err(INTERNAL)))
      else
        var r := RegisterResult(source, sink, kind);
        (if r.Ok? then RegisterState(st, source, sink, kind, handler) else st, Some(r))
    case UnregisterListener(source, sink, kind, _) =>
      if !e.appExists then (st, Some(Err(INTERNAL)))
      else
        var r := UnregisterResult(source, sink, kind);
        (if r.Ok? then UnregisterState(st, source, sink, kind) else st, Some(r))
    case Send(msg, _) =>
      if !e.appExists then (st, Some(Err(INTERNAL)))
      else
        var r := SendResult(st.reg, build, e.client, msg);
        (SendState(st, build, e.client, msg),
         if r.Ok? then Some(Ok(())) else if r.error.Panicked? then None else Some(Err(r.error.code)))
    case StartVsomeipApp(_) => (st, Some(e.started))
    case StopVsomeipApp(_) => (st, Some(if e.appExists then Ok(()) else Err(INTERNAL)))
  }

  /** The state after the inbound conversions since the last command. */
  function Inbound(st: EngineState, e: Env): EngineState {
    st.(reg := Registry(e.ue, e.me, st.reg.sessions))
  }

  /** Handling one more command. */
  function Then(before: Outcome, build: Build, cmd: Command, e: Env): Outcome {
    var (st, r) := Handle(Inbound(before.state, e), build, cmd, e);
    if r.None? then Outcome(st, before.replies, true)
    else Outcome(st, before.replies + [Reply(cmd.channel, r.value)], false)
  }

  function HandleAll(st: EngineState, build: Build, commands: seq<Command>, env: seq<Env>): Outcome
    requires |env| == |commands|
  {
    if commands == [] then Outcome(st, [], false)
    else
      var n := |commands| - 1;
      var before := HandleAll(st, build, commands[..n], env[..n]);
      if before.panicked then before else Then(before, build, commands[n], env[n])
  }

  lemma StaysPanicked(st: EngineState, build: Build, commands: seq<Command>, env: seq<Env>)
    requires |env| == |commands| > 0
    requires HandleAll(st, build, commands[..|commands| - 1], env[..|commands| - 1]).panicked
    ensures HandleAll(st, build, commands, env) == HandleAll(st, build, commands[..|commands| - 1], env[..|commands| - 1])
  {
  }

  lemma ThenReplies(before: Outcome, build: Build, cmd: Command, e: Env)
    ensures var o := Then(before, build, cmd, e);
      && (o.panicked ==> o.replies == before.replies && build == Checked && cmd.Send?)
      && (!o.panicked ==> |o.replies| == |before.replies| + 1 && o.replies[..|before.replies|] == before.replies
                          && o.replies[|before.replies|].channel == cmd.channel)
  {
  }

  /** After a panic nothing more is handled. */
  lemma {:induction false} PanicEnds(st: EngineState, build: Build, commands: seq<Command>, env: seq<Env>, n: nat)
    requires |env| == |commands| && n <= |commands|
    requires HandleAll(st, build, commands[..n], env[..n]).panicked
    ensures HandleAll(st, build, commands, env) == HandleAll(st, build, commands[..n], env[..n])
    decreases |commands|
  {
    if n == |commands| {
      assert commands[..n] == commands && env[..n] == env;
    } else {
      var m := |commands| - 1;
      assert commands[..m][..n] == commands[..n] && env[..m][..n] == env[..n];
      PanicEnds(st, build, commands[..m], env[..m], n);
      StaysPanicked(st, build, commands, env);
    }
  }

  /**
   * One reply per command: the results go out in command order, each on its command's own channel,
   * and none is missing unless the session counter overflows in a build that checks overflow.
   */
  lemma {:induction false} OneReplyPerCommand(st: EngineState, build: Build, commands: seq<Command>, env: seq<Env>)
    requires |env| == |commands|
    ensures var o := HandleAll(st, build, commands, env);
      && |o.replies| <= |commands|
      && (|o.replies| == |commands| <==> !o.panicked)
      && (o.panicked ==> build == Checked && commands[|o.replies|].Send?)
      && forall n :: 0 <= n < |o.replies| ==> o.replies[n].channel == commands[n].channel
    decreases |commands|
  {
    if commands != [] {
      var n := |commands| - 1;
      OneReplyPerCommand(st, build, commands[..n], env[..n]);
      ThenReplies(HandleAll(st, build, commands[..n], env[..n]), build, commands[n], env[n]);
    }
  }

  /**
   * Exactly-once guarded calls: whatever the commands, every offer/request/subscribe block runs at
   * most once and before the first registration or notify that relies on it.
   */
  lemma {:induction false} BlocksOnce(st: EngineState, build: Build, commands: seq<Command>, env: seq<Env>)
    requires |env| == |commands| && LogOk(st.log)
    ensures LogOk(HandleAll(st, build, commands, env).state.log)
    decreases |commands|
  {
    if commands != [] {
      var n := |commands| - 1;
      BlocksOnce(st, build, commands[..n], env[..n]);
      HandleKeepsLog(Inbound(HandleAll(st, build, commands[..n], env[..n]).state, env[n]), build, commands[n], env[n]);
    }
  }

  /** Said of every command stream and without keys or tags. */
  lemma CallsInOrder(st: EngineState, build: Build, commands: seq<Command>, env: seq<Env>)
    requires |env| == |commands| && st.log == []
    ensures var log := HandleAll(st, build, commands, env).state.log;
      && (forall c :: EventKey(c).Some? ==> CountCall(log, c) <= 1)
      && (forall n :: 0 <= n < |log| ==> Prepared(log[..n], log[n].call))
  {
    BlocksOnce(st, build, commands, env);
    var log := HandleAll(st, build, commands, env).state.log;
    forall c | EventKey(c).Some? ensures CountCall(log, c) <= 1 {
      EventCallsOnce(log, c);
    }
    forall n | 0 <= n < |log| ensures Prepared(log[..n], log[n].call) {
      LogPrepares(log, n);
    }
  }

  // ----- when the engine stops -----

  /** The command takes a session id of the client: a Request with all its attributes. */
  predicate Takes(cmd: Command, e: Env, client: u16) {
    && cmd.Send? && e.appExists && e.client == client && cmd.msg.kind == REQUEST
    && cmd.msg.source.Some? && cmd.msg.sink.Some? && cmd.msg.id.Some?
  }

  function Taken(commands: seq<Command>, env: seq<Env>, client: u16): nat
    requires |env| == |commands|
  {
    if commands == [] then 0
    else
      var n := |commands| - 1;
      Taken(commands[..n], env[..n], client) + (if Takes(commands[n], env[n], client) then 1 else 0)
  }

  /** The counter of a client that has taken `k` session ids, in an engine that is running. */
  predicate At(reg: Registry, build: Build, client: u16, k: nat) {
    CurrentSession(reg, client) == Counter(build, k) && Lasts(build, k)
  }

  /** One command, from the point of view of one session counter. */
  lemma HandleCounts(st: EngineState, build: Build, cmd: Command, e: Env, client: u16, k: nat)
    requires At(st.reg, build, client, k)
    ensures var (st', r) := Handle(st, build, cmd, e);
      && (r.Some? ==> At(st'.reg, build, client, if Takes(cmd, e, client) then k + 1 else k))
      && (client == e.client ==> (r.None? <==> build == Checked && Takes(cmd, e, client) && k + 1 == 0xFFFF))
  {
    if cmd.Send? {
      SendCounts(st, build, e.client, cmd.msg, client);
    }
  }

  lemma SendCounts(st: EngineState, build: Build, sender: u16, m: UMessage, client: u16)
    ensures var st', r := SendState(st, build, sender, m), SendResult(st.reg, build, sender, m);
      var takes := m.kind == REQUEST && m.source.Some? && m.sink.Some? && m.id.Some?;
      && (r == Err(Panicked) <==> build == Checked && takes && CurrentSession(st.reg, sender) == 0xFFFF)
      && (r != Err(Panicked) ==>
            CurrentSession(st'.reg, client) == (CurrentSession(st.reg, client) + (if takes && sender == client then 1 else 0)) % 0x1_0000)
  {
  }

  lemma ThenCounts(before: Outcome, build: Build, cmd: Command, e: Env, client: u16, k: nat)
    requires At(before.state.reg, build, client, k)
    ensures var o := Then(before, build, cmd, e);
      && (!o.panicked ==> At(o.state.reg, build, client, if Takes(cmd, e, client) then k + 1 else k))
      && (client == e.client ==> (o.panicked <==> build == Checked && Takes(cmd, e, client) && k + 1 == 0xFFFF))
  {
    HandleCounts(Inbound(before.state, e), build, cmd, e, client, k);
  }

  lemma {:induction false} CounterFollows(st: EngineState, build: Build, commands: seq<Command>, env: seq<Env>, client: u16)
    requires |env| == |commands| && st.reg.sessions == map[]
    requires !HandleAll(st, build, commands, env).panicked
    ensures At(HandleAll(st, build, commands, env).state.reg, build, client, Taken(commands, env, client))
    decreases |commands|
  {
    if commands != [] {
      var n := |commands| - 1;
      CounterFollows(st, build, commands[..n], env[..n], client);
      ThenCounts(HandleAll(st, build, commands[..n], env[..n]), build, commands[n], env[n], client,
                 Taken(commands[..n], env[..n], client));
    }
  }

  /**
   * Exactly when the engine thread ends: in a build that checks overflow, as soon as one client has
   * sent 65535 Requests. No other command, and no change the inbound side makes, can end it.
   */
  lemma {:induction false} StopsExactlyWhen(st: EngineState, build: Build, commands: seq<Command>, env: seq<Env>)
    requires |env| == |commands| && st.reg.sessions == map[]
    ensures HandleAll(st, build, commands, env).panicked <==> exists client :: !Lasts(build, Taken(commands, env, client))
    decreases |commands|
  {
    if !HandleAll(st, build, commands, env).panicked {
      forall client ensures Lasts(build, Taken(commands, env, client)) {
        CounterFollows(st, build, commands, env, client);
      }
    } else {
      var client := StoppedBy(st, build, commands, env);
    }
  }

  lemma {:induction false} StoppedBy(st: EngineState, build: Build, commands: seq<Command>, env: seq<Env>) returns (client: u16)
    requires |env| == |commands| && st.reg.sessions == map[]
    requires HandleAll(st, build, commands, env).panicked
    ensures !Lasts(build, Taken(commands, env, client))
    decreases |commands|
  {
    var n := |commands| - 1;
    var before := HandleAll(st, build, commands[..n], env[..n]);
    if before.panicked {
      client := StoppedBy(st, build, commands[..n], env[..n]);
    } else {
      client := env[n].client;
      CounterFollows(st, build, commands[..n], env[..n], client);
      ThenCounts(before, build, commands[n], env[n], client, Taken(commands[..n], env[..n], client));
    }
  }

  lemma GuardedKeepsLog(log: seq<Entry>, k: GuardKey, major: u8, call: LibCall)
    requires LogOk(log) && EntryOk(Relying(k, call))
    requires k.kind == EventOffered ==> major == ANY_MAJOR
    ensures LogOk(Guarded(log, k, BlockOf(k, major), call))
  {
    EnsuredKeepsLog(log, k, BlockOf(k, major));
    AppendKeepsLog(Ensured(log, k, BlockOf(k, major)), Relying(k, call));
  }

  lemma HandleKeepsLog(st: EngineState, build: Build, cmd: Command, e: Env)
    requires LogOk(st.log)
    ensures LogOk(Handle(st, build, cmd, e).0.log)
  {
    match cmd
    case RegisterListener(source, sink, kind, handler, _) =>
      if RegisterResult(source, sink, kind).Ok? {
        var k, key := GuardOf(kind, source, sink).value, TableKey(kind, source, sink).value;
        GuardedKeepsLog(st.log, k, if kind.Request? then LowByte(sink.value.version) else ANY_MAJOR,
                        RegisterHandler(key.0, key.1, key.2, handler));
      }
    case UnregisterListener(source, sink, kind, _) =>
      if UnregisterResult(source, sink, kind).Ok? {
        var key := UntableKey(kind, source, sink).value;
        AppendKeepsLog(st.log, Plain(UnregisterHandler(key.0, key.1, key.2)));
      }
    case Send(msg, _) => SendKeepsLog(st, build, e.client, msg);
    case StartVsomeipApp(_) =>
    case StopVsomeipApp(_) =>
  }

  lemma SendKeepsLog(st: EngineState, build: Build, client: u16, msg: UMessage)
    requires LogOk(st.log)
    ensures LogOk(SendState(st, build, client, msg).log)
  {
    match msg.kind
    case PUBLISH =>
      if msg.source.Some? {
        var k := GuardKey(EventOffered, Low(msg.source.value.ueId), 1, Low(msg.source.value.resource));
        GuardedKeepsLog(st.log, k, ANY_MAJOR, Notify(k.service, 1, k.id, Bytes(msg)));
      }
    case REQUEST =>
      var r := RequestToWire(st.reg, build, client, msg).1;
      if r.Ok? {
        AppendKeepsLog(st.log, Plain(SendMessage(r.value)));
      }
    case RESPONSE =>
      var r := ResponseToWire(st.reg, msg).1;
      if r.Ok? {
        AppendKeepsLog(st.log, Plain(SendMessage(r.value)));
      }
    case _ =>
  }

  function RegisterResult(source: UUri, sink: Option<UUri>, kind: RegistrationType): Result<(), UCode> {
    match kind
    case Publish => Ok(())
    case Request => if sink.None? then Err(INVALID_ARGUMENT) else Ok(())
    case Response => Ok(())
    case AllPointToPoint => Err(INTERNAL)
  }

  function UnregisterResult(source: UUri, sink: Option<UUri>, kind: RegistrationType): Result<(), UCode> {
    match kind
    case Publish => Ok(())
    case Request => if sink.None? then Err(INVALID_ARGUMENT) else Ok(())
    case Response => if sink.None? then Err(INVALID_ARGUMENT) else Ok(())
    case AllPointToPoint => Err(INTERNAL)
  }

  function SendResult(reg: Registry, build: Build, client: u16, msg: UMessage): Result<(), Failure> {
    match msg.kind
    case UNSPECIFIED => Err(Status(INVALID_ARGUMENT))
    case NOTIFICATION => Err(Status(INVALID_ARGUMENT))
    case PUBLISH => if msg.source.None? then Err(Status(INVALID_ARGUMENT)) else Ok(())
    case REQUEST =>
      var r := RequestToWire(reg, build, client, msg).1;
      if r.Ok? then Ok(()) else Err(r.error)
    case RESPONSE =>
      var r := ResponseToWire(reg, msg).1;
      if r.Ok? then Ok(()) else Err(r.error)
  }
}
