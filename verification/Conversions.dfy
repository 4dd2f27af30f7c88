/** The converters of message_conversions.rs between uProtocol messages and SOME/IP messages. */
module Conversions {
  import opened Wrappers
  import opened Uris
  import opened StatusCodes
  import opened RpcCorrelation

  datatype UMessageType = UNSPECIFIED | PUBLISH | REQUEST | RESPONSE | NOTIFICATION

  datatype UMessage = UMessage(
    kind: UMessageType,
    id: Option<Uid>,
    source: Option<UUri>,
    sink: Option<UUri>,
    reqid: Option<Uid>,
    commstatus: Option<CommStatus>,
    payload: Option<seq<u8>>)

  /** A SOME/IP message; `request` is client and session id as get_request returns them. */
  datatype Wire = Wire(
    kind: MessageType,
    service: u16,
    instance: u16,
    method_: u16,
    version: u8,
    request: u32,
    code: ReturnCode,
    payload: seq<u8>)

  datatype Failure = Status(code: UCode) | Panicked

  /** What one transport knows about itself. */
  datatype HostConfig = HostConfig(local: string, remote: string, version: u8)

  /** Decisions of the library that builds URIs and messages: its checks and its fresh message id. */
  datatype Builder = Builder(uriOk: bool, buildOk: bool, uid: Uid)

  /** The payload, and no bytes for a message without one. */
  function Bytes(m: UMessage): (r: seq<u8>)
    ensures m.payload == Some(r) || (m.payload.None? && r == [])
  {
    if m.payload.Some? then m.payload.value else []
  }

  /** The fields of a SOME/IP message that a uProtocol address determines; the instance is always 1. */
  function Addressed(kind: MessageType, address: UUri, request: u32, code: ReturnCode, payload: seq<u8>): Wire {
    Wire(kind, SplitU32ToU16(address.ueId).1, 1, SplitU32ToU16(address.resource).1,
         LowByte(address.version), request, code, payload)
  }

  /** The address read back from a SOME/IP message. */
  function AddressOf(authority: string, w: Wire): UUri {
    UUri(authority, w.service, w.version, w.method_)
  }

  /** umsg_request_to_vsomeip_message, with the wire stamped with the recorded request id. */
  function RequestToWire(r: Registry, build: Build, client: u16, m: UMessage): (Registry, Result<Wire, Failure>) {
    if m.source.None? || m.sink.None? || m.id.None? then (r, Err(Status(INVALID_ARGUMENT)))
    else
      var (r1, session) := Retrieve(r, build, client);
      if session.None? then (r1, Err(Panicked))
      else
        var request := CreateRequestId(client, session.value);
        if request in r1.ue then (r1, Err(Status(ALREADY_EXISTS)))
        else (r1.(ue := r1.ue[request := (m.id.value, m.source.value)]),
              Ok(Addressed(MT_REQUEST, m.sink.value, request, E_OK, Bytes(m))))
  }

  function ResponseToWire(r: Registry, m: UMessage): (Registry, Result<Wire, Failure>) {
    if m.source.None? || m.reqid.None? then (r, Err(Status(INVALID_ARGUMENT)))
    else if m.reqid.value !in r.me then (r, Err(Status(NOT_FOUND)))
    else
      var (client, session) := SplitU32ToU16(r.me[m.reqid.value]);
      var (kind, code) := EncodeStatus(m.commstatus);
      (r.(me := r.me - {m.reqid.value}),
       Ok(Addressed(kind, m.source.value, Pack(client, session), code, Bytes(m))))
  }

  /** convert_vsomeip_mt_request_to_umsg */
  function WireToRequest(r: Registry, cfg: HostConfig, w: Wire, b: Builder): (Registry, Result<UMessage, Failure>) {
    if !b.uriOk then (r, Err(Status(INVALID_ARGUMENT)))
    else if !b.buildOk then (r, Err(Status(INTERNAL)))
    else if b.uid in r.me then (r, Err(Status(ALREADY_EXISTS)))
    else
      var source := UUri(cfg.remote, SplitU32ToU16(w.request).0, cfg.version, 0);
      (r.(me := r.me[b.uid := w.request]),
       Ok(UMessage(REQUEST, Some(b.uid), Some(source), Some(AddressOf(cfg.local, w)), None, None, Some(w.payload))))
  }

  /** convert_vsomeip_mt_response_to_umsg and convert_vsomeip_mt_error_to_umsg */
  function WireToResponse(r: Registry, cfg: HostConfig, w: Wire, b: Builder): (Registry, Result<UMessage, Failure>) {
    if !b.uriOk then (r, Err(Status(INVALID_ARGUMENT)))
    else if w.request !in r.ue then (r, Err(Status(NOT_FOUND)))
    else
      var (reqid, sink) := r.ue[w.request];
      var r' := r.(ue := r.ue - {w.request});
      if !b.buildOk then (r', Err(Status(INTERNAL)))
      else
        (r', Ok(UMessage(RESPONSE, Some(b.uid), Some(AddressOf(cfg.remote, w)), Some(sink), Some(reqid),
                         Some(Known(DecodeStatus(w.kind, w.code))), Some(w.payload))))
  }

  /** An address after a trip over SOME/IP: 16 bits of entity and resource id, 8 bits of version. */
  function Truncated(authority: string, u: UUri): UUri {
    UUri(authority, u.ueId % 0x1_0000, u.version % 0x100, u.resource % 0x1_0000)
  }

  lemma AddressTrip(kind: MessageType, u: UUri, request: u32, code: ReturnCode, p: seq<u8>, authority: string)
    ensures AddressOf(authority, Addressed(kind, u, request, code, p)) == Truncated(authority, u)
  {
  }

  /**
   * End-to-end addressing: when the service answers from the address it was called at, the client
   * sees its own sink, truncated and under the remote authority, whatever the authority the
   * service saw; so it sees exactly its sink if and only if the sink fits and names that authority.
   */
  lemma EchoedAddress(sink: UUri, local: string, remote: string)
    ensures Truncated(remote, Truncated(local, sink)) == Truncated(remote, sink)
    ensures Truncated(remote, sink) == sink <==>
      sink.ueId < 0x1_0000 && sink.version < 0x100 && sink.resource < 0x1_0000 && sink.authority == remote
  {
  }

  /** An outgoing request in numbers: every failure, every field of the wire message, and the entry it leaves. */
  lemma RequestOnWire(r: Registry, build: Build, client: u16, m: UMessage)
    ensures var (r', res) := RequestToWire(r, build, client, m); var session := CurrentSession(r, client);
      var whole := m.source.Some? && m.sink.Some? && m.id.Some?;
      && (res == Err(Status(INVALID_ARGUMENT)) <==> !whole)
      && (res == Err(Panicked) <==> whole && build == Checked && session == 0xFFFF)
      && (res == Err(Status(ALREADY_EXISTS)) <==>
            whole && !(build == Checked && session == 0xFFFF) && client * 0x1_0000 + session in r.ue)
      && (res.Ok? <==> whole && !(build == Checked && session == 0xFFFF) && client * 0x1_0000 + session !in r.ue)
      && (res.Ok? ==>
            && res.value == Wire(MT_REQUEST, m.sink.value.ueId % 0x1_0000, 1, m.sink.value.resource % 0x1_0000,
                                 m.sink.value.version % 0x100, client * 0x1_0000 + session, E_OK, Bytes(m))
            && r'.ue == r.ue[client * 0x1_0000 + session := (m.id.value, m.source.value)])
      && (res.Err? ==> r'.ue == r.ue) && r'.me == r.me
  {
  }

  /** An outgoing response in numbers. */
  lemma ResponseOnWire(r: Registry, m: UMessage)
    ensures var (r', res) := ResponseToWire(r, m); var whole := m.source.Some? && m.reqid.Some?;
      && (res == Err(Status(INVALID_ARGUMENT)) <==> !whole)
      && (res == Err(Status(NOT_FOUND)) <==> whole && m.reqid.value !in r.me)
      && (res.Ok? <==> whole && m.reqid.value in r.me)
      && (res.Ok? ==>
            var (kind, code) := EncodeStatus(m.commstatus);
            && res.value == Wire(kind, m.source.value.ueId % 0x1_0000, 1, m.source.value.resource % 0x1_0000,
                                 m.source.value.version % 0x100, r.me[m.reqid.value], code, Bytes(m))
            && r' == r.(me := r.me - {m.reqid.value}))
      && (res.Err? ==> r' == r)
  {
    if m.reqid.Some? && m.reqid.value in r.me {
      PackSplitInverse(0, 0, r.me[m.reqid.value]);
    }
  }

  /** An incoming request in numbers: the source names the sender's client id, and one entry is kept for the answer. */
  lemma RequestFromWire(r: Registry, cfg: HostConfig, w: Wire, b: Builder)
    ensures var (r', res) := WireToRequest(r, cfg, w, b);
      && (res == Err(Status(INVALID_ARGUMENT)) <==> !b.uriOk)
      && (res == Err(Status(INTERNAL)) <==> b.uriOk && !b.buildOk)
      && (res == Err(Status(ALREADY_EXISTS)) <==> b.uriOk && b.buildOk && b.uid in r.me)
      && (res.Ok? <==> b.uriOk && b.buildOk && b.uid !in r.me)
      && (res.Ok? ==>
            && res.value.kind == REQUEST && res.value.id == Some(b.uid) && res.value.payload == Some(w.payload)
            && res.value.source == Some(UUri(cfg.remote, w.request / 0x1_0000, cfg.version, 0))
            && res.value.sink == Some(UUri(cfg.local, w.service, w.version, w.method_))
            && r' == r.(me := r.me[b.uid := w.request]))
      && (res.Err? ==> r' == r)
  {
  }

  /**
   * An incoming response or error in numbers. The entry goes as soon as it is found, so a message
   * that then cannot be built is lost with its entry.
   */
  lemma ResponseFromWire(r: Registry, cfg: HostConfig, w: Wire, b: Builder)
    ensures var (r', res) := WireToResponse(r, cfg, w, b);
      && (res == Err(Status(INVALID_ARGUMENT)) <==> !b.uriOk)
      && (res == Err(Status(NOT_FOUND)) <==> b.uriOk && w.request !in r.ue)
      && (res == Err(Status(INTERNAL)) <==> b.uriOk && w.request in r.ue && !b.buildOk)
      && (res.Ok? <==> b.uriOk && w.request in r.ue && b.buildOk)
      && (res.Ok? ==>
            && res.value.kind == RESPONSE && res.value.id == Some(b.uid) && res.value.payload == Some(w.payload)
            && res.value.source == Some(UUri(cfg.remote, w.service, w.version, w.method_))
            && (res.value.reqid, res.value.sink) == (Some(r.ue[w.request].0), Some(r.ue[w.request].1))
            && (w.kind == MT_RESPONSE ==> res.value.commstatus == Some(Known(OK)))
            && (w.kind == MT_ERROR ==> res.value.commstatus == Some(Known(DecodeStatus(MT_ERROR, w.code)))))
      && r' == (if b.uriOk then r.(ue := r.ue - {w.request}) else r)
  {
    assert w.request !in r.ue ==> r.ue - {w.request} == r.ue;
  }

  method UmsgRequestToVsomeipMessage(m: UMessage, registry: RpcCorrelationRegistry, client: u16)
    returns (r: Result<Wire, Failure>)
    modifies registry
    ensures (registry.View(), r) == RequestToWire(old(registry.View()), registry.build, client, m)
  {
    if m.source.None? {
      return Err(Status(INVALID_ARGUMENT));
    }
    if m.sink.None? {
      return Err(Status(INVALID_ARGUMENT));
    }
    var sink := m.sink.value;
    var w := Wire(MT_REQUEST, 0, 0, 0, 0, 0, E_OK, []);
    w := w.(service := SplitU32ToU16(sink.ueId).1);
    w := w.(instance := 1);
    w := w.(method_ := SplitU32ToU16(sink.resource).1);
    w := w.(version := LowByte(sink.version));
    if m.id.None? {
      return Err(Status(INVALID_ARGUMENT));
    }
    var session := registry.RetrieveSessionId(client);
    if session.None? {
      return Err(Panicked);
    }
    var request := CreateRequestId(client, session.value);
    var inserted := registry.InsertUeRequestCorrelation(request, m.id.value, m.source.value);
    if inserted.Err? {
      return Err(Status(inserted.error));
    }
    w := w.(code := E_OK);
    // set_message_payload by the caller, and the stamp of the library on send
    return Ok(w.(payload := Bytes(m), request := request));
  }

  method UmsgResponseToVsomeipMessage(m: UMessage, registry: RpcCorrelationRegistry)
    returns (r: Result<Wire, Failure>)
    modifies registry
    ensures (registry.View(), r) == ResponseToWire(old(registry.View()), m)
  {
    if m.source.None? {
      return Err(Status(INVALID_ARGUMENT));
    }
    var source := m.source.value;
    var w := Wire(MT_OTHER, 0, 0, 0, 0, 0, E_OK, []);
    w := w.(service := SplitU32ToU16(source.ueId).1);
    w := w.(instance := 1);
    w := w.(method_ := SplitU32ToU16(source.resource).1);
    w := w.(version := LowByte(source.version));
    if m.reqid.None? {
      return Err(Status(INVALID_ARGUMENT));
    }
    var request := registry.RemoveMeRequestCorrelation(m.reqid.value);
    if request.Err? {
      assert registry.View() == old(registry.View());
      return Err(Status(request.error));
    }
    var (client, session) := SplitU32ToU16(request.value);
    w := w.(request := Pack(client, session));
    var (kind, code) := EncodeStatus(m.commstatus);
    w := w.(code := code);
    w := w.(kind := kind);
    return Ok(w.(payload := Bytes(m)));
  }

  method VsomeipRequestToUmsg(cfg: HostConfig, registry: RpcCorrelationRegistry, w: Wire, b: Builder)
    returns (r: Result<UMessage, Failure>)
    modifies registry
    ensures (registry.View(), r) == WireToRequest(old(registry.View()), cfg, w, b)
  {
    if !b.uriOk {
      return Err(Status(INVALID_ARGUMENT));
    }
    var sink := AddressOf(cfg.local, w);
    var (client, _) := SplitU32ToU16(w.request);
    var source := UUri(cfg.remote, client, cfg.version, 0);
    if !b.buildOk {
      return Err(Status(INTERNAL));
    }
    var m := UMessage(REQUEST, Some(b.uid), Some(source), Some(sink), None, None, Some(w.payload));
    var inserted := registry.InsertMeRequestCorrelation(b.uid, w.request);
    if inserted.Err? {
      return Err(Status(inserted.error));
    }
    return Ok(m);
  }

  method VsomeipResponseToUmsg(cfg: HostConfig, registry: RpcCorrelationRegistry, w: Wire, b: Builder)
    returns (r: Result<UMessage, Failure>)
    modifies registry
    ensures (registry.View(), r) == WireToResponse(old(registry.View()), cfg, w, b)
  {
    if !b.uriOk {
      return Err(Status(INVALID_ARGUMENT));
    }
    var source := AddressOf(cfg.remote, w);
    var removed := registry.RemoveUeRequestCorrelation(w.request);
    if removed.Err? {
      assert registry.View() == old(registry.View());
      return Err(Status(removed.error));
    }
    var (reqid, sink) := removed.value;
    if !b.buildOk {
      return Err(Status(INTERNAL));
    }
    var status := if w.kind == MT_RESPONSE then OK else ReturnCodeToUCode(w.code);
    return Ok(UMessage(RESPONSE, Some(b.uid), Some(source), Some(sink), Some(reqid),
                       Some(Known(status)), Some(w.payload)));
  }
}
