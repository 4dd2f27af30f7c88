/** Whole runs of the request/response protocol. */
module RpcRuns {
  import opened Wrappers
  import opened Uris
  import opened StatusCodes
  import opened RpcCorrelation
  import opened Conversions
  import opened RpcProtocol

  // ----- what the messages contain -----

  function ReplyWire(m: UMessage, request: u32): Wire
    requires m.source.Some?
  {
    Addressed(EncodeStatus(m.commstatus).0, m.source.value, request, EncodeStatus(m.commstatus).1, Bytes(m))
  }

  ghost predicate PacketOk(s: Sys, p: Packet) {
    match p
    case Requesting(w, g) =>
      && g < |s.sent| && s.sent[g].msg.sink.Some?
      && w == Addressed(MT_REQUEST, s.sent[g].msg.sink.value, s.sent[g].rid, E_OK, Bytes(s.sent[g].msg))
    case Responding(w, g, uid) =>
      && uid in s.received && s.received[uid].tag == g
      && uid in s.replies && s.replies[uid].source.Some? && w == ReplyWire(s.replies[uid], w.request)
  }

  /** The service saw the request: the client it came from, its sink under the local authority and its payload. */
  ghost predicate ReceiptOk(s: Sys, uid: Uid, rc: Receipt) {
    && rc.tag < |s.sent| && rc.host in s.hosts && s.sent[rc.tag].msg.sink.Some?
    && rc.msg.kind == REQUEST && rc.msg.id == Some(uid)
    && rc.msg.sink == Some(Truncated(s.hosts[rc.host].cfg.local, s.sent[rc.tag].msg.sink.value))
    && rc.msg.source == Some(ClientAddress(s.hosts[rc.host].cfg, s.sent[rc.tag].rid))
    && rc.msg.payload == Some(Bytes(s.sent[rc.tag].msg))
  }

  /** The address under which a service sees the client that sent a request id. */
  function ClientAddress(cfg: HostConfig, rid: u32): UUri {
    UUri(cfg.remote, SplitU32ToU16(rid).0, cfg.version, 0)
  }

  ghost predicate ReplyOk(s: Sys, uid: Uid) {
    uid in s.received && forall h :: h in s.hosts ==> uid !in s.hosts[h].reg.me
  }

  /** The client got the reply the service gave to that very request. */
  ghost predicate DeliveryOk(s: Sys, d: Delivery) {
    && d.host in s.hosts
    && d.uid in s.received && s.received[d.uid].tag == d.tag
    && d.uid in s.replies && s.replies[d.uid].source.Some?
    && d.msg.source == Some(Truncated(s.hosts[d.host].cfg.remote, s.replies[d.uid].source.value))
    && d.msg.commstatus == Some(Known(Hop(s.replies[d.uid].commstatus)))
    && d.msg.payload == Some(Bytes(s.replies[d.uid]))
  }

  ghost predicate Content(s: Sys) {
    && (forall p :: p in s.net ==> PacketOk(s, p))
    && (forall uid :: uid in s.received ==> ReceiptOk(s, uid, s.received[uid]))
    && (forall uid :: uid in s.replies ==> ReplyOk(s, uid))
    && (forall n :: 0 <= n < |s.delivered| ==> DeliveryOk(s, s.delivered[n]))
  }

  /** Logs only grow, and hosts keep their identity. */
  ghost predicate Extends(s: Sys, s': Sys) {
    && |s.sent| <= |s'.sent| && (forall g :: 0 <= g < |s.sent| ==> s'.sent[g] == s.sent[g])
    && (forall u :: u in s.received ==> u in s'.received && s'.received[u] == s.received[u])
    && (forall u :: u in s.replies ==> u in s'.replies && s'.replies[u] == s.replies[u])
    && HostsKept(s, s')
  }

  ghost predicate HostsKept(s: Sys, s': Sys) {
    forall h :: h in s.hosts ==>
      h in s'.hosts && s'.hosts[h].cfg == s.hosts[h].cfg && s'.hosts[h].client == s.hosts[h].client
  }

  lemma OldContent(s: Sys, s': Sys)
    requires Content(s) && Extends(s, s')
    ensures forall p :: p in s.net ==> PacketOk(s', p)
    ensures forall uid :: uid in s.received ==> ReceiptOk(s', uid, s'.received[uid])
    ensures forall n :: 0 <= n < |s.delivered| ==> DeliveryOk(s', s.delivered[n])
  {
    forall p | p in s.net ensures PacketOk(s', p) {
      assert PacketOk(s, p);
    }
    forall uid | uid in s.received ensures ReceiptOk(s', uid, s'.received[uid]) {
      assert ReceiptOk(s, uid, s.received[uid]);
    }
    forall n | 0 <= n < |s.delivered| ensures DeliveryOk(s', s.delivered[n]) {
      assert DeliveryOk(s, s.delivered[n]);
    }
  }

  /** Service entries appear only for new messages. */
  ghost predicate EntriesFresh(s: Sys, s': Sys) {
    forall h, u :: h in s'.hosts && u in s'.hosts[h].reg.me ==>
      (h in s.hosts && u in s.hosts[h].reg.me) || u !in s.received
  }

  lemma OldReplies(s: Sys, s': Sys)
    requires forall uid :: uid in s.replies ==> ReplyOk(s, uid)
    requires Extends(s, s') && EntriesFresh(s, s')
    ensures forall uid :: uid in s.replies ==> ReplyOk(s', uid)
  {
    forall uid | uid in s.replies ensures ReplyOk(s', uid) {
      assert ReplyOk(s, uid);
    }
  }

  ghost predicate NewPackets(s: Sys, s': Sys) {
    forall p :: p in s'.net ==> p in s.net || PacketOk(s', p)
  }

  ghost predicate NewReceipts(s: Sys, s': Sys) {
    forall uid :: uid in s'.received ==> uid in s.received || ReceiptOk(s', uid, s'.received[uid])
  }

  ghost predicate NewReplies(s: Sys, s': Sys) {
    forall uid :: uid in s'.replies ==> uid in s.replies || ReplyOk(s', uid)
  }

  ghost predicate NewDeliveries(s: Sys, s': Sys) {
    forall n :: 0 <= n < |s'.delivered| ==>
      (n < |s.delivered| && s'.delivered[n] == s.delivered[n]) || DeliveryOk(s', s'.delivered[n])
  }

  /** A step keeps the content if what it adds is right. */
  lemma ContentGrows(s: Sys, s': Sys)
    requires Content(s) && Extends(s, s') && EntriesFresh(s, s')
    requires NewPackets(s, s') && NewReceipts(s, s') && NewReplies(s, s') && NewDeliveries(s, s')
    ensures Content(s')
  {
    OldReplies(s, s');
    OldContent(s, s');
  }

  // ----- steps add only right content -----

  /** The parts of a step that concern content, beyond what its shape says. */
  ghost predicate ShapeContent(s: Sys, sh: Shape) {
    match sh
    case Open(q, w, _, _) =>
      q.msg.sink.Some? && w == Addressed(MT_REQUEST, q.msg.sink.value, q.rid, E_OK, Bytes(q.msg))
    case Arrive(h, p, uid, msg) =>
      && h in s.hosts && msg.kind == REQUEST && msg.id == Some(uid)
      && msg.sink == Some(AddressOf(s.hosts[h].cfg.local, p.wire)) && msg.payload == Some(p.wire.payload)
      && msg.source == Some(ClientAddress(s.hosts[h].cfg, p.wire.request))
    case Reply(h, uid, m, w) => m.source.Some? && w == ReplyWire(m, w.request)
    case Close(h, p, ds) =>
      h in s.hosts && forall d :: d in ds ==>
        && d.msg.source == Some(AddressOf(s.hosts[h].cfg.remote, p.wire))
        && d.msg.commstatus == Some(Known(DecodeStatus(p.wire.kind, p.wire.code)))
        && d.msg.payload == Some(p.wire.payload)
    case _ => true
  }

  lemma EntryReceived(s: Sys, h: HostId, uid: Uid)
    requires ServicesKnown(s) && h in s.hosts && uid in s.hosts[h].reg.me
    ensures uid in s.received
  {
  }

  lemma RequestContent(build: Build, s: Sys, h: HostId, m: UMessage, s': Sys) returns (sh: Shape)
    requires h in s.hosts && s' == DoSendRequest(build, s, h, m)
    ensures Shaped(s, sh, s') && ShapeContent(s, sh) && SendsBy(build, s, h, m, sh)
  {
    sh := SendRequestShape(build, s, h, m, s');
  }

  /** The shape of a send is what the outbound request converter returned. */
  ghost predicate SendsBy(build: Build, s: Sys, h: HostId, m: UMessage, sh: Shape) {
    && h in s.hosts && (sh.Open? || sh.Refuse?)
    && var (reg, r) := RequestToWire(s.hosts[h].reg, build, s.hosts[h].client, m);
    && sh.reg == reg && sh.n == Retrieved(build, s, h, m)
    && (sh.Open? ==> sh.q.host == h && r == Ok(sh.w))
    && (sh.Refuse? ==> sh.h == h && r.Err?)
  }

  lemma ReplyContent(s: Sys, h: HostId, m: UMessage, s': Sys) returns (sh: Shape)
    requires ServicesKnown(s) && h in s.hosts && s' == DoSendResponse(s, h, m)
    ensures (sh.Same? || sh.Reply?) && Shaped(s, sh, s') && ShapeContent(s, sh)
  {
    if m.reqid.Some? && m.reqid.value in s.hosts[h].reg.me {
      EntryReceived(s, h, m.reqid.value);
    }
    sh := SendResponseShape(s, h, m, s');
  }

  /** Every other step has a shape too. */
  lemma OtherShape(build: Build, s: Sys, step: Step, s': Sys) returns (sh: Shape)
    requires ServicesKnown(s) && StepBy(build, s, step, s') && !step.SendRequest?
    ensures Shaped(s, sh, s') && ShapeContent(s, sh) && !sh.Open? && !sh.Refuse?
  {
    match step
    case AddHost(h, client, cfg) => sh := Join(h, client, cfg);
    case DeliverRequest(h, p, b) => sh := DeliverRequestShape(s, h, p, b, s');
    case SendResponse(h, m) => sh := ReplyContent(s, h, m, s');
    case DeliverResponse(h, p, b) => sh := DeliverResponseShape(s, h, p, b, s');
    case Lose(p) => sh := Drop(p);
  }

  lemma ShapeExtends(s: Sys, sh: Shape, s': Sys)
    requires Shaped(s, sh, s')
    requires sh.Reply? && sh.uid in s.replies ==> ReplyOk(s, sh.uid)
    ensures Extends(s, s')
  {
    ShapeKeepsHosts(s, sh, s');
    if sh.Reply? {
      assert sh.uid !in s.replies;
    }
  }

  lemma ShapeKeepsHosts(s: Sys, sh: Shape, s': Sys)
    requires Shaped(s, sh, s')
    ensures HostsKept(s, s')
  {
  }

  lemma ShapeFresh(s: Sys, sh: Shape, s': Sys)
    requires Shaped(s, sh, s')
    ensures EntriesFresh(s, s')
  {
  }

  lemma ShapePackets(s: Sys, sh: Shape, s': Sys)
    requires Shaped(s, sh, s') && ShapeContent(s, sh)
    ensures NewPackets(s, s')
  {
  }

  lemma ShapeReceipts(s: Sys, sh: Shape, s': Sys)
    requires Shaped(s, sh, s') && ShapeContent(s, sh) && (sh.Arrive? ==> PacketOk(s, sh.p))
    ensures NewReceipts(s, s')
  {
    if sh.Arrive? {
      var q := s.sent[sh.p.tag];
      AddressTrip(MT_REQUEST, q.msg.sink.value, q.rid, E_OK, Bytes(q.msg), s.hosts[sh.h].cfg.local);
    }
  }

  /** A service answers a message once: its entry goes, and no other host ever had one. */
  lemma ShapeReplies(s: Sys, sh: Shape, s': Sys)
    requires Shaped(s, sh, s') && ServicesKnown(s)
    ensures NewReplies(s, s')
  {
    if sh.Reply? {
      forall k | k in s'.hosts ensures sh.uid !in s'.hosts[k].reg.me {
        assert k != sh.h ==> sh.uid !in s.hosts[k].reg.me;
      }
    }
  }

  lemma ShapeDeliveries(s: Sys, sh: Shape, s': Sys)
    requires Shaped(s, sh, s') && ShapeContent(s, sh) && (sh.Close? ==> PacketOk(s, sh.p))
    ensures NewDeliveries(s, s')
  {
    if sh.Close? {
      var p, reply := sh.p, s.replies[sh.p.uid];
      AddressTrip(p.wire.kind, reply.source.value, p.wire.request, p.wire.code, Bytes(reply), s.hosts[sh.h].cfg.remote);
      forall n | |s.delivered| <= n < |s'.delivered| ensures DeliveryOk(s', s'.delivered[n]) {
        assert s'.delivered[n] in sh.ds;
      }
    }
  }

  lemma ShapeKeepsContent(s: Sys, sh: Shape, s': Sys)
    requires Content(s) && ServicesKnown(s) && Shaped(s, sh, s') && ShapeContent(s, sh)
    ensures Content(s')
  {
    ShapeExtends(s, sh, s');
    ShapeFresh(s, sh, s');
    ShapePackets(s, sh, s');
    ShapeReceipts(s, sh, s');
    ShapeReplies(s, sh, s');
    ShapeDeliveries(s, sh, s');
    ContentGrows(s, s');
  }

  // ----- sessions -----

  /** Requests of host `h` handed to the library. */
  function Handed(sent: seq<Sent>, h: HostId): nat {
    if sent == [] then 0
    else Handed(sent[..|sent| - 1], h) + (if sent[|sent| - 1].host == h then 1 else 0)
  }

  lemma HandedAppend(sent: seq<Sent>, x: Sent, h: HostId)
    ensures Handed(sent + [x], h) == Handed(sent, h) + (if x.host == h then 1 else 0)
  {
    assert (sent + [x])[..|sent|] == sent;
  }

  /** After `n` session ids taken and `handed` requests handed over: the counter, and lockstep up to the first wrap. */
  ghost predicate Counted(build: Build, reg: Registry, client: u16, n: nat, handed: nat) {
    && (build == Checked ==> n <= 0xFFFE)
    && CurrentSession(reg, client) == Counter(build, n)
    && (n <= 0xFFFF ==> handed == n)
    && (n > 0xFFFF ==> handed >= 0xFFFF)
  }

  ghost predicate HostInStep(build: Build, s: Sys, h: HostId)
    requires h in s.hosts
  {
    h in s.retrieved && Counted(build, s.hosts[h].reg, s.hosts[h].client, s.retrieved[h], Handed(s.sent, h))
  }

  /** The k-th request of a host carries the k-th session id of the standard, up to the first wrap. */
  ghost predicate StampedInOrder(s: Sys, g: nat)
    requires g < |s.sent|
  {
    var h, k := s.sent[g].host, Handed(s.sent[..g + 1], s.sent[g].host);
    1 <= k && (k <= 0xFFFF ==> s.sent[g].session == StandardSession(k))
  }

  ghost predicate InStep(build: Build, s: Sys) {
    && (forall h :: h in s.hosts ==> HostInStep(build, s, h))
    && (forall g :: 0 <= g < |s.sent| ==> StampedInOrder(s, g))
  }

  lemma {:induction false} HandedGrows(sent: seq<Sent>, m: nat, h: HostId)
    requires m <= |sent|
    ensures Handed(sent[..m], h) <= Handed(sent, h)
    decreases |sent|
  {
    if m < |sent| {
      HandedGrows(sent[..|sent| - 1], m, h);
      assert sent[..|sent| - 1][..m] == sent[..m];
    } else {
      assert sent[..m] == sent;
    }
  }

  /** Before the first wrap the next session id is new, so recording it cannot fail. */
  lemma NextSessionIsNew(build: Build, s: Sys, h: HostId)
    requires Entries(s) && Clients(s) && InStep(build, s) && h in s.hosts && s.retrieved[h] < 0xFFFF
    ensures CreateRequestId(s.hosts[h].client, s.retrieved[h] + 1) !in s.hosts[h].reg.ue
  {
    var n: int, r := s.retrieved[h], CreateRequestId(s.hosts[h].client, s.retrieved[h] + 1);
    if r in s.hosts[h].reg.ue {
      var g := s.open[r];
      assert HostInStep(build, s, h) && OpenOk(s, r) && ClientOk(s, s.sent[g]) && StampedInOrder(s, g);
      HandedGrows(s.sent, g + 1, h);
      LaterSession(s.hosts[h].client, n + 1, s.sent[g].session, Handed(s.sent[..g + 1], h), n);
    }
  }

  lemma LaterSession(client: u16, a: u16, b: u16, k: nat, n: nat)
    requires a == n + 1 && 1 <= k <= n <= 0xFFFF && b == StandardSession(k)
    ensures CreateRequestId(client, a) != CreateRequestId(client, b)
  {
    WrappingMeetsStandard(k);
  }

  /** One call of the outbound request converter, from the point of view of its session counter. */
  lemma RequestCounts(build: Build, reg: Registry, client: u16, n: nat, handed: nat, m: UMessage)
    requires Counted(build, reg, client, n, handed)
    requires n < 0xFFFF ==> CreateRequestId(client, n + 1) !in reg.ue
    ensures var (reg', r) := RequestToWire(reg, build, client, m);
      var n' := if m.source.Some? && m.sink.Some? && m.id.Some? && Retrieve(reg, build, client).1.Some? then n + 1 else n;
      var handed' := if r.Ok? then handed + 1 else handed;
      && Counted(build, reg', client, n', handed')
      && (r.Ok? && handed' <= 0xFFFF ==> r.value.request == CreateRequestId(client, handed'))
  {
  }

  /** The hosts after a send. */
  lemma SendHostInStep(build: Build, s: Sys, h: HostId, sh: Shape, s': Sys, k: HostId)
    requires (sh.Open? && sh.q.host == h) || (sh.Refuse? && sh.h == h)
    requires Shaped(s, sh, s') && k in s.hosts && HostInStep(build, s, k)
    requires Counted(build, sh.reg, s.hosts[h].client, sh.n, if sh.Open? then Handed(s.sent, h) + 1 else Handed(s.sent, h))
    ensures k in s'.hosts && HostInStep(build, s', k)
  {
    if sh.Open? {
      HandedAppend(s.sent, sh.q, k);
    }
  }

  /** The requests already sent, and the new one. */
  lemma SendStamps(s: Sys, h: HostId, sh: Shape, s': Sys, g: nat)
    requires (sh.Open? && sh.q.host == h) || (sh.Refuse? && sh.h == h)
    requires Shaped(s, sh, s') && g < |s'.sent| && (g < |s.sent| ==> StampedInOrder(s, g))
    requires sh.Open? && Handed(s.sent, h) + 1 <= 0xFFFF ==> sh.q.session == StandardSession(Handed(s.sent, h) + 1)
    ensures StampedInOrder(s', g)
  {
    if g < |s.sent| {
      assert s'.sent[..g + 1] == s.sent[..g + 1];
    } else {
      HandedAppend(s.sent, sh.q, h);
      assert s'.sent[..g + 1] == s.sent + [sh.q];
    }
  }

  lemma SendInStep(build: Build, s: Sys, h: HostId, m: UMessage, sh: Shape, s': Sys)
    requires Entries(s) && Clients(s) && InStep(build, s) && h in s.hosts && Shaped(s, sh, s')
    requires SendsBy(build, s, h, m, sh)
    ensures InStep(build, s')
  {
    assert HostInStep(build, s, h);
    if s.retrieved[h] < 0xFFFF {
      NextSessionIsNew(build, s, h);
    }
    RequestCounts(build, s.hosts[h].reg, s.hosts[h].client, s.retrieved[h], Handed(s.sent, h), m);
    if sh.Open? {
      StampIs(s.hosts[h].client, sh.q.session, Handed(s.sent, h) + 1);
    }
    forall k | k in s'.hosts ensures HostInStep(build, s', k) {
      SendHostInStep(build, s, h, sh, s', k);
    }
    forall g | 0 <= g < |s'.sent| ensures StampedInOrder(s', g) {
      SendStamps(s, h, sh, s', g);
    }
  }

  lemma StampIs(client: u16, session: u16, k: nat)
    requires k > 0
    ensures k <= 0xFFFF && CreateRequestId(client, session) == CreateRequestId(client, k) ==> session == StandardSession(k)
  {
    WrappingMeetsStandard(k);
  }

  /** Every other step leaves the counters and the sent requests alone. */
  lemma QuietInStep(build: Build, s: Sys, sh: Shape, s': Sys)
    requires Clients(s) && InStep(build, s) && Shaped(s, sh, s') && !sh.Open? && !sh.Refuse?
    ensures InStep(build, s')
  {
    if sh.Join? {
      NoneHanded(s, s.sent, sh.h);
    }
    forall h | h in s'.hosts ensures HostInStep(build, s', h) {
      assert h in s.hosts ==> HostInStep(build, s, h);
    }
    forall g | 0 <= g < |s'.sent| ensures StampedInOrder(s', g) {
      assert StampedInOrder(s, g);
    }
  }

  lemma {:induction false} NoneHanded(s: Sys, sent: seq<Sent>, h: HostId)
    requires h !in s.hosts && sent <= s.sent && Clients(s)
    ensures Handed(sent, h) == 0
    decreases |sent|
  {
    if sent != [] {
      NoneHanded(s, sent[..|sent| - 1], h);
      assert ClientOk(s, s.sent[|sent| - 1]);
    }
  }

  // ----- runs -----

  ghost predicate RpcInv(build: Build, s: Sys) {
    TokenInv(s) && Content(s) && InStep(build, s)
  }

  lemma StepKeeps(build: Build, s: Sys, step: Step, s': Sys)
    requires RpcInv(build, s) && StepBy(build, s, step, s')
    ensures RpcInv(build, s')
  {
    var sh;
    if step.SendRequest? {
      sh := RequestContent(build, s, step.h, step.m, s');
      SendInStep(build, s, step.h, step.m, sh, s');
    } else {
      sh := OtherShape(build, s, step, s');
      QuietInStep(build, s, sh, s');
    }
    ShapeKeepsTokens(s, sh, s');
    ShapeKeepsBooks(s, sh, s');
    ShapeKeepsContent(s, sh, s');
  }

  lemma {:induction false} RunKeeps(build: Build, trace: seq<Sys>)
    requires Run(build, trace)
    ensures RpcInv(build, trace[|trace| - 1])
  {
    if |trace| > 1 {
      RunKeeps(build, trace[..|trace| - 1]);
      assert Next(build, trace[|trace| - 2], trace[|trace| - 2 + 1]);
      var step :| StepBy(build, trace[|trace| - 2], step, trace[|trace| - 1]);
      StepKeeps(build, trace[|trace| - 2], step, trace[|trace| - 1]);
    }
  }

  /**
   * Why repeated session ids do no harm: at most one wire request, service entry or wire response
   * exists per request id, and only while the entry of its own request is in the client's registry.
   */
  lemma OneToken(build: Build, trace: seq<Sys>, l: Place, k: Place)
    requires Run(build, trace) && Holds(trace[|trace| - 1], l)
    ensures var s := trace[|trace| - 1]; var r, g := RidOf(s, l), TagOf(s, l);
      && (Holds(s, k) && RidOf(s, k) == r ==> k == l)
      && (l.InNet? ==> s.net[l.p] == 1)
      && g < |s.sent| && s.sent[g].rid == r && s.sent[g].host in s.hosts
      && var ue := s.hosts[s.sent[g].host].reg.ue;
         r in ue && (Some(ue[r].0), Some(ue[r].1)) == (s.sent[g].msg.id, s.sent[g].msg.source)
  {
    var s := trace[|trace| - 1];
    RunKeeps(build, trace);
    assert Live(s, TagOf(s, l)) && OpenOk(s, RidOf(s, l));
  }

  /** Each delivered response answers the request that caused it, and no request is answered twice. */
  ghost predicate ResponsesRight(s: Sys) {
    && (forall n :: 0 <= n < |s.delivered| ==> ResponseRight(s, s.delivered[n]))
    && (forall m, n :: 0 <= m < n < |s.delivered| ==> s.delivered[m].tag != s.delivered[n].tag)
  }

  ghost predicate ResponseRight(s: Sys, d: Delivery) {
    && d.tag < |s.sent| && d.uid in s.received && d.uid in s.replies
    && var request, receipt, reply := s.sent[d.tag], s.received[d.uid], s.replies[d.uid];
    && d.host == request.host
    && d.msg.reqid == request.msg.id && d.msg.sink == request.msg.source
    && receipt.tag == d.tag && receipt.msg.payload == Some(Bytes(request.msg))
    && d.msg.payload == Some(Bytes(reply)) && d.msg.commstatus == Some(Known(Hop(reply.commstatus)))
  }

  /**
   * RPC safety. In every run, also one in which session ids repeat, each response delivered
   * reaches the host that sent the request, carries the id and source of exactly the request whose
   * wire message led to the reply, and carries that reply's payload and status; the service had
   * seen that request's payload; and no request is answered twice.
   */
  lemma RpcSafety(build: Build, trace: seq<Sys>)
    requires Run(build, trace)
    ensures ResponsesRight(trace[|trace| - 1])
  {
    var s := trace[|trace| - 1];
    RunKeeps(build, trace);
    forall n | 0 <= n < |s.delivered|
      ensures Answered(s, s.delivered[n]) && DeliveryOk(s, s.delivered[n])
      ensures ReceiptOk(s, s.delivered[n].uid, s.received[s.delivered[n].uid])
    {
      assert Answered(s, s.delivered[n]) && DeliveryOk(s, s.delivered[n]);
    }
  }

  /**
   * What a service sees, in numbers: every message that reached a listener is the request that some
   * host sent, from that host's client id, at its sink truncated under the local authority.
   */
  lemma RequestArrival(build: Build, trace: seq<Sys>, uid: Uid)
    requires Run(build, trace) && uid in trace[|trace| - 1].received
    ensures var s := trace[|trace| - 1]; var rc := s.received[uid];
      && rc.host in s.hosts && rc.tag < |s.sent| && s.sent[rc.tag].host in s.hosts && s.sent[rc.tag].msg.sink.Some?
      && var cfg, request := s.hosts[rc.host].cfg, s.sent[rc.tag]; var sink := request.msg.sink.value;
      && rc.msg.kind == REQUEST && rc.msg.id == Some(uid) && rc.msg.payload == Some(Bytes(request.msg))
      && rc.msg.source == Some(UUri(cfg.remote, s.hosts[request.host].client, cfg.version, 0))
      && rc.msg.sink == Some(UUri(cfg.local, sink.ueId % 0x1_0000, sink.version % 0x100, sink.resource % 0x1_0000))
  {
    var s := trace[|trace| - 1];
    RunKeeps(build, trace);
    var rc := s.received[uid];
    assert ReceiptOk(s, uid, rc);
    assert ClientOk(s, s.sent[rc.tag]);
    PackSplitInverse(s.hosts[s.sent[rc.tag].host].client, s.sent[rc.tag].session, 0);
  }

  /**
   * End-to-end addressing in runs. When the service replies from the address it was called at, the
   * client sees the sink of its request truncated under its remote authority; it sees exactly that
   * sink if and only if the sink fits into the SOME/IP fields and names that authority.
   */
  lemma ResponseAddress(build: Build, trace: seq<Sys>, n: nat)
    requires Run(build, trace) && n < |trace[|trace| - 1].delivered|
    ensures var s := trace[|trace| - 1]; var d := s.delivered[n];
      && d.tag < |s.sent| && s.sent[d.tag].msg.sink.Some? && d.host in s.hosts
      && d.uid in s.received && d.uid in s.replies
      && var sink, remote := s.sent[d.tag].msg.sink.value, s.hosts[d.host].cfg.remote;
      s.replies[d.uid].source == s.received[d.uid].msg.sink ==>
        && d.msg.source == Some(Truncated(remote, sink))
        && (d.msg.source == Some(sink) <==>
              sink.ueId < 0x1_0000 && sink.version < 0x100 && sink.resource < 0x1_0000 && sink.authority == remote)
  {
    var s := trace[|trace| - 1];
    var d := s.delivered[n];
    RunKeeps(build, trace);
    assert Answered(s, d) && DeliveryOk(s, d) && ReceiptOk(s, d.uid, s.received[d.uid]);
    EchoedAddress(s.sent[d.tag].msg.sink.value, s.hosts[s.received[d.uid].host].cfg.local, s.hosts[d.host].cfg.remote);
  }

  /**
   * No session id is burnt: until a host has taken more than 65535 session ids, it has handed over
   * one request for each; with overflow checks that is always so. And the k-th request of a host,
   * k up to 65535, is recorded under exactly the id that a library counting by the standard stamps.
   */
  lemma Lockstep(build: Build, trace: seq<Sys>, h: HostId, g: nat)
    requires Run(build, trace) && h in trace[|trace| - 1].hosts
    ensures var s := trace[|trace| - 1];
      && h in s.retrieved
      && (s.retrieved[h] <= 0xFFFF ==> Handed(s.sent, h) == s.retrieved[h])
      && (build == Checked ==> s.retrieved[h] <= 0xFFFE)
      && (g < |s.sent| && s.sent[g].host == h && Handed(s.sent[..g + 1], h) <= 0xFFFF ==>
            && Handed(s.sent[..g + 1], h) >= 1
            && s.sent[g].rid == CreateRequestId(s.hosts[h].client, StandardSession(Handed(s.sent[..g + 1], h))))
  {
    var s := trace[|trace| - 1];
    RunKeeps(build, trace);
    assert HostInStep(build, s, h);
    assert g < |s.sent| ==> StampedInOrder(s, g) && ClientOk(s, s.sent[g]);
  }
}
