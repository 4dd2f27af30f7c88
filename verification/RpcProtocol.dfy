/**
 * The request/response protocol between any number of transports over a network that may lose,
 * delay, reorder and misroute messages but not duplicate them.
 *
 * Tags follow a request through the network: `sent[g]` is the g-th request handed to the library,
 * and every message or registry entry that stands for it carries or implies the tag g. The code
 * sees none of this bookkeeping.
 */
module RpcProtocol {
  import opened Wrappers
  import opened Uris
  import opened RpcCorrelation
  import opened Conversions

  type HostId = int

  datatype Host = Host(client: u16, cfg: HostConfig, reg: Registry)

  datatype Packet =
    | Requesting(wire: Wire, tag: nat)
    | Responding(wire: Wire, tag: nat, uid: Uid)

  /** A request that went out, with the request id recorded for it and its session part. */
  datatype Sent = Sent(host: HostId, msg: UMessage, rid: u32, session: u16)
  /** A request that reached the listener of a service. */
  datatype Receipt = Receipt(tag: nat, host: HostId, msg: UMessage)
  /** A response that reached the listener of a client. */
  datatype Delivery = Delivery(tag: nat, uid: Uid, host: HostId, msg: UMessage)

  datatype Sys = Sys(
    hosts: map<HostId, Host>,
    net: multiset<Packet>,
    sent: seq<Sent>,
    open: map<u32, nat>,           // tag of the request whose client entry is under a request id
    received: map<Uid, Receipt>,
    replies: map<Uid, UMessage>,
    delivered: seq<Delivery>,
    retrieved: map<HostId, nat>)   // session ids each host has taken from its counter

  datatype Step =
    | AddHost(h: HostId, client: u16, cfg: HostConfig)
    | SendRequest(h: HostId, m: UMessage)
    | DeliverRequest(h: HostId, p: Packet, b: Builder)
    | SendResponse(h: HostId, m: UMessage)
    | DeliverResponse(h: HostId, p: Packet, b: Builder)
    | Lose(p: Packet)

  function SetReg(s: Sys, h: HostId, reg: Registry): map<HostId, Host>
    requires h in s.hosts
  {
    s.hosts[h := s.hosts[h].(reg := reg)]
  }

  /** A request with all its attributes takes a session id, unless the counter panics. */
  function Retrieved(build: Build, s: Sys, h: HostId, m: UMessage): nat
    requires h in s.hosts
  {
    var before := if h in s.retrieved then s.retrieved[h] else 0;
    if m.source.Some? && m.sink.Some? && m.id.Some? && Retrieve(s.hosts[h].reg, build, s.hosts[h].client).1.Some?
    then before + 1 else before
  }

  function DoSendRequest(build: Build, s: Sys, h: HostId, m: UMessage): Sys
    requires h in s.hosts
  {
    var (reg, r) := RequestToWire(s.hosts[h].reg, build, s.hosts[h].client, m);
    var s1 := s.(hosts := SetReg(s, h, reg), retrieved := s.retrieved[h := Retrieved(build, s, h, m)]);
    if r.Err? then s1
    else
      var w := r.value;
      s1.(net := s.net + multiset{Requesting(w, |s.sent|)},
          sent := s.sent + [Sent(h, m, w.request, SplitU32ToU16(w.request).1)],
          open := s.open[w.request := |s.sent|])
  }

  function DoDeliverRequest(s: Sys, h: HostId, p: Packet, b: Builder): Sys
    requires h in s.hosts
  {
    var (reg, r) := WireToRequest(s.hosts[h].reg, s.hosts[h].cfg, p.wire, b);
    var s1 := s.(hosts := SetReg(s, h, reg), net := s.net - multiset{p});
    if r.Err? then s1 else s1.(received := s.received[b.uid := Receipt(p.tag, h, r.value)])
  }

  function DoSendResponse(s: Sys, h: HostId, m: UMessage): Sys
    requires h in s.hosts
  {
    var (reg, r) := ResponseToWire(s.hosts[h].reg, m);
    var s1 := s.(hosts := SetReg(s, h, reg));
    if r.Err? || m.reqid.None? || m.reqid.value !in s.received then s1
    else
      var uid := m.reqid.value;
      s1.(net := s.net + multiset{Responding(r.value, s.received[uid].tag, uid)},
          replies := s.replies[uid := m])
  }

  function DoDeliverResponse(s: Sys, h: HostId, p: Packet, b: Builder): Sys
    requires h in s.hosts && p.Responding?
  {
    var (reg, r) := WireToResponse(s.hosts[h].reg, s.hosts[h].cfg, p.wire, b);
    var s1 := s.(hosts := SetReg(s, h, reg), net := s.net - multiset{p},
                 open := if reg == s.hosts[h].reg then s.open else s.open - {p.wire.request});
    if r.Err? then s1 else s1.(delivered := s.delivered + [Delivery(p.tag, p.uid, h, r.value)])
  }

  ghost predicate StepBy(build: Build, s: Sys, step: Step, s': Sys) {
    match step
    case AddHost(h, client, cfg) => Joined(s, h, client, cfg, s')
    case SendRequest(h, m) => h in s.hosts && s' == DoSendRequest(build, s, h, m)
    case DeliverRequest(h, p, b) =>
      // message ids are fresh
      h in s.hosts && p in s.net && p.Requesting? && b.uid !in s.received && s' == DoDeliverRequest(s, h, p, b)
    case SendResponse(h, m) => h in s.hosts && s' == DoSendResponse(s, h, m)
    case DeliverResponse(h, p, b) =>
      h in s.hosts && p in s.net && p.Responding? && s' == DoDeliverResponse(s, h, p, b)
    case Lose(p) => p in s.net && s' == s.(net := s.net - multiset{p})
  }

  ghost predicate Next(build: Build, s: Sys, s': Sys) {
    exists step :: StepBy(build, s, step, s')
  }

  const INIT := Sys(map[], multiset{}, [], map[], map[], map[], [], map[])

  ghost predicate Run(build: Build, trace: seq<Sys>) {
    && |trace| > 0 && trace[0] == INIT
    && forall n :: 0 <= n < |trace| - 1 ==> Next(build, trace[n], trace[n + 1])
  }

  // ----- what the steps amount to -----

  ghost predicate Joined(s: Sys, h: HostId, client: u16, cfg: HostConfig, s': Sys) {
    && h !in s.hosts && (forall g :: g in s.hosts ==> s.hosts[g].client != client)
    && s' == s.(hosts := s.hosts[h := Host(client, cfg, EMPTY_REGISTRY)], retrieved := s.retrieved[h := 0])
  }

  /** A send that changes nothing but the session counter. */
  ghost predicate Refused(s: Sys, h: HostId, reg: Registry, n: nat, s': Sys) {
    && h in s.hosts && reg.ue == s.hosts[h].reg.ue && reg.me == s.hosts[h].reg.me
    && s' == s.(hosts := SetReg(s, h, reg), retrieved := s.retrieved[h := n])
  }

  /** A new request, under a request id its client has no entry for. */
  ghost predicate Opened(s: Sys, q: Sent, w: Wire, reg: Registry, n: nat, s': Sys) {
    && q.host in s.hosts && q.msg.id.Some? && q.msg.source.Some? && q.msg.sink.Some?
    && w.request == q.rid == CreateRequestId(s.hosts[q.host].client, q.session)
    && q.rid !in s.hosts[q.host].reg.ue
    && reg.ue == s.hosts[q.host].reg.ue[q.rid := (q.msg.id.value, q.msg.source.value)]
    && reg.me == s.hosts[q.host].reg.me
    && s' == s.(hosts := SetReg(s, q.host, reg), retrieved := s.retrieved[q.host := n],
                net := s.net + multiset{Requesting(w, |s.sent|)}, sent := s.sent + [q],
                open := s.open[q.rid := |s.sent|])
  }

  ghost predicate Dropped(s: Sys, p: Packet, s': Sys) {
    p in s.net && s' == s.(net := s.net - multiset{p})
  }

  /** A request reaches a service. */
  ghost predicate Arrived(s: Sys, h: HostId, p: Packet, uid: Uid, msg: UMessage, s': Sys) {
    && h in s.hosts && p in s.net && p.Requesting? && uid !in s.received
    && var reg := s.hosts[h].reg;
    s' == s.(hosts := SetReg(s, h, reg.(me := reg.me[uid := p.wire.request])), net := s.net - multiset{p},
             received := s.received[uid := Receipt(p.tag, h, msg)])
  }

  /** A service answers a request in its registry. */
  ghost predicate Replied(s: Sys, h: HostId, uid: Uid, m: UMessage, w: Wire, s': Sys) {
    && h in s.hosts && uid in s.hosts[h].reg.me && uid in s.received && w.request == s.hosts[h].reg.me[uid]
    && var reg := s.hosts[h].reg;
    s' == s.(hosts := SetReg(s, h, reg.(me := reg.me - {uid})),
             net := s.net + multiset{Responding(w, s.received[uid].tag, uid)}, replies := s.replies[uid := m])
  }

  /** A response finds an entry under its request id; it may still fail to be built. */
  ghost predicate Closed(s: Sys, h: HostId, p: Packet, ds: seq<Delivery>, s': Sys) {
    && h in s.hosts && p in s.net && p.Responding? && p.wire.request in s.hosts[h].reg.ue
    && var reg := s.hosts[h].reg;
    && |ds| <= 1
    && (forall d :: d in ds ==>
          && d.tag == p.tag && d.uid == p.uid && d.host == h && d.msg.kind == RESPONSE
          && (d.msg.reqid, d.msg.sink) == (Some(reg.ue[p.wire.request].0), Some(reg.ue[p.wire.request].1)))
    && s' == s.(hosts := SetReg(s, h, reg.(ue := reg.ue - {p.wire.request})), net := s.net - multiset{p},
                open := s.open - {p.wire.request}, delivered := s.delivered + ds)
  }

  datatype Shape =
    | Same
    | Join(h: HostId, client: u16, cfg: HostConfig)
    | Refuse(h: HostId, reg: Registry, n: nat)
    | Open(q: Sent, w: Wire, reg: Registry, n: nat)
    | Drop(p: Packet)
    | Arrive(h: HostId, p: Packet, uid: Uid, msg: UMessage)
    | Reply(h: HostId, uid: Uid, m: UMessage, w: Wire)
    | Close(h: HostId, p: Packet, ds: seq<Delivery>)

  ghost predicate Shaped(s: Sys, sh: Shape, s': Sys) {
    match sh
    case Same => s' == s
    case Join(h, client, cfg) => Joined(s, h, client, cfg, s')
    case Refuse(h, reg, n) => Refused(s, h, reg, n, s')
    case Open(q, w, reg, n) => Opened(s, q, w, reg, n, s')
    case Drop(p) => Dropped(s, p, s')
    case Arrive(h, p, uid, msg) => Arrived(s, h, p, uid, msg, s')
    case Reply(h, uid, m, w) => Replied(s, h, uid, m, w, s')
    case Close(h, p, ds) => Closed(s, h, p, ds, s')
  }

  lemma SendRequestShape(build: Build, s: Sys, h: HostId, m: UMessage, s': Sys) returns (sh: Shape)
    requires h in s.hosts && s' == DoSendRequest(build, s, h, m)
    ensures (sh.Open? || sh.Refuse?) && Shaped(s, sh, s')
    ensures sh.Refuse? ==> sh.h == h && RequestToWire(s.hosts[h].reg, build, s.hosts[h].client, m).1.Err?
    ensures sh.Open? ==> sh.q.host == h && sh.q.msg == m && RequestToWire(s.hosts[h].reg, build, s.hosts[h].client, m).1 == Ok(sh.w)
    ensures sh.reg == RequestToWire(s.hosts[h].reg, build, s.hosts[h].client, m).0 && sh.n == Retrieved(build, s, h, m)
  {
    var (reg, r) := RequestToWire(s.hosts[h].reg, build, s.hosts[h].client, m);
    var n := Retrieved(build, s, h, m);
    if r.Err? {
      sh := Refuse(h, reg, n);
    } else {
      var session := Retrieve(s.hosts[h].reg, build, s.hosts[h].client).1.value;
      PackSplitInverse(s.hosts[h].client, session, 0);
      sh := Open(Sent(h, m, r.value.request, session), r.value, reg, n);
    }
  }

  lemma DeliverRequestShape(s: Sys, h: HostId, p: Packet, b: Builder, s': Sys) returns (sh: Shape)
    requires h in s.hosts && p in s.net && p.Requesting? && b.uid !in s.received && s' == DoDeliverRequest(s, h, p, b)
    ensures (sh.Arrive? || sh.Drop?) && Shaped(s, sh, s')
    ensures sh.Arrive? ==> sh.h == h && sh.p == p && sh.uid == b.uid
                           && WireToRequest(s.hosts[h].reg, s.hosts[h].cfg, p.wire, b).1 == Ok(sh.msg)
  {
    var (reg, r) := WireToRequest(s.hosts[h].reg, s.hosts[h].cfg, p.wire, b);
    if r.Err? {
      assert s'.hosts == s.hosts;
      sh := Drop(p);
    } else {
      sh := Arrive(h, p, b.uid, r.value);
    }
  }

  lemma SendResponseShape(s: Sys, h: HostId, m: UMessage, s': Sys) returns (sh: Shape)
    requires h in s.hosts && s' == DoSendResponse(s, h, m)
    requires m.reqid.Some? && m.reqid.value in s.hosts[h].reg.me ==> m.reqid.value in s.received
    ensures (sh.Reply? || sh.Same?) && Shaped(s, sh, s')
    ensures sh.Reply? ==> sh.h == h && sh.m == m && ResponseToWire(s.hosts[h].reg, m).1 == Ok(sh.w)
  {
    var (reg, r) := ResponseToWire(s.hosts[h].reg, m);
    if r.Err? {
      assert s'.hosts == s.hosts;
      sh := Same;
    } else {
      PackSplitInverse(0, 0, s.hosts[h].reg.me[m.reqid.value]);
      sh := Reply(h, m.reqid.value, m, r.value);
    }
  }

  lemma DeliverResponseShape(s: Sys, h: HostId, p: Packet, b: Builder, s': Sys) returns (sh: Shape)
    requires h in s.hosts && p in s.net && p.Responding? && s' == DoDeliverResponse(s, h, p, b)
    ensures (sh.Close? || sh.Drop?) && Shaped(s, sh, s')
    ensures sh.Close? ==> sh.h == h && sh.p == p
    ensures sh.Close? ==> forall d :: d in sh.ds ==>
              WireToResponse(s.hosts[h].reg, s.hosts[h].cfg, p.wire, b).1 == Ok(d.msg)
  {
    var (reg, r) := WireToResponse(s.hosts[h].reg, s.hosts[h].cfg, p.wire, b);
    if !b.uriOk || p.wire.request !in s.hosts[h].reg.ue {
      assert s'.hosts == s.hosts;
      sh := Drop(p);
    } else {
      assert p.wire.request in s.hosts[h].reg.ue && p.wire.request !in reg.ue;
      assert s.delivered + [] == s.delivered;
      sh := Close(h, p, if r.Ok? then [Delivery(p.tag, p.uid, h, r.value)] else []);
    }
  }

  // ----- the token invariant -----

  /** Where a request is while it is being answered. */
  datatype Place = InNet(p: Packet) | AtService(h: HostId, uid: Uid)

  ghost predicate Holds(s: Sys, l: Place) {
    match l
    case InNet(p) => p in s.net
    case AtService(h, uid) => h in s.hosts && uid in s.hosts[h].reg.me
  }

  ghost function TagOf(s: Sys, l: Place): nat {
    match l
    case InNet(p) => p.tag
    case AtService(h, uid) => if uid in s.received then s.received[uid].tag else 0
  }

  ghost function RidOf(s: Sys, l: Place): u32
    requires Holds(s, l)
  {
    match l
    case InNet(p) => p.wire.request
    case AtService(h, uid) => s.hosts[h].reg.me[uid]
  }

  /** The client entry of request `g` is still there, and it is still the one made for `g`. */
  ghost predicate Live(s: Sys, g: nat) {
    g < |s.sent| && s.sent[g].rid in s.open && s.open[s.sent[g].rid] == g
  }

  /** Every token stands for a live request and carries its request id. */
  ghost predicate TokensLive(s: Sys) {
    forall l :: Holds(s, l) ==> Live(s, TagOf(s, l)) && RidOf(s, l) == s.sent[TagOf(s, l)].rid
  }

  /** One token per request: one place, and one copy there. */
  ghost predicate TokensUnique(s: Sys) {
    && (forall p :: p in s.net ==> s.net[p] == 1)
    && (forall l, k :: Holds(s, l) && Holds(s, k) && TagOf(s, l) == TagOf(s, k) ==> l == k)
  }

  ghost predicate ServicesKnown(s: Sys) {
    forall h, uid :: h in s.hosts && uid in s.hosts[h].reg.me ==> uid in s.received && s.received[uid].host == h
  }

  ghost predicate Tokens(s: Sys) {
    TokensLive(s) && TokensUnique(s) && ServicesKnown(s)
  }

  /** `open` is exactly the client entries, each with the id and source of its own request. */
  ghost predicate Entries(s: Sys) {
    EntriesOpen(s) && OpenEntered(s)
  }

  ghost predicate EntriesOpen(s: Sys) {
    forall h, r :: h in s.hosts && r in s.hosts[h].reg.ue ==>
      r in s.open && s.open[r] < |s.sent| && s.sent[s.open[r]].host == h
  }

  ghost predicate OpenEntered(s: Sys) {
    forall r :: r in s.open ==> OpenOk(s, r)
  }

  ghost predicate OpenOk(s: Sys, r: u32)
    requires r in s.open
  {
    var g := s.open[r];
    && g < |s.sent| && s.sent[g].rid == r
    && s.sent[g].msg.id.Some? && s.sent[g].msg.source.Some?
    && s.sent[g].host in s.hosts && r in s.hosts[s.sent[g].host].reg.ue
    && s.hosts[s.sent[g].host].reg.ue[r] == (s.sent[g].msg.id.value, s.sent[g].msg.source.value)
  }

  /** A delivered response is finished with, and answers its request. */
  ghost predicate Answered(s: Sys, d: Delivery) {
    && d.tag < |s.sent| && !Live(s, d.tag)
    && d.host == s.sent[d.tag].host
    && d.msg.kind == RESPONSE && d.msg.reqid == s.sent[d.tag].msg.id && d.msg.sink == s.sent[d.tag].msg.source
  }

  ghost predicate Deliveries(s: Sys) {
    && (forall n :: 0 <= n < |s.delivered| ==> Answered(s, s.delivered[n]))
    && (forall m, n :: 0 <= m < n < |s.delivered| ==> s.delivered[m].tag != s.delivered[n].tag)
  }

  /** Hosts have different client ids, and each recorded request id carries its host's. */
  ghost predicate Clients(s: Sys) {
    && (forall h, k :: h in s.hosts && k in s.hosts && s.hosts[h].client == s.hosts[k].client ==> h == k)
    && (forall g :: 0 <= g < |s.sent| ==> ClientOk(s, s.sent[g]))
  }

  ghost predicate ClientOk(s: Sys, q: Sent) {
    q.host in s.hosts && q.rid == CreateRequestId(s.hosts[q.host].client, q.session)
  }

  ghost predicate TokenInv(s: Sys) {
    Tokens(s) && Entries(s) && Deliveries(s) && Clients(s)
  }

  // ----- tokens -----

  /** Nothing is new in `s'` except that the token at `from` may now be at `to`. */
  ghost predicate Moves(s: Sys, from: Place, to: Option<Place>, s': Sys) {
    && s'.sent == s.sent
    && Holds(s, from)
    && (forall l :: Holds(s', l) && Some(l) != to ==>
          Holds(s, l) && l != from && TagOf(s', l) == TagOf(s, l) && RidOf(s', l) == RidOf(s, l))
    && (to.Some? && Holds(s', to.value) ==>
          TagOf(s', to.value) == TagOf(s, from) && RidOf(s', to.value) == RidOf(s, from))
  }

  lemma MoveKeepsTokens(s: Sys, from: Place, to: Option<Place>, s': Sys)
    requires TokensLive(s) && TokensUnique(s) && Moves(s, from, to, s') && s'.open == s.open
    ensures TokensLive(s')
    ensures forall l, k :: Holds(s', l) && Holds(s', k) && TagOf(s', l) == TagOf(s', k) ==> l == k
  {
  }

  lemma TakeOne(net: multiset<Packet>, p: Packet)
    requires p in net && forall q :: q in net ==> net[q] == 1
    ensures p !in net - multiset{p}
    ensures forall q :: q in net - multiset{p} ==> q in net && (net - multiset{p})[q] == 1
  {
  }

  /** Steps that leave the network and the service entries alone. */
  lemma SameTokens(s: Sys, s': Sys)
    requires Tokens(s)
    requires s'.net == s.net && s'.received == s.received && s'.sent == s.sent && s'.open == s.open
    requires forall h :: h in s.hosts ==> h in s'.hosts && s'.hosts[h].reg.me == s.hosts[h].reg.me
    requires forall h :: h in s'.hosts && h !in s.hosts ==> s'.hosts[h].reg.me == map[]
    ensures Tokens(s')
  {
    forall l | Holds(s', l) ensures Holds(s, l) && TagOf(s', l) == TagOf(s, l) && RidOf(s', l) == RidOf(s, l) {
    }
  }

  lemma DropTokens(s: Sys, p: Packet, s': Sys)
    requires Tokens(s) && Dropped(s, p, s')
    ensures Tokens(s')
  {
    TakeOne(s.net, p);
    MoveKeepsTokens(s, InNet(p), None, s');
  }

  /** A request that reaches a service is now in its registry instead of the network. */
  lemma ArriveTokens(s: Sys, h: HostId, p: Packet, uid: Uid, msg: UMessage, s': Sys)
    requires Tokens(s) && Arrived(s, h, p, uid, msg, s')
    ensures Tokens(s')
  {
    TakeOne(s.net, p);
    var to := AtService(h, uid);
    forall l | Holds(s', l) && l != to
      ensures Holds(s, l) && l != InNet(p) && TagOf(s', l) == TagOf(s, l) && RidOf(s', l) == RidOf(s, l)
    {
    }
    MoveKeepsTokens(s, InNet(p), Some(to), s');
  }

  /** An answered request leaves the registry of the service for the network. */
  lemma ReplyTokens(s: Sys, h: HostId, uid: Uid, m: UMessage, w: Wire, s': Sys)
    requires Tokens(s) && Replied(s, h, uid, m, w, s')
    ensures Tokens(s')
  {
    var from := AtService(h, uid);
    var q := Responding(w, s.received[uid].tag, uid);
    assert Holds(s, from);
    assert q !in s.net by {
      assert q in s.net ==> Holds(s, InNet(q));
    }
    forall l | Holds(s', l) && l != InNet(q)
      ensures Holds(s, l) && l != from && TagOf(s', l) == TagOf(s, l) && RidOf(s', l) == RidOf(s, l)
    {
    }
    MoveKeepsTokens(s, from, Some(InNet(q)), s');
  }

  lemma CloseTokens(s: Sys, h: HostId, p: Packet, ds: seq<Delivery>, s': Sys)
    requires Tokens(s) && Closed(s, h, p, ds, s') && Live(s, p.tag) && s.sent[p.tag].rid == p.wire.request
    ensures Tokens(s')
  {
    TakeOne(s.net, p);
    assert Holds(s, InNet(p));
    forall l | Holds(s', l)
      ensures Holds(s, l) && l != InNet(p) && TagOf(s', l) == TagOf(s, l) && RidOf(s', l) == RidOf(s, l)
    {
    }
    forall l | Holds(s', l) ensures Live(s', TagOf(s', l)) {
      assert Live(s, TagOf(s, l));
    }
  }

  lemma OpenTokens(s: Sys, q: Sent, w: Wire, reg: Registry, n: nat, s': Sys)
    requires Tokens(s) && Opened(s, q, w, reg, n, s') && q.rid !in s.open
    ensures Tokens(s')
  {
    var p := Requesting(w, |s.sent|);
    assert p !in s.net by {
      assert p in s.net ==> Holds(s, InNet(p));
    }
    forall l | Holds(s', l) && l != InNet(p)
      ensures Holds(s, l) && TagOf(s', l) == TagOf(s, l) < |s.sent| && RidOf(s', l) == RidOf(s, l)
      ensures Live(s', TagOf(s', l)) && s'.sent[TagOf(s', l)] == s.sent[TagOf(s', l)]
    {
      assert Holds(s, l);
    }
  }

  // ----- client entries and deliveries -----

  /** Steps that leave the client entries, the sent requests and the deliveries alone. */
  ghost predicate SameBooks(s: Sys, s': Sys) {
    && s'.sent == s.sent && s'.open == s.open && s'.delivered == s.delivered
    && s'.hosts.Keys == s.hosts.Keys
    && forall h :: h in s.hosts ==> s'.hosts[h].client == s.hosts[h].client && s'.hosts[h].reg.ue == s.hosts[h].reg.ue
  }

  lemma SameBooksKeep(s: Sys, s': Sys)
    requires Entries(s) && Deliveries(s) && Clients(s) && SameBooks(s, s')
    ensures Entries(s') && Deliveries(s') && Clients(s')
  {
    forall r | r in s'.open ensures OpenOk(s', r) {
      assert OpenOk(s, r);
    }
    forall n | 0 <= n < |s.delivered| ensures Answered(s', s'.delivered[n]) {
      assert Answered(s, s.delivered[n]);
    }
    forall g | 0 <= g < |s.sent| ensures ClientOk(s', s'.sent[g]) {
      assert ClientOk(s, s.sent[g]);
    }
  }

  /** A response finds a client entry only at the host that sent its request, and finds that request's. */
  lemma ResponseFindsOwn(s: Sys, h: HostId, p: Packet)
    requires Tokens(s) && Entries(s) && h in s.hosts && p in s.net && p.wire.request in s.hosts[h].reg.ue
    ensures Live(s, p.tag) && s.sent[p.tag].host == h && s.sent[p.tag].rid == p.wire.request
    ensures p.wire.request in s.open && s.open[p.wire.request] == p.tag && OpenOk(s, p.wire.request)
  {
    assert Holds(s, InNet(p));
    assert p.wire.request in s.open;
  }

  lemma CloseEntries(s: Sys, h: HostId, p: Packet, ds: seq<Delivery>, s': Sys)
    requires Entries(s) && Closed(s, h, p, ds, s') && Live(s, p.tag) && s.sent[p.tag].rid == p.wire.request
    requires s.sent[p.tag].host == h
    ensures Entries(s')
  {
    CloseEntriesOpen(s, h, p.wire.request, s');
    CloseOpenEntered(s, h, p.wire.request, s');
  }

  /** Only the entry of `r` at `h` goes, and with it the note that `r` is open. */
  ghost predicate Removed(s: Sys, h: HostId, r: u32, s': Sys) {
    && h in s.hosts && r in s.hosts[h].reg.ue
    && var reg := s.hosts[h].reg;
    s'.hosts == SetReg(s, h, reg.(ue := reg.ue - {r})) && s'.sent == s.sent && s'.open == s.open - {r}
  }

  lemma CloseEntriesOpen(s: Sys, h: HostId, r: u32, s': Sys)
    requires Entries(s) && Removed(s, h, r, s')
    ensures EntriesOpen(s')
  {
    forall k, x | k in s'.hosts && x in s'.hosts[k].reg.ue
      ensures x in s'.open && s'.open[x] < |s'.sent| && s'.sent[s'.open[x]].host == k
    {
      assert k in s.hosts && x in s.hosts[k].reg.ue && s.sent[s.open[x]].host == k && s.sent[s.open[r]].host == h;
    }
  }

  lemma CloseOpenEntered(s: Sys, h: HostId, r: u32, s': Sys)
    requires Entries(s) && Removed(s, h, r, s')
    ensures OpenEntered(s')
  {
    forall x | x in s'.open ensures OpenOk(s', x) {
      assert OpenOk(s, x);
    }
  }

  lemma CloseDeliveries(s: Sys, h: HostId, p: Packet, ds: seq<Delivery>, s': Sys)
    requires Deliveries(s) && Closed(s, h, p, ds, s') && Live(s, p.tag) && s.sent[p.tag].rid == p.wire.request
    requires s.sent[p.tag].host == h && s.open[p.wire.request] == p.tag && OpenOk(s, p.wire.request)
    ensures Deliveries(s')
  {
    forall n | 0 <= n < |s.delivered| ensures Answered(s', s.delivered[n]) && s.delivered[n].tag != p.tag {
      assert Answered(s, s.delivered[n]);
    }
    forall n | 0 <= n < |s'.delivered| ensures Answered(s', s'.delivered[n]) {
      assert n < |s.delivered| || s'.delivered[n] in ds;
    }
  }

  lemma CloseClients(s: Sys, h: HostId, p: Packet, ds: seq<Delivery>, s': Sys)
    requires Clients(s) && Closed(s, h, p, ds, s')
    ensures Clients(s')
  {
    forall g | 0 <= g < |s.sent| ensures ClientOk(s', s'.sent[g]) {
      assert ClientOk(s, s.sent[g]);
    }
  }

  /** A request id its own client has no entry for is not open at all. */
  lemma FreshRid(s: Sys, q: Sent)
    requires Entries(s) && Clients(s) && q.host in s.hosts && q.rid !in s.hosts[q.host].reg.ue
    requires q.rid == CreateRequestId(s.hosts[q.host].client, q.session)
    ensures q.rid !in s.open
  {
    if q.rid in s.open {
      var o := s.sent[s.open[q.rid]];
      assert OpenOk(s, q.rid) && ClientOk(s, o);
      PackSplitInverse(s.hosts[q.host].client, q.session, q.rid);
      PackSplitInverse(s.hosts[o.host].client, o.session, o.rid);
    }
  }

  lemma OpenEntries(s: Sys, q: Sent, w: Wire, reg: Registry, n: nat, s': Sys)
    requires Entries(s) && Opened(s, q, w, reg, n, s') && q.rid !in s.open
    ensures Entries(s')
  {
    OpenOpenEntered(s, q, w, reg, n, s');
    forall h, r | h in s'.hosts && r in s'.hosts[h].reg.ue
      ensures r in s'.open && s'.open[r] < |s'.sent| && s'.sent[s'.open[r]].host == h
    {
      assert (h == q.host && r == q.rid) || r in s.hosts[h].reg.ue;
    }
  }

  lemma OpenOpenEntered(s: Sys, q: Sent, w: Wire, reg: Registry, n: nat, s': Sys)
    requires OpenEntered(s) && Opened(s, q, w, reg, n, s') && q.rid !in s.open
    ensures OpenEntered(s')
  {
    forall r | r in s'.open ensures OpenOk(s', r) {
      if r in s.open {
        assert OpenOk(s, r);
        assert s'.sent[s.open[r]] == s.sent[s.open[r]];
      }
    }
  }

  lemma OpenDeliveries(s: Sys, q: Sent, w: Wire, reg: Registry, n: nat, s': Sys)
    requires Deliveries(s) && Opened(s, q, w, reg, n, s')
    ensures Deliveries(s')
  {
    forall n | 0 <= n < |s.delivered| ensures Answered(s', s'.delivered[n]) {
      assert Answered(s, s.delivered[n]);
    }
  }

  lemma OpenClients(s: Sys, q: Sent, w: Wire, reg: Registry, n: nat, s': Sys)
    requires Clients(s) && Opened(s, q, w, reg, n, s')
    ensures Clients(s')
  {
    forall g | 0 <= g < |s'.sent| ensures ClientOk(s', s'.sent[g]) {
      assert g < |s.sent| ==> ClientOk(s, s.sent[g]);
    }
  }

  lemma JoinKeeps(s: Sys, h: HostId, client: u16, cfg: HostConfig, s': Sys)
    requires Entries(s) && Deliveries(s) && Clients(s) && Joined(s, h, client, cfg, s')
    ensures Entries(s') && Deliveries(s') && Clients(s')
  {
    forall r | r in s'.open ensures OpenOk(s', r) {
      assert OpenOk(s, r);
    }
    forall n | 0 <= n < |s.delivered| ensures Answered(s', s'.delivered[n]) {
      assert Answered(s, s.delivered[n]);
    }
    forall g | 0 <= g < |s.sent| ensures ClientOk(s', s'.sent[g]) {
      assert ClientOk(s, s.sent[g]);
    }
  }

  lemma ShapeKeepsTokens(s: Sys, sh: Shape, s': Sys)
    requires TokenInv(s) && Shaped(s, sh, s')
    ensures Tokens(s')
  {
    match sh
    case Same =>
    case Join(_, _, _) => SameTokens(s, s');
    case Refuse(_, _, _) => SameTokens(s, s');
    case Open(q, w, reg, n) => FreshRid(s, q); OpenTokens(s, q, w, reg, n, s');
    case Drop(p) => DropTokens(s, p, s');
    case Arrive(h, p, uid, msg) => ArriveTokens(s, h, p, uid, msg, s');
    case Reply(h, uid, m, w) => ReplyTokens(s, h, uid, m, w, s');
    case Close(h, p, ds) => ResponseFindsOwn(s, h, p); CloseTokens(s, h, p, ds, s');
  }

  lemma ShapeKeepsBooks(s: Sys, sh: Shape, s': Sys)
    requires TokenInv(s) && Shaped(s, sh, s')
    ensures Entries(s') && Deliveries(s') && Clients(s')
  {
    match sh
    case Join(h, client, cfg) => JoinKeeps(s, h, client, cfg, s');
    case Open(q, w, reg, n) =>
      FreshRid(s, q);
      OpenEntries(s, q, w, reg, n, s');
      OpenDeliveries(s, q, w, reg, n, s');
      OpenClients(s, q, w, reg, n, s');
    case Close(h, p, ds) =>
      ResponseFindsOwn(s, h, p);
      CloseEntries(s, h, p, ds, s');
      CloseDeliveries(s, h, p, ds, s');
      CloseClients(s, h, p, ds, s');
    case Same =>
    case _ => SameBooksKeep(s, s');
  }
}
