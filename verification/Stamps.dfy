/**
 * The same protocol when the library stamps each request with a session id of its own: it counts the
 * requests handed to it per client, as the SOME/IP standard says, and knows nothing of the id that
 * was recorded. RPC safety then holds exactly up to the 65535th request of a host.
 */
module Stamps {
  import opened Wrappers
  import opened Uris
  import opened StatusCodes
  import opened RpcCorrelation
  import opened Conversions
  import opened RpcProtocol
  import opened RpcRuns

  /** The request id the library puts on the next request of a host. */
  function Stamp(s: Sys, h: HostId): u32
    requires h in s.hosts
  {
    CreateRequestId(s.hosts[h].client, StandardSession(Handed(s.sent, h) + 1))
  }

  function DoSendStamped(build: Build, s: Sys, h: HostId, m: UMessage): Sys
    requires h in s.hosts
  {
    var r := RequestToWire(s.hosts[h].reg, build, s.hosts[h].client, m).1;
    var s1 := DoSendRequest(build, s, h, m);
    if r.Err? then s1
    else s1.(net := s.net + multiset{Requesting(r.value.(request := Stamp(s, h)), |s.sent|)})
  }

  ghost predicate StampStepBy(build: Build, s: Sys, step: Step, s': Sys) {
    if step.SendRequest? then step.h in s.hosts && s' == DoSendStamped(build, s, step.h, step.m)
    else StepBy(build, s, step, s')
  }

  ghost predicate StampNext(build: Build, s: Sys, s': Sys) {
    exists step :: StampStepBy(build, s, step, s')
  }

  ghost predicate StampRun(build: Build, trace: seq<Sys>) {
    && |trace| > 0 && trace[0] == INIT
    && forall n :: 0 <= n < |trace| - 1 ==> StampNext(build, trace[n], trace[n + 1])
  }

  /** No host has handed more than `limit` requests to the library. */
  ghost predicate AtMost(s: Sys, limit: nat) {
    forall h :: h in s.hosts ==> Handed(s.sent, h) <= limit
  }

  // ----- up to 65535 requests -----

  lemma SmallSession(k: nat)
    requires 0 < k <= 0xFFFF
    ensures StandardSession(k) == k
  {
  }

  /** The library stamps what was recorded. */
  lemma StampAgrees(build: Build, s: Sys, h: HostId, m: UMessage)
    requires RpcInv(build, s) && h in s.hosts && Handed(s.sent, h) < 0xFFFF
    requires RequestToWire(s.hosts[h].reg, build, s.hosts[h].client, m).1.Ok?
    ensures RequestToWire(s.hosts[h].reg, build, s.hosts[h].client, m).1.value.request == Stamp(s, h)
  {
    assert HostInStep(build, s, h);
    var n := s.retrieved[h];
    NextSessionIsNew(build, s, h);
    RequestCounts(build, s.hosts[h].reg, s.hosts[h].client, n, Handed(s.sent, h), m);
    SmallSession(Handed(s.sent, h) + 1);
  }

  lemma StampStepIsStep(build: Build, s: Sys, step: Step, s': Sys)
    requires RpcInv(build, s) && StampStepBy(build, s, step, s')
    requires step.SendRequest? ==> Handed(s.sent, step.h) < 0xFFFF
    ensures StepBy(build, s, step, s')
  {
    if step.SendRequest? && RequestToWire(s.hosts[step.h].reg, build, s.hosts[step.h].client, step.m).1.Ok? {
      StampAgrees(build, s, step.h, step.m);
    }
  }

  /** A step hands over at most one request, and forgets none. */
  lemma StampStepHands(build: Build, s: Sys, step: Step, s': Sys, h: HostId)
    requires StampStepBy(build, s, step, s') && h in s.hosts
    ensures h in s'.hosts
    ensures Handed(s'.sent, h) == Handed(s.sent, h) + (if |s'.sent| > |s.sent| && step.SendRequest? && step.h == h then 1 else 0)
    ensures step.SendRequest? ==>
      (|s'.sent| > |s.sent| <==> RequestToWire(s.hosts[step.h].reg, build, s.hosts[step.h].client, step.m).1.Ok?)
  {
    if step.SendRequest? {
      SendHands(build, s, step.h, step.m, s', h);
    } else {
      OtherHands(build, s, step, s', h);
    }
  }

  lemma OtherHands(build: Build, s: Sys, step: Step, s': Sys, h: HostId)
    requires StepBy(build, s, step, s') && !step.SendRequest? && h in s.hosts
    ensures s'.sent == s.sent && h in s'.hosts
  {
  }

  lemma SendHands(build: Build, s: Sys, sender: HostId, m: UMessage, s': Sys, h: HostId)
    requires sender in s.hosts && s' == DoSendStamped(build, s, sender, m)
    ensures var r := RequestToWire(s.hosts[sender].reg, build, s.hosts[sender].client, m).1;
      && (|s'.sent| > |s.sent| <==> r.Ok?)
      && Handed(s'.sent, h) == Handed(s.sent, h) + (if r.Ok? && sender == h then 1 else 0)
  {
    if |s'.sent| > |s.sent| {
      HandedAppend(s.sent, s'.sent[|s.sent|], h);
    }
  }

  /** A refused request leaves no stamp, so it is a step of the recording library too. */
  lemma RefusedIsStep(build: Build, s: Sys, h: HostId, m: UMessage, s': Sys)
    requires StampStepBy(build, s, SendRequest(h, m), s')
    requires RequestToWire(s.hosts[h].reg, build, s.hosts[h].client, m).1.Err?
    ensures StepBy(build, s, SendRequest(h, m), s')
  {
  }

  /** A checked build hands over 65534 requests at most, so its next one is within the limit. */
  lemma CheckedLimit(build: Build, trace: seq<Sys>, h: HostId)
    requires Run(build, trace) && build == Checked && h in trace[|trace| - 1].hosts
    ensures Handed(trace[|trace| - 1].sent, h) < 0xFFFF
  {
    Lockstep(build, trace, h, 0);
  }

  lemma LastStepIsStep(build: Build, trace: seq<Sys>, s: Sys, s': Sys)
    requires Run(build, trace) && trace[|trace| - 1] == s && StampNext(build, s, s')
    requires build == Checked || AtMost(s', 0xFFFF)
    ensures Next(build, s, s')
  {
    var step :| StampStepBy(build, s, step, s');
    RunKeeps(build, trace);
    if step.SendRequest? {
      StampStepHands(build, s, step, s', step.h);
      if |s'.sent| == |s.sent| {
        RefusedIsStep(build, s, step.h, step.m, s');
      } else {
        if build == Checked {
          CheckedLimit(build, trace, step.h);
        }
        StampStepIsStep(build, s, step, s');
      }
    }
  }

  lemma AtMostBefore(build: Build, s: Sys, s': Sys, limit: nat)
    requires StampNext(build, s, s') && AtMost(s', limit)
    ensures AtMost(s, limit)
  {
    var step :| StampStepBy(build, s, step, s');
    forall h | h in s.hosts ensures Handed(s.sent, h) <= limit {
      StampStepHands(build, s, step, s', h);
    }
  }

  /** With at most 65535 requests per host, and always in a checked build, stamping for itself makes no difference. */
  lemma {:induction false} StampRunIsRun(build: Build, trace: seq<Sys>)
    requires StampRun(build, trace) && (build == Checked || AtMost(trace[|trace| - 1], 0xFFFF))
    ensures Run(build, trace)
    decreases |trace|
  {
    if |trace| > 1 {
      var n := |trace| - 1;
      assert StampNext(build, trace[n - 1], trace[n - 1 + 1]);
      if build == Wrapping {
        AtMostBefore(build, trace[n - 1], trace[n], 0xFFFF);
      }
      StampPrefix(build, trace);
      StampRunIsRun(build, trace[..n]);
      LastStepIsStep(build, trace[..n], trace[n - 1], trace[n]);
      RunSnoc(build, trace);
    }
  }

  lemma StampPrefix(build: Build, trace: seq<Sys>)
    requires StampRun(build, trace) && |trace| > 1
    ensures StampRun(build, trace[..|trace| - 1])
  {
  }

  lemma RunSnoc(build: Build, trace: seq<Sys>)
    requires |trace| > 1 && Run(build, trace[..|trace| - 1]) && Next(build, trace[|trace| - 2], trace[|trace| - 1])
    ensures Run(build, trace)
  {
    var n := |trace| - 1;
    forall k | 0 <= k < n ensures Next(build, trace[k], trace[k + 1]) {
      assert k < n - 1 ==> Next(build, trace[..n][k], trace[..n][k + 1]);
    }
  }

  /** So RPC safety holds. */
  lemma StampedSafety(build: Build, trace: seq<Sys>)
    requires StampRun(build, trace) && (build == Checked || AtMost(trace[|trace| - 1], 0xFFFF))
    ensures ResponsesRight(trace[|trace| - 1])
  {
    StampRunIsRun(build, trace);
    RpcSafety(build, trace);
  }

  // ----- the 65536th request -----

  const HOST: HostId := 0
  const CLIENT: u16 := 0x77
  const HERE := UUri("here", 1, 1, 0)
  const THERE := UUri("there", 2, 1, 3)
  const CONFIG := HostConfig("here", "there", 1)
  const FIRST: u32 := CreateRequestId(CLIENT, 1)

  function Message(k: nat): UMessage {
    UMessage(REQUEST, Some(k), Some(HERE), Some(THERE), None, None, None)
  }

  ghost predicate StampRunTo(trace: seq<Sys>, s: Sys) {
    StampRun(Wrapping, trace) && trace[|trace| - 1] == s
  }

  lemma Extend(trace: seq<Sys>, s: Sys, step: Step, s': Sys) returns (longer: seq<Sys>)
    requires StampRunTo(trace, s) && StampStepBy(Wrapping, s, step, s')
    ensures StampRunTo(longer, s')
  {
    longer := trace + [s'];
    forall n | 0 <= n < |longer| - 1 ensures StampNext(Wrapping, longer[n], longer[n + 1]) {
      assert n < |trace| - 1 ==> StampNext(Wrapping, trace[n], trace[n + 1]);
    }
  }

  /** One host has handed over the messages 1 to n, and nobody has answered. */
  ghost predicate Waiting(s: Sys, n: nat) {
    && s.hosts.Keys == {HOST} && s.hosts[HOST].client == CLIENT && s.hosts[HOST].cfg == CONFIG
    && s.hosts[HOST].reg.me == map[] && CurrentSession(s.hosts[HOST].reg, CLIENT) == Counter(Wrapping, n)
    && |s.sent| == n && (forall g :: 0 <= g < n ==> s.sent[g].host == HOST && s.sent[g].msg == Message(g + 1))
    && Handed(s.sent, HOST) == n
    && s.received == map[] && s.replies == map[] && s.delivered == []
  }

  /** The client entries: one for each session id handed out so far, the first one for the first message. */
  ghost predicate EntriesUpTo(ue: map<u32, (Uid, UUri)>, n: nat) {
    && (forall k: u16 :: CreateRequestId(CLIENT, k) in ue ==> 1 <= k <= n)
    && (n >= 1 ==> FIRST in ue && ue[FIRST] == (1, HERE))
  }

  lemma NextIsFree(ue: map<u32, (Uid, UUri)>, n: nat, session: u16)
    requires EntriesUpTo(ue, n) && n <= 0xFFFF && session == (n + 1) % 0x1_0000
    ensures CreateRequestId(CLIENT, session) !in ue
  {
  }

  lemma EntriesGrow(ue: map<u32, (Uid, UUri)>, n: nat)
    requires EntriesUpTo(ue, n) && n < 0xFFFF
    ensures EntriesUpTo(ue[CreateRequestId(CLIENT, n + 1) := (n + 1, HERE)], n + 1)
  {
    forall k: u16 | CreateRequestId(CLIENT, k) in ue[CreateRequestId(CLIENT, n + 1) := (n + 1, HERE)]
      ensures 1 <= k <= n + 1
    {
      PackSplitInverse(CLIENT, k, 0);
      PackSplitInverse(CLIENT, n + 1, 0);
    }
    PackSplitInverse(CLIENT, 1, 0);
    PackSplitInverse(CLIENT, n + 1, 0);
  }

  /** One more request. */
  lemma SendsNext(trace: seq<Sys>, s: Sys, n: nat) returns (longer: seq<Sys>, s': Sys)
    requires StampRunTo(trace, s) && n <= 0xFFFF && Waiting(s, n) && EntriesUpTo(s.hosts[HOST].reg.ue, n)
    ensures StampRunTo(longer, s') && Waiting(s', n + 1)
    ensures s'.hosts[HOST].reg.ue
      == s.hosts[HOST].reg.ue[CreateRequestId(CLIENT, (n + 1) % 0x1_0000) := (n + 1, HERE)]
    ensures Requesting(Addressed(MT_REQUEST, THERE, Stamp(s, HOST), E_OK, []), n) in s'.net
  {
    s' := DoSendStamped(Wrapping, s, HOST, Message(n + 1));
    longer := Extend(trace, s, SendRequest(HOST, Message(n + 1)), s');
    SendsNextState(s, n, (n + 1) % 0x1_0000, s');
  }

  lemma SendsNextState(s: Sys, n: nat, session: u16, s': Sys)
    requires n <= 0xFFFF && Waiting(s, n) && EntriesUpTo(s.hosts[HOST].reg.ue, n) && session == (n + 1) % 0x1_0000
    requires s' == DoSendStamped(Wrapping, s, HOST, Message(n + 1))
    ensures Waiting(s', n + 1)
    ensures s'.hosts[HOST].reg.ue == s.hosts[HOST].reg.ue[CreateRequestId(CLIENT, session) := (n + 1, HERE)]
    ensures Requesting(Addressed(MT_REQUEST, THERE, Stamp(s, HOST), E_OK, []), n) in s'.net
  {
    NextIsFree(s.hosts[HOST].reg.ue, n, session);
    NextWire(s.hosts[HOST].reg, n, session);
    var reg := RequestToWire(s.hosts[HOST].reg, Wrapping, CLIENT, Message(n + 1)).0;
    StillWaiting(s, n, reg, s'.sent[n], s');
  }

  lemma StillWaiting(s: Sys, n: nat, reg: Registry, q: Sent, s': Sys)
    requires Waiting(s, n) && s'.hosts == SetReg(s, HOST, reg) && s'.sent == s.sent + [q]
    requires q.host == HOST && q.msg == Message(n + 1)
    requires reg.me == map[] && CurrentSession(reg, CLIENT) == Counter(Wrapping, n + 1)
    requires s'.received == s.received && s'.replies == s.replies && s'.delivered == s.delivered
    ensures Waiting(s', n + 1)
  {
    HandedAppend(s.sent, q, HOST);
  }

  lemma NextWire(reg: Registry, n: nat, session: u16)
    requires CurrentSession(reg, CLIENT) == Counter(Wrapping, n) == session && session == (n + 1) % 0x1_0000
    requires CreateRequestId(CLIENT, session) !in reg.ue
    ensures var (reg', r) := RequestToWire(reg, Wrapping, CLIENT, Message(n + 1));
      && CurrentSession(reg', CLIENT) == Counter(Wrapping, n + 1) && reg'.me == reg.me
      && reg'.ue == reg.ue[CreateRequestId(CLIENT, session) := (n + 1, HERE)]
      && r == Ok(Addressed(MT_REQUEST, THERE, CreateRequestId(CLIENT, session), E_OK, []))
  {
  }

  lemma {:induction false} SendsMany(n: nat) returns (trace: seq<Sys>, s: Sys)
    requires n <= 0xFFFF
    ensures StampRunTo(trace, s) && Waiting(s, n) && EntriesUpTo(s.hosts[HOST].reg.ue, n)
    decreases n
  {
    if n == 0 {
      s := INIT.(hosts := map[HOST := Host(CLIENT, CONFIG, EMPTY_REGISTRY)], retrieved := map[HOST := 0]);
      trace := Extend([INIT], INIT, AddHost(HOST, CLIENT, CONFIG), s);
    } else {
      var t0, s0 := SendsMany(n - 1);
      EntriesGrow(s0.hosts[HOST].reg.ue, n - 1);
      trace, s := SendsNext(t0, s0, n - 1);
    }
  }

  const REPLY := UMessage(RESPONSE, Some(98), Some(THERE), Some(HERE), Some(99), None, None)

  /** The service gets the request under the first request id, and answers it. */
  lemma Answers(trace: seq<Sys>, s: Sys, n: nat, w: Wire) returns (longer: seq<Sys>, s': Sys, w': Wire)
    requires n > 0 && StampRunTo(trace, s) && Waiting(s, n) && Requesting(w, n - 1) in s.net && w.request == FIRST
    ensures StampRunTo(longer, s') && s'.hosts.Keys == {HOST} && s'.hosts[HOST].reg.ue == s.hosts[HOST].reg.ue
    ensures s'.sent == s.sent && s'.delivered == [] && Responding(w', n - 1, 99) in s'.net && w'.request == FIRST
  {
    var b := Builder(true, true, 99);
    var s1 := DoDeliverRequest(s, HOST, Requesting(w, n - 1), b);
    longer := Extend(trace, s, DeliverRequest(HOST, Requesting(w, n - 1), b), s1);
    s' := DoSendResponse(s1, HOST, REPLY);
    longer := Extend(longer, s1, SendResponse(HOST, REPLY), s');
    PackSplitInverse(0, 0, FIRST);
    w' := ResponseToWire(s1.hosts[HOST].reg, REPLY).1.value;
  }

  /** A response under the first request id is taken for the answer to the first request. */
  lemma Mistaken(trace: seq<Sys>, s: Sys, w: Wire, tag: nat) returns (longer: seq<Sys>, s': Sys)
    requires StampRunTo(trace, s) && HOST in s.hosts && FIRST in s.hosts[HOST].reg.ue
    requires s.hosts[HOST].reg.ue[FIRST] == (1, HERE) && s.delivered == []
    requires Responding(w, tag, 99) in s.net && w.request == FIRST
    ensures StampRunTo(longer, s') && s'.sent == s.sent && s'.hosts.Keys == s.hosts.Keys
    ensures |s'.delivered| == 1 && s'.delivered[0].tag == tag && s'.delivered[0].msg.reqid == Some(1)
  {
    var b := Builder(true, true, 100);
    s' := DoDeliverResponse(s, HOST, Responding(w, tag, 99), b);
    longer := Extend(trace, s, DeliverResponse(HOST, Responding(w, tag, 99), b), s');
  }

  /**
   * The 65536th request of a wrapping build is recorded under session id 0 and stamped with session
   * id 1, so its response goes out as the answer to the first request.
   */
  lemma WrapBreaksSafety() returns (trace: seq<Sys>)
    ensures StampRun(Wrapping, trace) && AtMost(trace[|trace| - 1], 0x1_0000) && !ResponsesRight(trace[|trace| - 1])
  {
    var s;
    trace, s := SendsMany(0xFFFF);
    var full;
    trace, full := SendsNext(trace, s, 0xFFFF);
    PackSplitInverse(CLIENT, 0, 0);
    PackSplitInverse(CLIENT, 1, 0);
    assert Stamp(s, HOST) == FIRST;
    var w := Addressed(MT_REQUEST, THERE, FIRST, E_OK, []);
    var w', last;
    trace, last, w' := Answers(trace, full, 0x1_0000, w);
    trace, s := Mistaken(trace, last, w', 0xFFFF);
    assert !ResponseRight(s, s.delivered[0]);
  }

  /** Exactly how many requests a host may hand to such a library: safety holds in every run up to 65535, not beyond. */
  lemma SafeUpTo(limit: nat)
    ensures (forall trace :: StampRun(Wrapping, trace) && AtMost(trace[|trace| - 1], limit) ==> ResponsesRight(trace[|trace| - 1]))
       <==> limit <= 0xFFFF
  {
    if limit <= 0xFFFF {
      forall trace | StampRun(Wrapping, trace) && AtMost(trace[|trace| - 1], limit) ensures ResponsesRight(trace[|trace| - 1]) {
        StampedSafety(Wrapping, trace);
      }
    } else {
      var trace := WrapBreaksSafety();
      assert AtMost(trace[|trace| - 1], limit);
    }
  }
}
