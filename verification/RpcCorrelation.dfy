/** The request/response correlation registry of rpc_correlation.rs. */
module RpcCorrelation {
  import opened Wrappers
  import opened Uris
  import opened StatusCodes

  /** A uProtocol message id. */
  type Uid = int

  datatype Registry = Registry(ue: map<u32, (Uid, UUri)>, me: map<Uid, u32>, sessions: map<u16, u16>)

  const EMPTY_REGISTRY := Registry(map[], map[], map[])

  /** Whether integer overflow panics (the default of debug builds) or wraps. */
  datatype Build = Checked | Wrapping

  function CurrentSession(r: Registry, client: u16): u16 {
    if client in r.sessions then r.sessions[client] else 1
  }

  /** The counter is incremented before its old value is returned; None is the overflow panic. */
  function Retrieve(r: Registry, build: Build, client: u16): (Registry, Option<u16>) {
    var k := CurrentSession(r, client);
    if k == 0xFFFF && build == Checked then (r, None)
    else (r.(sessions := r.sessions[client := (k + 1) % 0x1_0000]), Some(k))
  }

  /** Answers to a sequence of retrieve_session_id calls, each naming a client id. */
  function After(build: Build, calls: seq<u16>): Registry {
    if calls == [] then EMPTY_REGISTRY
    else Retrieve(After(build, calls[..|calls| - 1]), build, calls[|calls| - 1]).0
  }

  function Count(calls: seq<u16>, client: u16): nat {
    if calls == [] then 0
    else Count(calls[..|calls| - 1], client) + (if calls[|calls| - 1] == client then 1 else 0)
  }

  function SessionAt(build: Build, calls: seq<u16>, n: nat): Option<u16>
    requires n < |calls|
  {
    Retrieve(After(build, calls[..n]), build, calls[n]).1
  }

  /** The k-th value of the counter. */
  function Counter(build: Build, k: nat): u16 {
    if build == Wrapping then (k + 1) % 0x1_0000 else if k < 0xFFFE then k + 1 else 0xFFFF
  }

  /** After `k` calls for a session id the counter has not overflowed in a build that checks for it. */
  predicate Lasts(build: Build, k: nat) {
    build == Wrapping || k < 0xFFFF
  }

  lemma RetrieveCounts(r: Registry, build: Build, caller: u16, client: u16, k: nat)
    requires CurrentSession(r, client) == Counter(build, k)
    ensures CurrentSession(Retrieve(r, build, caller).0, client) == Counter(build, if caller == client then k + 1 else k)
  {
  }

  lemma {:induction false} CounterCounts(build: Build, calls: seq<u16>, client: u16)
    ensures CurrentSession(After(build, calls), client) == Counter(build, Count(calls, client))
  {
    if calls != [] {
      var before := calls[..|calls| - 1];
      CounterCounts(build, before, client);
      RetrieveCounts(After(build, before), build, calls[|calls| - 1], client, Count(before, client));
    }
  }

  /**
   * The k-th session id of a client, whatever the other clients do in between: k mod 2^16 when
   * overflow wraps; when it is checked, k up to 65534 and a panic from call 65535 on.
   */
  lemma SessionIds(build: Build, calls: seq<u16>, n: nat)
    requires n < |calls|
    ensures var k := Count(calls[..n + 1], calls[n]);
      SessionAt(build, calls, n) ==
        if build == Wrapping then Some(k % 0x1_0000) else if k <= 0xFFFE then Some(k) else None
  {
    assert calls[..n + 1][..n] == calls[..n];
    CounterCounts(build, calls[..n], calls[n]);
  }

  lemma {:induction false} CountGrows(calls: seq<u16>, m: nat, n: nat, client: u16)
    requires m <= n <= |calls|
    ensures Count(calls[..m], client) <= Count(calls[..n], client)
    decreases n
  {
    if m < n {
      assert calls[..n][..n - 1] == calls[..n - 1];
      CountGrows(calls, m, n - 1, client);
    }
  }

  /** Request ids are pairwise distinct, over all clients, as long as no counter has wrapped. */
  lemma RequestIdsDistinct(build: Build, calls: seq<u16>, m: nat, n: nat)
    requires m < n < |calls|
    requires Count(calls[..n + 1], calls[n]) <= 0xFFFE && Count(calls[..m + 1], calls[m]) <= 0xFFFE
    ensures SessionAt(build, calls, m).Some? && SessionAt(build, calls, n).Some?
    ensures CreateRequestId(calls[m], SessionAt(build, calls, m).value)
         != CreateRequestId(calls[n], SessionAt(build, calls, n).value)
  {
    SessionIds(build, calls, m);
    SessionIds(build, calls, n);
    var a, b := SessionAt(build, calls, m).value, SessionAt(build, calls, n).value;
    PackSplitInverse(calls[m], a, 0);
    PackSplitInverse(calls[n], b, 0);
    if calls[m] == calls[n] {
      assert calls[..n + 1][..n] == calls[..n];
      CountGrows(calls, m + 1, n, calls[n]);
    }
  }

  /** The k-th session id of the SOME/IP standard, which wraps from 0xFFFF to 1. */
  function StandardSession(k: nat): u16
    requires k > 0
  {
    (k - 1) % 0xFFFF + 1
  }

  /** Exactly when the wrapping counter still hands out the session id of the standard. */
  lemma WrappingMeetsStandard(k: nat)
    requires k > 0
    ensures k % 0x1_0000 == StandardSession(k) <==> k % 0x1_0000 != 0 && (k / 0x1_0000) % 0xFFFF == 0
    ensures k <= 0xFFFF ==> k % 0x1_0000 == StandardSession(k)
    ensures k == 0x1_0000 ==> k % 0x1_0000 != StandardSession(k)
  {
    var q, r := k / 0x1_0000, k % 0x1_0000;
    assert k - 1 == 0xFFFF * q + (q + r - 1);
    ModShift(q, q + r - 1);
    if r != 0 && (q + r - 1) % 0xFFFF == r - 1 {
      ModDifference(q + r - 1, r - 1);
    }
    if r != 0 && q % 0xFFFF == 0 {
      var p := q / 0xFFFF;
      assert q + r - 1 == 0xFFFF * p + (r - 1);
      ModShift(p, r - 1);
    }
  }

  lemma ModShift(q: nat, x: int)
    requires 0 <= x
    ensures (0xFFFF * q + x) % 0xFFFF == x % 0xFFFF
  {
  }

  lemma ModDifference(x: nat, y: nat)
    requires y <= x && y < 0xFFFF && x % 0xFFFF == y
    ensures (x - y) % 0xFFFF == 0
  {
  }

  class RpcCorrelationRegistry {
    var ue: map<u32, (Uid, UUri)>
    var me: map<Uid, u32>
    var sessions: map<u16, u16>
    const build: Build

    constructor (build: Build)
      ensures View() == EMPTY_REGISTRY && this.build == build
    {
      ue, me, sessions := map[], map[], map[];
      this.build := build;
    }

    function View(): Registry
      reads this
    {
      Registry(ue, me, sessions)
    }

    method RetrieveSessionId(client: u16) returns (session: Option<u16>)
      modifies this`sessions
      ensures (View(), session) == Retrieve(old(View()), build, client)
    {
      if client !in sessions {
        sessions := sessions[client := 1];
      }
      var returned: int := sessions[client];
      if returned == 0xFFFF && build == Checked {
        return None;
      }
      sessions := sessions[client := (returned + 1) % 0x1_0000];
      assert sessions == old(sessions)[client := (returned + 1) % 0x1_0000];
      return Some(returned);
    }

    method InsertUeRequestCorrelation(request: u32, id: Uid, source: UUri) returns (r: Result<(), UCode>)
      modifies this`ue
      ensures r.Ok? <==> request !in old(ue)
      ensures ue == if r.Ok? then old(ue)[request := (id, source)] else old(ue)
      ensures r.Err? ==> r.error == ALREADY_EXISTS
    {
      if request in ue {
        return Err(ALREADY_EXISTS);
      }
      ue := ue[request := (id, source)];
      return Ok(());
    }

    method RemoveUeRequestCorrelation(request: u32) returns (r: Result<(Uid, UUri), UCode>)
      modifies this`ue
      ensures ue == old(ue) - {request}
      ensures r == if request in old(ue) then Ok(old(ue)[request]) else Err(NOT_FOUND)
    {
      if request !in ue {
        return Err(NOT_FOUND);
      }
      r := Ok(ue[request]);
      ue := ue - {request};
    }

    method InsertMeRequestCorrelation(id: Uid, request: u32) returns (r: Result<(), UCode>)
      modifies this`me
      ensures r.Ok? <==> id !in old(me)
      ensures me == if r.Ok? then old(me)[id := request] else old(me)
      ensures r.Err? ==> r.error == ALREADY_EXISTS
    {
      if id in me {
        return Err(ALREADY_EXISTS);
      }
      me := me[id := request];
      return Ok(());
    }

    method RemoveMeRequestCorrelation(id: Uid) returns (r: Result<u32, UCode>)
      modifies this`me
      ensures me == old(me) - {id}
      ensures r == if id in old(me) then Ok(old(me)[id]) else Err(NOT_FOUND)
    {
      if id !in me {
        return Err(NOT_FOUND);
      }
      r := Ok(me[id]);
      me := me - {id};
    }
  }
}
