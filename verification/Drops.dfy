/**
 * What the Drop of a transport gives back, in whole runs with other transports working meanwhile:
 * everything if and only if its engine is running or nothing is stored. Otherwise its ids stay
 * mapped to a dead transport for good.
 */
module Drops {
  import opened Wrappers
  import opened StatusCodes
  import opened Allocator
  import opened RpcCorrelation
  import opened Transports
  import opened Worlds

  predicate Own(step: Step, t: TransportId) {
    step.DropOne? && step.t == t
  }

  predicate Ends(step: Step, t: TransportId) {
    step == EndDrop(t) || step == AbortDrop(t)
  }

  /** Only its own Drop touches a transport that is being dropped. */
  lemma LeftAlone(build: Build, w: World, step: Step, w': World, t: TransportId)
    requires Inv(w) && StepBy(build, w, step, w') && Dropping(w, t) && !Own(step, t) && !Ends(step, t)
    ensures Dropping(w', t) && w'.mem.bimaps[t] == w.mem.bimaps[t] && w'.lives[t] == w.lives[t]
  {
    if step.DropOne? {
      DropHead(w, step.t);
    }
  }

  /** From `m` to `m'` the id `i` moves from `t` to the free set, and `t` keeps everything else. */
  ghost predicate Freed(m: Mem, t: TransportId, i: HandlerId, m': Mem) {
    && t in m.bimaps && t in m'.bimaps && i in m.bimaps[t].byId && i !in m.free
    && m'.bimaps[t].byId == m.bimaps[t].byId - {i}
    && m'.free == m.free + {i} && m'.owners == m.owners - {i}
  }

  /** One step of a Drop frees exactly the id of the next config, whatever the engine answers. */
  lemma DropOneFrees(build: Build, w: World, t: TransportId, outcome: EngineOutcome, r: Result<(), UCode>, w': World)
    returns (i: HandlerId)
    requires Inv(w) && StepBy(build, w, DropOne(t, outcome, r), w')
    ensures Dropping(w', t) && w'.lives[t].taken == w.lives[t].taken && Runs(build, w, t)
    ensures r == Ok(()) && Freed(w.mem, t, i, w'.mem)
  {
    DropHead(w, t);
    i := w.mem.bimaps[t].byConfig[w.lives[t].dropping.value[0]];
    assert i in w.mem.bimaps[t].byId && i in w.mem.owners;
  }

  /** Steps `a` to `b` are one Drop of `t`, with steps of other transports in between. */
  ghost predicate DropSpan(build: Build, trace: seq<World>, steps: seq<Step>, a: nat, b: nat, t: TransportId) {
    && Run(build, trace, steps) && a < b < |steps|
    && steps[a].BeginDrop? && steps[a].t == t && Ends(steps[b], t)
    && forall n :: a < n < b ==> !Ends(steps[n], t)
  }

  ghost predicate DropLink(m: Mem, own: bool, t: TransportId, m': Mem) {
    && t in m.bimaps && t in m'.bimaps
    && if own then exists i :: Freed(m, t, i, m') else m'.bimaps[t] == m.bimaps[t]
  }

  /** A step of the span, and what it does to the transport whose engine is running or not. */
  ghost predicate DropSteps(build: Build, w: World, own: bool, t: TransportId, w': World) {
    && Dropping(w, t) && Dropping(w', t) && DropLink(w.mem, own, t, w'.mem)
    && w'.lives[t].taken == w.lives[t].taken
    && (own ==> Runs(build, w, t)) && (!own ==> w'.lives[t] == w.lives[t])
  }

  lemma StepLinks(build: Build, w: World, step: Step, w': World, t: TransportId)
    requires Inv(w) && StepBy(build, w, step, w') && Dropping(w, t) && !Ends(step, t)
    ensures DropSteps(build, w, Own(step, t), t, w')
  {
    if Own(step, t) {
      var i := DropOneFrees(build, w, t, step.outcome, step.result, w');
    } else {
      LeftAlone(build, w, step, w', t);
    }
  }

  /** The engine of a transport that is being dropped keeps its state; a stopped one lets nothing happen. */
  lemma {:induction false} StillDropping(build: Build, trace: seq<World>, steps: seq<Step>, a: nat, n: nat, b: nat, t: TransportId)
    requires DropSpan(build, trace, steps, a, b, t) && a < n <= b
    ensures Inv(trace[n]) && Dropping(trace[n], t) && Alive(trace[a], t)
    ensures Runs(build, trace[n], t) <==> Runs(build, trace[a], t)
    ensures !Runs(build, trace[a], t) ==>
      trace[n].mem.bimaps[t] == trace[a].mem.bimaps[t] && trace[n].lives[t].dropping == Some(steps[a].all)
    decreases n
  {
    RunKeeps(build, trace, steps, n);
    if n == a + 1 {
      assert StepBy(build, trace[a], steps[a], trace[n]);
    } else {
      StillDropping(build, trace, steps, a, n - 1, b, t);
      StepLinks(build, trace[n - 1], steps[n - 1], trace[n], t);
    }
  }

  /** What the two ends of a Drop do. */
  lemma DropEnds(build: Build, trace: seq<World>, steps: seq<Step>, a: nat, b: nat, t: TransportId)
    requires DropSpan(build, trace, steps, a, b, t)
    ensures Alive(trace[a], t) && Dropping(trace[a + 1], t) && trace[a + 1].mem == trace[a].mem
    ensures Enumerates(steps[a].all, trace[a].mem.bimaps[t])
    ensures Dropping(trace[b], t) && trace[b + 1] == Gone(trace[b], t) && Inv(trace[b]) && Inv(trace[b + 1])
    ensures steps[b].EndDrop? ==> trace[b].lives[t].dropping.value == []
    ensures steps[b].AbortDrop? ==> trace[b].lives[t].dropping.value != [] && !Runs(build, trace[b], t)
  {
    assert StepBy(build, trace[a], steps[a], trace[a + 1]);
    StillDropping(build, trace, steps, a, b, b, t);
    assert StepBy(build, trace[b], steps[b], trace[b + 1]);
    RunKeeps(build, trace, steps, b + 1);
  }

  lemma NothingStored(all: seq<ListenerConfig>, b: BiMap)
    requires Enumerates(all, b)
    ensures all == [] <==> b == EMPTY_BIMAP
  {
    if all == [] {
      assert b.byConfig.Keys == {};
      NoConfigs(b);
    } else {
      assert all[0] in b.byConfig;
    }
  }

  /**
   * The exact condition: a Drop runs to its end if and only if the engine is running or nothing is
   * stored. Otherwise it stops at its first config with every id still mapped to the transport,
   * which is then dead.
   */
  lemma DropOutcome(build: Build, trace: seq<World>, steps: seq<Step>, a: nat, b: nat, t: TransportId)
    requires DropSpan(build, trace, steps, a, b, t)
    ensures Alive(trace[a], t)
    ensures steps[b] == EndDrop(t) <==> Runs(build, trace[a], t) || trace[a].mem.bimaps[t] == EMPTY_BIMAP
    ensures steps[b] == AbortDrop(t) ==>
      && t in trace[b + 1].mem.dead && trace[a].mem.bimaps[t].byId != map[]
      && forall i :: i in trace[a].mem.bimaps[t].byId ==> i in trace[b + 1].mem.owners && trace[b + 1].mem.owners[i] == t
  {
    DropEnds(build, trace, steps, a, b, t);
    StillDropping(build, trace, steps, a, b, b, t);
    NothingStored(steps[a].all, trace[a].mem.bimaps[t]);
    if steps[b] == AbortDrop(t) {
      StillOwned(trace[b].mem, t, steps[a].all);
    }
  }

  lemma StillOwned(m: Mem, t: TransportId, all: seq<ListenerConfig>)
    requires LockSteps.Split(m) && t in m.bimaps && Enumerates(all, m.bimaps[t]) && all != []
    ensures m.bimaps[t].byId != map[]
    ensures forall i :: i in m.bimaps[t].byId ==> i in m.owners && m.owners[i] == t
  {
    assert all[0] in m.bimaps[t].byConfig;
  }

  /** The links of a Drop from state `a` to state `b`. */
  ghost predicate DropChain(mems: seq<Mem>, own: seq<bool>, a: nat, b: nat, t: TransportId) {
    && a <= b < |mems| && b <= |own| && t in mems[b].bimaps && mems[b].bimaps[t] == EMPTY_BIMAP
    && forall n :: a <= n < b ==> DropLink(mems[n], own[n], t, mems[n + 1])
  }

  function Mems(trace: seq<World>): seq<Mem> {
    seq(|trace|, n requires 0 <= n < |trace| => trace[n].mem)
  }

  function Owns(steps: seq<Step>, t: TransportId): seq<bool> {
    seq(|steps|, n requires 0 <= n < |steps| => Own(steps[n], t))
  }

  /** A Drop that runs to its end. */
  ghost predicate FullDrop(build: Build, trace: seq<World>, steps: seq<Step>, a: nat, b: nat, t: TransportId) {
    && DropSpan(build, trace, steps, a, b, t)
    && Alive(trace[a], t) && (Runs(build, trace[a], t) || trace[a].mem.bimaps[t] == EMPTY_BIMAP)
  }

  lemma FullDropEmpties(build: Build, trace: seq<World>, steps: seq<Step>, a: nat, b: nat, t: TransportId)
    requires FullDrop(build, trace, steps, a, b, t)
    ensures trace[a + 1].mem == trace[a].mem
    ensures t in trace[b].mem.bimaps && trace[b].mem.bimaps[t] == EMPTY_BIMAP
    ensures trace[b + 1] == Gone(trace[b], t) && LockSteps.Split(trace[b].mem)
  {
    DropEnds(build, trace, steps, a, b, t);
    DropOutcome(build, trace, steps, a, b, t);
    assert LifeOk(trace[b].mem.bimaps[t], trace[b].lives[t]);
    NothingStored([], trace[b].mem.bimaps[t]);
  }

  lemma SpanIsChain(build: Build, trace: seq<World>, steps: seq<Step>, a: nat, b: nat, t: TransportId)
    requires FullDrop(build, trace, steps, a, b, t)
    ensures DropChain(Mems(trace), Owns(steps, t), a + 1, b, t)
    ensures Mems(trace)[a + 1] == trace[a].mem
  {
    FullDropEmpties(build, trace, steps, a, b, t);
    forall n | a < n < b ensures DropLink(trace[n].mem, Own(steps[n], t), t, trace[n + 1].mem) {
      StillDropping(build, trace, steps, a, n, b, t);
      StepLinks(build, trace[n], steps[n], trace[n + 1], t);
    }
  }

  /** An id held at some point of the chain is handed back by a later link. */
  lemma {:induction false} FreedLater(mems: seq<Mem>, own: seq<bool>, a: nat, b: nat, t: TransportId, i: HandlerId)
    returns (k: nat)
    requires DropChain(mems, own, a, b, t) && t in mems[a].bimaps && i in mems[a].bimaps[t].byId
    ensures a <= k < b && own[k] && Freed(mems[k], t, i, mems[k + 1])
    decreases b - a
  {
    assert a != b;
    assert DropLink(mems[a], own[a], t, mems[a + 1]);
    if own[a] && Freed(mems[a], t, i, mems[a + 1]) {
      k := a;
    } else {
      k := FreedLater(mems, own, a + 1, b, t, i);
    }
  }

  /** How many of the entries `a` to `b` are true. */
  function Count(own: seq<bool>, a: nat, b: nat): nat
    requires a <= b <= |own|
    decreases b - a
  {
    if a == b then 0 else (if own[a] then 1 else 0) + Count(own, a + 1, b)
  }

  lemma {:induction false} ChainCounts(mems: seq<Mem>, own: seq<bool>, a: nat, b: nat, t: TransportId)
    requires DropChain(mems, own, a, b, t) && t in mems[a].bimaps
    ensures Count(own, a, b) == |mems[a].bimaps[t].byId|
    decreases b - a
  {
    if a < b {
      assert DropLink(mems[a], own[a], t, mems[a + 1]);
      ChainCounts(mems, own, a + 1, b, t);
      if own[a] {
        var i :| Freed(mems[a], t, i, mems[a + 1]);
        assert mems[a].bimaps[t].byId.Keys == mems[a + 1].bimaps[t].byId.Keys + {i};
      }
    }
  }

  /** Nobody holds an id that `t` owns, and `t` owns none. */
  lemma EmptyOwnsNothing(m: Mem, t: TransportId)
    requires LockSteps.Split(m) && t in m.bimaps && m.bimaps[t] == EMPTY_BIMAP
    ensures t !in m.owners.Values
  {
    forall i | i in m.owners ensures m.owners[i] != t {
      assert i in m.bimaps[m.owners[i]].byId;
    }
  }

  lemma DropCounts(build: Build, trace: seq<World>, steps: seq<Step>, a: nat, b: nat, t: TransportId)
    requires FullDrop(build, trace, steps, a, b, t)
    ensures Count(Owns(steps, t), a + 1, b) == |trace[a].mem.bimaps[t].byId|
  {
    SpanIsChain(build, trace, steps, a, b, t);
    ChainCounts(Mems(trace), Owns(steps, t), a + 1, b, t);
  }

  /**
   * Lifecycle conservation. Whatever came before, whatever the running engine answers and whatever
   * other transports do meanwhile, a Drop takes exactly one release step for each id the transport
   * held; at its end the bimap is empty and no entry of the owner map names the transport.
   */
  lemma DropConserves(build: Build, trace: seq<World>, steps: seq<Step>, a: nat, b: nat, t: TransportId)
    requires FullDrop(build, trace, steps, a, b, t)
    ensures Count(Owns(steps, t), a + 1, b) == |trace[a].mem.bimaps[t].byId|
    ensures var m := trace[b + 1].mem;
      t in m.bimaps && m.bimaps[t] == EMPTY_BIMAP && t in m.dead && t !in m.owners.Values
  {
    DropCounts(build, trace, steps, a, b, t);
    FullDropEmpties(build, trace, steps, a, b, t);
    EmptyOwnsNothing(trace[b].mem, t);
  }

  /** And each of those ids is handed back by one of those steps. */
  lemma DropReturnsEach(build: Build, trace: seq<World>, steps: seq<Step>, a: nat, b: nat, t: TransportId, i: HandlerId)
    returns (k: nat)
    requires FullDrop(build, trace, steps, a, b, t) && i in trace[a].mem.bimaps[t].byId
    ensures a < k < b && Own(steps[k], t) && Freed(trace[k].mem, t, i, trace[k + 1].mem)
  {
    SpanIsChain(build, trace, steps, a, b, t);
    k := FreedLater(Mems(trace), Owns(steps, t), a + 1, b, t, i);
  }

  lemma {:induction false} ChainFrees(mems: seq<Mem>, own: seq<bool>, a: nat, b: nat, t: TransportId)
    requires DropChain(mems, own, a, b, t) && t in mems[a].bimaps
    requires forall k :: a <= k < b ==> own[k]
    ensures AllFreed(mems[a], t, mems[b])
    decreases b - a
  {
    if a < b {
      assert DropLink(mems[a], own[a], t, mems[a + 1]);
      ChainFrees(mems, own, a + 1, b, t);
      var i :| Freed(mems[a], t, i, mems[a + 1]);
      OneMoreFreed(mems[a], t, i, mems[a + 1], mems[b]);
    }
  }

  ghost predicate AllFreed(m: Mem, t: TransportId, m': Mem)
    requires t in m.bimaps
  {
    m'.free == m.free + m.bimaps[t].byId.Keys && m'.owners == m.owners - m.bimaps[t].byId.Keys
  }

  lemma OneMoreFreed(m: Mem, t: TransportId, i: HandlerId, m1: Mem, m2: Mem)
    requires Freed(m, t, i, m1) && AllFreed(m1, t, m2)
    ensures AllFreed(m, t, m2)
  {
    assert m.bimaps[t].byId.Keys == m1.bimaps[t].byId.Keys + {i};
  }

  /** Alone, a Drop adds exactly the ids of its transport to the free set and removes exactly them from the owner map. */
  lemma DropAlone(build: Build, trace: seq<World>, steps: seq<Step>, a: nat, b: nat, t: TransportId)
    requires FullDrop(build, trace, steps, a, b, t)
    requires forall k :: a < k < b ==> Own(steps[k], t)
    ensures trace[b + 1].mem.free == trace[a].mem.free + trace[a].mem.bimaps[t].byId.Keys
    ensures trace[b + 1].mem.owners == trace[a].mem.owners - trace[a].mem.bimaps[t].byId.Keys
  {
    FullDropEmpties(build, trace, steps, a, b, t);
    SpanIsChain(build, trace, steps, a, b, t);
    ChainFrees(Mems(trace), Owns(steps, t), a + 1, b, t);
  }

  // ----- dead owners -----

  /** The id is mapped to a transport that is dead: nobody will release it. */
  ghost predicate Leaked(m: Mem, i: HandlerId) {
    i in m.owners && m.owners[i] in m.dead
  }

  /** No step touches what a dead transport has left behind. */
  lemma DeadStay(build: Build, w: World, step: Step, w': World, t: TransportId)
    requires Inv(w) && StepBy(build, w, step, w') && t in w.mem.dead
    ensures t in w'.mem.dead && t in w'.mem.bimaps && w'.mem.bimaps[t] == w.mem.bimaps[t]
  {
    if step.DropOne? {
      DropHead(w, step.t);
    }
  }

  lemma LeakStays(build: Build, w: World, step: Step, w': World, i: HandlerId)
    requires Inv(w) && Inv(w') && StepBy(build, w, step, w') && Leaked(w.mem, i)
    ensures Leaked(w'.mem, i) && w'.mem.owners[i] == w.mem.owners[i] && i !in w'.mem.free
  {
    var t := w.mem.owners[i];
    assert i in w.mem.bimaps[t].byId;
    DeadStay(build, w, step, w', t);
    assert i in w'.mem.bimaps[t].byId;
  }

  /** A leaked id never comes back, whatever happens later. */
  lemma {:induction false} LeakedForever(build: Build, trace: seq<World>, steps: seq<Step>, m: nat, n: nat, i: HandlerId)
    requires Run(build, trace, steps) && m <= n < |trace| && Leaked(trace[m].mem, i)
    ensures Leaked(trace[n].mem, i) && i !in trace[n].mem.free
    decreases n
  {
    RunKeeps(build, trace, steps, n);
    if m < n {
      LeakedForever(build, trace, steps, m, n - 1, i);
      LeakStaysAt(build, trace, steps, n - 1, i);
    }
  }

  lemma LeakStaysAt(build: Build, trace: seq<World>, steps: seq<Step>, n: nat, i: HandlerId)
    requires Run(build, trace, steps) && n < |steps| && Leaked(trace[n].mem, i)
    ensures Leaked(trace[n + 1].mem, i)
  {
    RunKeeps(build, trace, steps, n);
    RunKeeps(build, trace, steps, n + 1);
    LeakStays(build, trace[n], steps[n], trace[n + 1], i);
  }

  ghost predicate NoneLeft(m: Mem) {
    forall t :: t in m.dead && t in m.bimaps ==> m.bimaps[t] == EMPTY_BIMAP
  }

  lemma EndLeavesNone(build: Build, w: World, step: Step, w': World)
    requires Inv(w) && StepBy(build, w, step, w') && NoneLeft(w.mem) && !step.AbortDrop?
    ensures NoneLeft(w'.mem)
  {
    forall t | t in w'.mem.dead && t in w'.mem.bimaps ensures w'.mem.bimaps[t] == EMPTY_BIMAP {
      if t in w.mem.dead {
        DeadStay(build, w, step, w', t);
      } else {
        NewlyDead(build, w, step, w', t);
        assert LifeOk(w.mem.bimaps[t], w.lives[t]);
        NothingStored([], w.mem.bimaps[t]);
      }
    }
  }

  lemma NewlyDead(build: Build, w: World, step: Step, w': World, t: TransportId)
    requires Inv(w) && StepBy(build, w, step, w') && !step.AbortDrop? && t in w'.mem.dead && t !in w.mem.dead
    ensures step == EndDrop(t) && Dropping(w, t) && w.lives[t].dropping.value == [] && w'.mem.bimaps == w.mem.bimaps
  {
    if step.DropOne? {
      DropHead(w, step.t);
    }
  }

  lemma NoneLeftNoneLeaked(m: Mem)
    requires LockSteps.Split(m) && NoneLeft(m)
    ensures forall i :: i in m.owners ==> m.owners[i] in m.bimaps && m.owners[i] !in m.dead
  {
    forall i | i in m.owners ensures m.owners[i] in m.bimaps && m.owners[i] !in m.dead {
      var t := m.owners[i];
      assert i in m.bimaps[t].byId && i !in EMPTY_BIMAP.byId;
    }
  }

  /** An aborted Drop leaves an id behind. */
  lemma AbortLeaks(build: Build, w: World, t: TransportId, w': World) returns (i: HandlerId)
    requires Inv(w) && StepBy(build, w, AbortDrop(t), w')
    ensures Leaked(w'.mem, i)
  {
    DropHead(w, t);
    i := w.mem.bimaps[t].byConfig[w.lives[t].dropping.value[0]];
    assert i in w.mem.bimaps[t].byId;
  }

  lemma {:induction false} NoAbortNoneLeft(build: Build, trace: seq<World>, steps: seq<Step>, n: nat)
    requires Run(build, trace, steps) && n < |trace| && forall k :: 0 <= k < n ==> !steps[k].AbortDrop?
    ensures NoneLeft(trace[n].mem)
    decreases n
  {
    if n > 0 {
      NoAbortNoneLeft(build, trace, steps, n - 1);
      RunKeeps(build, trace, steps, n - 1);
      EndLeavesNone(build, trace[n - 1], steps[n - 1], trace[n]);
    }
  }

  /** Every owner is alive exactly as long as no Drop has met a stopped engine with something to release. */
  lemma OwnersAliveIff(build: Build, trace: seq<World>, steps: seq<Step>, n: nat)
    requires Run(build, trace, steps) && n < |trace|
    ensures (forall i :: i in trace[n].mem.owners ==> trace[n].mem.owners[i] in trace[n].lives)
       <==> (forall k :: 0 <= k < n ==> !steps[k].AbortDrop?)
  {
    RunKeeps(build, trace, steps, n);
    if k :| 0 <= k < n && steps[k].AbortDrop? {
      RunKeeps(build, trace, steps, k);
      var i := AbortLeaks(build, trace[k], steps[k].t, trace[k + 1]);
      LeakedForever(build, trace, steps, k + 1, n, i);
    } else {
      NoAbortNoneLeft(build, trace, steps, n);
      NoneLeftNoneLeaked(trace[n].mem);
    }
  }

  // A run that leaks: one registration, 65535 Requests, and a Drop, in a build that checks overflow.

  ghost predicate RunTo(build: Build, trace: seq<World>, steps: seq<Step>, w: World) {
    Run(build, trace, steps) && trace[|steps|] == w
  }

  lemma Extend(build: Build, trace: seq<World>, steps: seq<Step>, w: World, step: Step, w': World)
    returns (trace': seq<World>, steps': seq<Step>)
    requires RunTo(build, trace, steps, w) && StepBy(build, w, step, w')
    ensures RunTo(build, trace', steps', w') && steps' == steps + [step]
  {
    trace', steps' := trace + [w'], steps + [step];
    forall n | 0 <= n < |steps'| ensures StepBy(build, trace'[n], steps'[n], trace'[n + 1]) {
      assert n < |steps| ==> StepBy(build, trace[n], steps[n], trace[n + 1]);
    }
  }

  function WithTaken(w: World, t: TransportId, k: nat): World
    requires t in w.lives
  {
    w.(lives := w.lives[t := w.lives[t].(taken := k)])
  }

  lemma {:induction false} SendsMany(build: Build, trace: seq<World>, steps: seq<Step>, w: World, t: TransportId, k: nat)
    returns (trace': seq<World>, steps': seq<Step>)
    requires RunTo(build, trace, steps, w) && Usable(w, t) && w.lives[t].taken == 0 && k <= 0xFFFF
    ensures RunTo(build, trace', steps', WithTaken(w, t, k))
    decreases k
  {
    if k == 0 {
      assert WithTaken(w, t, 0) == w;
      return trace, steps;
    }
    trace', steps' := SendsMany(build, trace, steps, w, t, k - 1);
    assert WithTaken(WithTaken(w, t, k - 1), t, k) == WithTaken(w, t, k);
    trace', steps' := Extend(build, trace', steps', WithTaken(w, t, k - 1), SendRequest(t), WithTaken(w, t, k));
  }

  /** A run in which `t` holds the config of `o` under id 0. */
  lemma RegistersOne(build: Build, t: TransportId, o: Origin) returns (trace: seq<World>, steps: seq<Step>, w: World)
    requires o.Admitted()
    ensures RunTo(build, trace, steps, w) && Usable(w, t) && w.lives[t].taken == 0
    ensures w.mem.bimaps[t].byConfig == map[o.Config() := 0]
  {
    trace, steps, w := CreatesOne(build, t);
    var c, got: GetResult := o.Config(), Ok(ExternFn(0));
    var w1 := BoundOne(w, t, c, Entered(w.lives[t], c, o.Given(), got, Completed));
    trace, steps := Extend(build, trace, steps, w, Register(t, o, got, Completed), w1);
    w := w1;
  }

  function BoundOne(w: World, t: TransportId, c: ListenerConfig, life: Life): World {
    World(LockSteps.Mem(w.mem.free - {0}, w.mem.owners[0 := t], w.mem.bimaps[t := EMPTY_BIMAP.Insert(0, c)], w.mem.dead),
          w.lives[t := life])
  }

  lemma CreatesOne(build: Build, t: TransportId) returns (trace: seq<World>, steps: seq<Step>, w: World)
    ensures RunTo(build, trace, steps, w) && w.lives == map[t := Life(map[], map[], None, 0)]
    ensures w.mem.bimaps == map[t := EMPTY_BIMAP] && w.mem.owners == map[] && 0 in w.mem.free
  {
    var w0 := World(LockSteps.Mem(IdsBelow(NUM_HANDLERS), map[], map[], {}), map[]);
    w := World(w0.mem.(bimaps := map[t := EMPTY_BIMAP]), map[t := Life(map[], map[], None, 0)]);
    trace, steps := Extend(build, [w0], [], w0, Create(t), w);
  }

  /**
   * For every config that can be stored: register it, send 65535 Requests, drop the transport. In a
   * build that checks overflow the Drop aborts and leaks the id of the config.
   */
  lemma OverflowLeaks(t: TransportId, o: Origin) returns (trace: seq<World>, steps: seq<Step>)
    requires o.Admitted()
    ensures Run(Checked, trace, steps) && |steps| > 0 && steps[|steps| - 1] == AbortDrop(t)
    ensures exists i :: Leaked(trace[|steps|].mem, i)
  {
    var w;
    trace, steps, w := RegistersOne(Checked, t, o);
    trace, steps := SendsMany(Checked, trace, steps, w, t, 0xFFFF);
    var full := WithTaken(w, t, 0xFFFF);
    var all := [o.Config()];
    var last := full.(lives := full.lives[t := full.lives[t].(dropping := Some(all))]);
    trace, steps := Extend(Checked, trace, steps, full, BeginDrop(t, all), last);
    trace, steps := Extend(Checked, trace, steps, last, AbortDrop(t), Gone(last, t));
    RunKeeps(Checked, trace, steps, |steps| - 1);
    var i := AbortLeaks(Checked, trace[|steps| - 1], t, trace[|steps|]);
  }
}
