/**
 * Whole runs of a process with any number of transports: transports come and go, register and
 * unregister in any order, every engine command may fail or not run at all, an engine may stop, and
 * the Drop of one transport interleaves with the work of the others. Each step is one atomic
 * allocator call with its engine command; LockRuns says why allocator calls may be taken as atomic.
 */
module Worlds {
  import opened Wrappers
  import opened Uris
  import opened StatusCodes
  import opened Allocator
  import opened RpcCorrelation
  import opened Conversions
  import opened EngineLog
  import opened Transports
  import LockSteps

  type Mem = LockSteps.Mem

  /**
   * A live transport: what the engine was given, the library's table, what its Drop has still to
   * release, and how many session ids its Requests have taken.
   */
  datatype Life = Life(
    given: map<ListenerConfig, RegistrationType>,
    table: Table,
    dropping: Option<seq<ListenerConfig>>,
    taken: nat)

  datatype World = World(mem: Mem, lives: map<TransportId, Life>)

  /** The three places that store a listener config. */
  datatype Origin =
    | Direct(source: UUri, sink: Option<UUri>, l: Listener)
    | Service(local: string, service: (u16, u16), l: Listener)
    | Returning(m: UMessage, l: Listener)
  {
    /** The guards the code passes before it stores the config. */
    predicate Admitted() {
      match this
      case Direct(source, sink, _) => DetermineType(source, sink) != AllPointToPoint
      case Service(_, _, _) => true
      case Returning(m, _) => Validated(m) && DetermineType(m.source.value, m.sink) == Request
    }

    function Config(): ListenerConfig
      requires Admitted()
    {
      match this
      case Direct(source, sink, l) => ListenerConfig(source, sink, l)
      case Service(local, service, l) => ServiceConfig(local, service, l)
      case Returning(m, l) => Route(m.source.value, m.sink.value, l)
    }

    /** The type handed to the engine: computed only in a direct registration, else a constant. */
    function Given(): RegistrationType {
      match this
      case Direct(source, sink, _) => DetermineType(source, sink)
      case Service(_, _, _) => Request
      case Returning(_, _) => Response
    }
  }

  /** Recomputing the type of a stored config gives what the engine was given, never AllPointToPoint. */
  lemma OriginStable(o: Origin)
    requires o.Admitted()
    ensures TypeOf(o.Config()) == o.Given() && o.Given() != AllPointToPoint
  {
    match o
    case Direct(_, _, _) =>
    case Service(local, service, l) => ServiceConfigRepeats(local, [service], 0, l);
    case Returning(m, l) => RouteIsResponse(m, l);
  }

  datatype Step =
    | Create(t: TransportId)
    | Register(t: TransportId, origin: Origin, got: GetResult, outcome: EngineOutcome)
    | Unregister(t: TransportId, config: ListenerConfig, outcome: EngineOutcome, released: Option<Result<(), UCode>>)
    | SendRequest(t: TransportId)
    | BeginDrop(t: TransportId, all: seq<ListenerConfig>)
    | DropOne(t: TransportId, outcome: EngineOutcome, result: Result<(), UCode>)
    | EndDrop(t: TransportId)
    | AbortDrop(t: TransportId)

  /** `all` holds each stored config exactly once, as get_all_listener_configs returns them. */
  ghost predicate Enumerates(all: seq<ListenerConfig>, b: BiMap) {
    && (forall c :: c in all <==> c in b.byConfig)
    && (forall m, n :: 0 <= m < n < |all| ==> all[m] != all[n])
  }

  ghost predicate OnlyBiMap(m: Mem, t: TransportId, m': Mem) {
    t in m.bimaps && t in m'.bimaps && m'.bimaps == m.bimaps[t := m'.bimaps[t]] && m'.dead == m.dead
  }

  function Cleared(table: Table, c: ListenerConfig, outcome: EngineOutcome): Table {
    TableStep(table, UnregisterCommand(c, 0), outcome)
  }

  function Entered(life: Life, c: ListenerConfig, kind: RegistrationType, got: GetResult, outcome: EngineOutcome): Life {
    if got.Err? then life
    else life.(given := life.given[c := kind],
               table := TableStep(life.table, RegisterCommand(c, kind, got.value, 0), outcome))
  }

  predicate Alive(w: World, t: TransportId) {
    t in w.mem.bimaps && t in w.lives
  }

  /** No Drop of `t` is under way: Drop has the transport to itself. */
  predicate Usable(w: World, t: TransportId) {
    Alive(w, t) && w.lives[t].dropping.None?
  }

  predicate Dropping(w: World, t: TransportId) {
    Alive(w, t) && w.lives[t].dropping.Some?
  }

  predicate Runs(build: Build, w: World, t: TransportId)
    requires t in w.lives
  {
    Lasts(build, w.lives[t].taken)
  }

  /** The transport is gone. What its bimap still holds nobody can reach any more. */
  function Gone(w: World, t: TransportId): World {
    World(w.mem.(dead := w.mem.dead + {t}), w.lives - {t})
  }

  ghost predicate StepBy(build: Build, w: World, step: Step, w': World) {
    match step
    case Create(t) =>
      && t !in w.mem.bimaps
      && w' == World(w.mem.(bimaps := w.mem.bimaps[t := EMPTY_BIMAP]), w.lives[t := Life(map[], map[], None, 0)])
    case Register(t, o, got, outcome) =>
      && Usable(w, t) && o.Admitted() && OnlyBiMap(w.mem, t, w'.mem)
      && (got.Ok? ==> (outcome == Stopped <==> !Runs(build, w, t)))
      && GetSpec(LockSteps.At(w.mem, t), t, o.Config(), got, LockSteps.At(w'.mem, t))
      && w'.lives == w.lives[t := Entered(w.lives[t], o.Config(), o.Given(), got, outcome)]
    case Unregister(t, c, outcome, released) =>
      && Usable(w, t) && TypeOf(c) != AllPointToPoint && OnlyBiMap(w.mem, t, w'.mem)
      && (outcome == Stopped <==> !Runs(build, w, t))
      // a stopped engine panics before the release; the point-to-point path skips it after any failing command
      && (match released
          case Some(r) => outcome != Stopped && ReleaseSpec(LockSteps.At(w.mem, t), c, r, LockSteps.At(w'.mem, t))
          case None => outcome != Completed && w'.mem == w.mem)
      && w'.lives == w.lives[t := w.lives[t].(table := Cleared(w.lives[t].table, c, outcome))]
    case SendRequest(t) =>
      && Usable(w, t) && Runs(build, w, t)
      && w' == w.(lives := w.lives[t := w.lives[t].(taken := w.lives[t].taken + 1)])
    case BeginDrop(t, all) =>
      && Usable(w, t) && Enumerates(all, w.mem.bimaps[t])
      && w' == w.(lives := w.lives[t := w.lives[t].(dropping := Some(all))])
    case DropOne(t, outcome, r) =>
      && Dropping(w, t) && w.lives[t].dropping.value != [] && Runs(build, w, t)
      && var c := w.lives[t].dropping.value[0];
         // a config classified AllPointToPoint would miss the release, so nothing is said of it
         TypeOf(c) != AllPointToPoint ==>
           && OnlyBiMap(w.mem, t, w'.mem) && ReleaseSpec(LockSteps.At(w.mem, t), c, r, LockSteps.At(w'.mem, t))
           && w'.lives == w.lives[t := w.lives[t].(table := Cleared(w.lives[t].table, c, outcome),
                                                   dropping := Some(w.lives[t].dropping.value[1..]))]
    case EndDrop(t) => Dropping(w, t) && w.lives[t].dropping.value == [] && w' == Gone(w, t)
    // the panic at the next config
    case AbortDrop(t) => Dropping(w, t) && w.lives[t].dropping.value != [] && !Runs(build, w, t) && w' == Gone(w, t)
  }

  ghost predicate Init(w: World) {
    && (forall i: HandlerId :: i in w.mem.free)
    && w.mem.owners == map[] && w.mem.bimaps == map[] && w.mem.dead == {} && w.lives == map[]
  }

  ghost predicate Run(build: Build, trace: seq<World>, steps: seq<Step>) {
    && |trace| == |steps| + 1 && Init(trace[0])
    && forall n :: 0 <= n < |steps| ==> StepBy(build, trace[n], steps[n], trace[n + 1])
  }

  ghost predicate LifeOk(b: BiMap, life: Life) {
    && Stable(b, life.given)
    && (life.dropping.Some? ==> Enumerates(life.dropping.value, b))
  }

  ghost predicate LivesOk(w: World) {
    && w.mem.dead <= w.mem.bimaps.Keys && w.lives.Keys == w.mem.bimaps.Keys - w.mem.dead
    && forall t :: t in w.lives ==> LifeOk(w.mem.bimaps[t], w.lives[t])
  }

  ghost predicate Inv(w: World) {
    LockSteps.Split(w.mem) && LivesOk(w)
  }

  // ----- every step keeps the invariant -----

  /** A step that changes one transport keeps the others as they were. */
  lemma OneLife(w: World, t: TransportId, b: BiMap, life: Life, w': World)
    requires LivesOk(w) && LifeOk(b, life) && t !in w.mem.dead && w'.mem.dead == w.mem.dead
    requires w'.mem.bimaps == w.mem.bimaps[t := b] && w'.lives == w.lives[t := life]
    ensures LivesOk(w')
  {
    forall u | u in w'.lives ensures LifeOk(w'.mem.bimaps[u], w'.lives[u]) {
      assert u != t ==> LifeOk(w.mem.bimaps[u], w.lives[u]);
    }
  }

  lemma EnteredOk(s: Stores, t: TransportId, life: Life, o: Origin, got: GetResult, outcome: EngineOutcome, s': Stores)
    requires LifeOk(s.configs, life) && life.dropping.None? && o.Admitted()
    requires GetSpec(s, t, o.Config(), got, s')
    ensures LifeOk(s'.configs, Entered(life, o.Config(), o.Given(), got, outcome))
  {
    OriginStable(o);
  }

  lemma RegisterKeeps(build: Build, w: World, t: TransportId, o: Origin, got: GetResult, outcome: EngineOutcome, w': World)
    requires Inv(w) && StepBy(build, w, Register(t, o, got, outcome), w')
    ensures Inv(w')
  {
    var e := LockSteps.Did(0, LockSteps.Get(t, o.Config()), Some(t), LockSteps.Got(got));
    LockSteps.EventKeepsSplit(w.mem, e, w'.mem);
    EnteredOk(LockSteps.At(w.mem, t), t, w.lives[t], o, got, outcome, LockSteps.At(w'.mem, t));
    OneLife(w, t, w'.mem.bimaps[t], w'.lives[t], w');
  }

  lemma UnregisterKeeps(w: World, t: TransportId, c: ListenerConfig, r: Result<(), UCode>, w': World)
    requires LockSteps.Split(w.mem) && OnlyBiMap(w.mem, t, w'.mem)
    requires ReleaseSpec(LockSteps.At(w.mem, t), c, r, LockSteps.At(w'.mem, t))
    ensures LockSteps.Split(w'.mem)
    ensures w'.mem.bimaps[t].byConfig == w.mem.bimaps[t].byConfig - {c}
  {
    var e := LockSteps.Did(0, LockSteps.Release(t, c), Some(t), LockSteps.Released(r));
    LockSteps.EventKeepsSplit(w.mem, e, w'.mem);
  }

  lemma UnregisterStepKeeps(build: Build, w: World, t: TransportId, c: ListenerConfig, outcome: EngineOutcome,
                            released: Option<Result<(), UCode>>, w': World)
    requires Inv(w) && StepBy(build, w, Unregister(t, c, outcome, released), w')
    ensures Inv(w')
  {
    if released.Some? {
      UnregisterKeeps(w, t, c, released.value, w');
    }
    assert LifeOk(w.mem.bimaps[t], w.lives[t]);
    OneLife(w, t, w'.mem.bimaps[t], w'.lives[t], w');
  }

  /** A step that touches nothing but the life of one transport. */
  lemma LifeStepKeeps(w: World, t: TransportId, life: Life, w': World)
    requires Inv(w) && t in w.lives && w' == w.(lives := w.lives[t := life]) && LifeOk(w.mem.bimaps[t], life)
    ensures Inv(w')
  {
    OneLife(w, t, w.mem.bimaps[t], life, w');
  }

  lemma CreateKeeps(w: World, t: TransportId, life: Life, w': World)
    requires Inv(w) && t !in w.mem.bimaps && life.given == map[] && life.dropping.None?
    requires w' == World(w.mem.(bimaps := w.mem.bimaps[t := EMPTY_BIMAP]), w.lives[t := life])
    ensures Inv(w')
  {
    LockSteps.EventKeepsSplit(w.mem, LockSteps.Added(t), w'.mem);
    OneLife(w, t, EMPTY_BIMAP, life, w');
  }

  /** The next config of a Drop is stored and is not AllPointToPoint, so its release is reached. */
  lemma DropHead(w: World, t: TransportId)
    requires Inv(w) && Dropping(w, t) && w.lives[t].dropping.value != []
    ensures var c := w.lives[t].dropping.value[0];
      c in w.mem.bimaps[t].byConfig && TypeOf(c) != AllPointToPoint
  {
    assert LifeOk(w.mem.bimaps[t], w.lives[t]);
    assert w.lives[t].dropping.value[0] in w.lives[t].dropping.value;
  }

  lemma TailEnumerates(all: seq<ListenerConfig>, b: BiMap, b': BiMap)
    requires Enumerates(all, b) && all != [] && b'.byConfig == b.byConfig - {all[0]}
    ensures Enumerates(all[1..], b')
  {
    assert all == [all[0]] + all[1..];
  }

  lemma DropOneKeeps(build: Build, w: World, t: TransportId, outcome: EngineOutcome, r: Result<(), UCode>, w': World)
    requires Inv(w) && StepBy(build, w, DropOne(t, outcome, r), w')
    ensures Inv(w')
  {
    DropHead(w, t);
    var all := w.lives[t].dropping.value;
    UnregisterKeeps(w, t, all[0], r, w');
    assert LifeOk(w.mem.bimaps[t], w.lives[t]);
    TailEnumerates(all, w.mem.bimaps[t], w'.mem.bimaps[t]);
    OneLife(w, t, w'.mem.bimaps[t], w'.lives[t], w');
  }

  lemma GoneKeeps(w: World, t: TransportId, w': World)
    requires Inv(w) && Alive(w, t) && w' == Gone(w, t)
    ensures Inv(w')
  {
    LockSteps.EventKeepsSplit(w.mem, LockSteps.Died(t), w'.mem);
    forall u | u in w'.lives ensures LifeOk(w'.mem.bimaps[u], w'.lives[u]) {
      assert LifeOk(w.mem.bimaps[u], w.lives[u]);
    }
  }

  lemma StepKeeps(build: Build, w: World, step: Step, w': World)
    requires Inv(w) && StepBy(build, w, step, w')
    ensures Inv(w')
  {
    match step
    case Create(t) => CreateKeeps(w, t, w'.lives[t], w');
    case Register(t, o, got, outcome) => RegisterKeeps(build, w, t, o, got, outcome, w');
    case Unregister(t, c, outcome, released) => UnregisterStepKeeps(build, w, t, c, outcome, released, w');
    case SendRequest(t) => QuietKeeps(build, w, step, w');
    case BeginDrop(t, all) => QuietKeeps(build, w, step, w');
    case DropOne(t, outcome, r) => DropOneKeeps(build, w, t, outcome, r, w');
    case EndDrop(t) => GoneKeeps(w, t, w');
    case AbortDrop(t) => GoneKeeps(w, t, w');
  }

  lemma QuietKeeps(build: Build, w: World, step: Step, w': World)
    requires Inv(w) && StepBy(build, w, step, w') && (step.SendRequest? || step.BeginDrop?)
    ensures Inv(w')
  {
    assert LifeOk(w.mem.bimaps[step.t], w.lives[step.t]);
    LifeStepKeeps(w, step.t, w'.lives[step.t], w');
  }

  /**
   * In every state of every run the ids are partitioned into the free ones and those of the
   * transports alive or dead, and every stored config of a live transport is stable.
   */
  lemma {:induction false} RunKeeps(build: Build, trace: seq<World>, steps: seq<Step>, n: nat)
    requires Run(build, trace, steps) && n < |trace|
    ensures Inv(trace[n])
  {
    if n > 0 {
      RunKeeps(build, trace, steps, n - 1);
      StepKeeps(build, trace[n - 1], steps[n - 1], trace[n]);
    }
  }

  // ----- dispatch in one step -----

  /** What a callback does in one step; a weak reference to a dead owner finds no transport. */
  function Callback(m: Mem, i: HandlerId): LockSteps.Answer {
    if i in m.owners && m.owners[i] in m.bimaps && m.owners[i] !in m.dead
    then LockSteps.Found(ListenerOf(m.bimaps[m.owners[i]], i))
    else LockSteps.NoTransport
  }

  /** A callback reaches `l` exactly when its id is allocated to a live transport whose config holds `l`. */
  lemma AtomicDispatch(build: Build, trace: seq<World>, steps: seq<Step>, n: nat, i: HandlerId, l: Listener)
    requires Run(build, trace, steps) && n < |trace|
    ensures var m := trace[n].mem;
      && (Callback(m, i) == LockSteps.Found(Some(l)) <==> exists t :: t in trace[n].lives && Holds(m, t, i, l))
      && Callback(m, i) != LockSteps.Found(None)
      && (Callback(m, i) == LockSteps.NoTransport <==> i in m.free || (i in m.owners && m.owners[i] in m.dead))
  {
    RunKeeps(build, trace, steps, n);
    CallbackHits(trace[n].mem, i, l);
    assert forall t :: t in trace[n].lives <==> t in trace[n].mem.bimaps && t !in trace[n].mem.dead;
  }

  ghost predicate Holds(m: Mem, t: TransportId, i: HandlerId, l: Listener) {
    t in m.bimaps && i in m.bimaps[t].byId && m.bimaps[t].byId[i].listener == l
  }

  lemma CallbackHits(m: Mem, i: HandlerId, l: Listener)
    requires LockSteps.Split(m)
    ensures Callback(m, i) == LockSteps.Found(Some(l)) <==> exists t :: t !in m.dead && Holds(m, t, i, l)
    ensures Callback(m, i) != LockSteps.Found(None)
    ensures Callback(m, i) == LockSteps.NoTransport <==> i in m.free || (i in m.owners && m.owners[i] in m.dead)
  {
    if i in m.owners {
      var t := m.owners[i];
      assert t in m.bimaps && i in m.bimaps[t].byId;
      assert Holds(m, t, i, m.bimaps[t].byId[i].listener);
      assert forall u :: Holds(m, u, i, l) ==> u == t;
    } else {
      assert forall t :: t in m.bimaps ==> i !in m.bimaps[t].byId;
    }
  }
}
