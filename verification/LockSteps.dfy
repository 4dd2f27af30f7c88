/**
 * The allocator as lock-level steps of any number of concurrent calls over any number of
 * transports. The three locks are the owner-map lock G, the free-set lock F and one bimap lock B
 * per transport; the program counter of a call says which guards it holds.
 *
 * The rollback closures own the guards of the stores they repair, so a refused bimap insertion
 * drops F, then G, then B, while the id is still in the owner map after F is dropped. The results
 * below say that the calls are nevertheless linearizable, keep the partition of the ids, and
 * cannot deadlock.
 */
module LockSteps {
  import opened Wrappers
  import opened StatusCodes
  import opened Allocator

  /** All stores of the process. */
  datatype Mem = Mem(
    free: set<HandlerId>,
    owners: map<HandlerId, TransportId>,
    bimaps: map<TransportId, BiMap>,
    dead: set<TransportId>)   // transports whose storage is gone, so that a weak reference to it fails

  datatype Op =
    | Get(transport: TransportId, config: ListenerConfig)
    | Release(transport: TransportId, config: ListenerConfig)
    | Dispatch(id: HandlerId)
    | Lookup(transport: TransportId, id: HandlerId)

  datatype Answer =
    | Got(get: GetResult)
    | Released(rel: Result<(), UCode>)
    | NoTransport
    | Found(listener: Option<Listener>)

  datatype Pc =
    // get and release: take the guards in the order G, F, B
    | WantG | WantF | WantB
    // get
    | Take | MapOwner(id: HandlerId) | Bind(id: HandlerId)
    | UndoFreeOnly(id: HandlerId, answer: Answer)
    | UndoFree(id: HandlerId, answer: Answer) | UndoOwner(id: HandlerId, answer: Answer)
    // release
    | Find | RelFree(id: HandlerId) | RelOwner(id: HandlerId) | RelBind(id: HandlerId)
    // the two lookups of a dispatched callback
    | LookOwner | DropOwner | WantBRead | LookConfig
    // answer known; the remaining guards are dropped one by one
    | Unwind(g: bool, f: bool, b: bool, bLast: bool, answer: Answer)

  /** `on` is the transport whose bimap the call works on, once it is known. */
  datatype Call = Call(op: Op, on: Option<TransportId>, pc: Pc) {
    predicate Writer() { op.Get? || op.Release? }

    predicate Working() {
      pc.Take? || pc.MapOwner? || pc.Bind? || pc.UndoFreeOnly? || pc.UndoFree?
      || pc.Find? || pc.RelFree? || pc.RelOwner? || pc.RelBind?
    }

    predicate HasG() {
      Working() || pc.WantF? || pc.WantB? || pc.UndoOwner? || pc.LookOwner? || pc.DropOwner? || (pc.Unwind? && pc.g)
    }

    predicate HasF() {
      Working() || pc.WantB? || (pc.Unwind? && pc.f)
    }

    predicate HasB(t: TransportId) {
      on == Some(t) && (Working() || pc.UndoOwner? || pc.LookConfig? || (pc.Unwind? && pc.b))
    }

    predicate WritesG() { Writer() && HasG() }

    predicate Finished() { pc.Unwind? && !pc.g && !pc.f && !pc.b }

    /** The answer, from the moment it is fixed. */
    function Decided(): Option<Answer> {
      if pc.UndoFreeOnly? || pc.UndoFree? || pc.UndoOwner? || pc.Unwind? then Some(pc.answer) else None
    }

    /** The stores are between two atomic states because of this call. */
    predicate InFlight() {
      pc.MapOwner? || pc.Bind? || pc.UndoFreeOnly? || pc.UndoFree? || pc.UndoOwner? || pc.RelOwner? || pc.RelBind?
    }

    predicate WellFormed(mem: Mem) {
      && (on.Some? ==> on.value in mem.bimaps && (!Finished() ==> on.value !in mem.dead))
      && (match op
          case Get(t, _) =>
            && on == Some(t)
            && (pc.WantG? || pc.WantF? || pc.WantB? || pc.Take? || pc.MapOwner? || pc.Bind?
                || pc.UndoFreeOnly? || pc.UndoFree? || pc.UndoOwner? || pc.Unwind?)
          case Release(t, _) =>
            && on == Some(t)
            && (pc.WantG? || pc.WantF? || pc.WantB? || pc.Find? || pc.RelFree? || pc.RelOwner? || pc.RelBind?
                || pc.Unwind?)
          case Dispatch(_) =>
            || (on.None? && (pc.WantG? || pc.LookOwner?))
            || (on.Some? && (pc.DropOwner? || pc.WantBRead? || pc.LookConfig?))
            || (pc.Unwind? && !pc.f && (pc.b ==> on.Some?))
          case Lookup(t, _) =>
            on == Some(t) && (pc.WantBRead? || pc.LookConfig? || (pc.Unwind? && !pc.g && !pc.f)))
      && (pc.Unwind? && pc.f ==> pc.g)
    }
  }

  /** One step of a call that is allowed to move; `choice` is the id the hash set yields first. */
  function Move(mem: Mem, c: Call, choice: HandlerId): (r: (Mem, Call))
    requires c.WellFormed(mem)
  {
    match c.pc
    case WantG => (mem, c.(pc := if c.op.Dispatch? then LookOwner else WantF))
    case WantF => (mem, c.(pc := WantB))
    case WantB => (mem, c.(pc := if c.op.Get? then Take else Find))
    case Take =>
      if mem.free == {} then
        (mem, c.(pc := Unwind(true, true, true, false, Got(Err(OtherError(RESOURCE_EXHAUSTED))))))
      else
        (mem.(free := mem.free - {choice}), c.(pc := MapOwner(choice)))
    case MapOwner(id) =>
      if id in mem.owners then
        (mem, c.(pc := UndoFreeOnly(id, Got(Err(OtherError(ALREADY_EXISTS))))))
      else
        (mem.(owners := mem.owners[id := c.on.value]), c.(pc := Bind(id)))
    case Bind(id) =>
      var b := mem.bimaps[c.on.value];
      if b.Accepts(id, c.op.config) then
        (mem.(bimaps := mem.bimaps[c.on.value := b.Insert(id, c.op.config)]),
         c.(pc := Unwind(true, true, true, true, Got(Ok(ExternFn(id))))))
      else
        var e := if id in b.byId then ListenerIdAlreadyExists(id) else ListenerConfigAlreadyExists(ExternFn(id));
        (mem, c.(pc := UndoFree(id, Got(Err(e)))))
    case UndoFreeOnly(id, a) =>
      (mem.(free := mem.free + {id}), c.(pc := Unwind(true, false, true, false, a)))
    case UndoFree(id, a) =>
      (mem.(free := mem.free + {id}), c.(pc := UndoOwner(id, a)))
    case UndoOwner(id, a) =>
      (mem.(owners := mem.owners - {id}), c.(pc := Unwind(false, false, true, false, a)))
    case Find =>
      var b := mem.bimaps[c.on.value];
      if c.op.config in b.byConfig then
        (mem, c.(pc := RelFree(b.byConfig[c.op.config])))
      else
        (mem, c.(pc := Unwind(true, true, true, false, Released(Err(NOT_FOUND)))))
    case RelFree(id) => (mem.(free := mem.free + {id}), c.(pc := RelOwner(id)))
    case RelOwner(id) => (mem.(owners := mem.owners - {id}), c.(pc := RelBind(id)))
    case RelBind(id) =>
      (mem.(bimaps := mem.bimaps[c.on.value := mem.bimaps[c.on.value].RemoveById(id)]),
       c.(pc := Unwind(true, true, true, false, Released(Ok(())))))
    case LookOwner =>
      if c.op.id in mem.owners && mem.owners[c.op.id] !in mem.dead then
        (mem, c.(on := Some(mem.owners[c.op.id]), pc := DropOwner))
      else
        (mem, c.(pc := Unwind(true, false, false, false, NoTransport)))
    case DropOwner => (mem, c.(pc := WantBRead))
    case WantBRead => (mem, c.(pc := LookConfig))
    case LookConfig =>
      (mem, c.(pc := Unwind(false, false, true, false, Found(ListenerOf(mem.bimaps[c.on.value], c.op.id)))))
    case Unwind(g, f, b, bLast, a) =>
      if b && !bLast then (mem, c.(pc := Unwind(g, f, false, bLast, a)))
      else if f then (mem, c.(pc := Unwind(g, false, b, bLast, a)))
      else if g then (mem, c.(pc := Unwind(false, f, b, bLast, a)))
      else (mem, c.(pc := Unwind(g, f, false, bLast, a)))
  }

  /** What happened to the atomic stores, in order. */
  datatype Event =
    | Did(call: nat, op: Op, on: Option<TransportId>, answer: Answer)
    | Saw(call: nat, id: HandlerId, transport: TransportId)
    | Added(transport: TransportId)
    | Died(transport: TransportId)

  datatype Sys = Sys(mem: Mem, calls: seq<Call>, history: seq<Event>)

  datatype Step =
    | Begin(op: Op)
    | AddTransport(transport: TransportId)
    | DropTransport(transport: TransportId)
    | Advance(call: nat, choice: HandlerId)

  function Start(op: Op): Call {
    match op
    case Get(t, _) => Call(op, Some(t), WantG)
    case Release(t, _) => Call(op, Some(t), WantG)
    case Dispatch(_) => Call(op, None, WantG)
    case Lookup(t, _) => Call(op, Some(t), WantBRead)
  }

  /** Call `k` is not finished and the lock it waits for, if any, can be granted. */
  ghost predicate CanMove(calls: seq<Call>, k: nat)
    requires k < |calls|
  {
    var c := calls[k];
    && !c.Finished()
    && (c.pc.WantG? && c.Writer() ==> forall j :: 0 <= j < |calls| && j != k ==> !calls[j].HasG())
    && (c.pc.WantG? && !c.Writer() ==> forall j :: 0 <= j < |calls| && j != k ==> !calls[j].WritesG())
    && (c.pc.WantF? ==> forall j :: 0 <= j < |calls| && j != k ==> !calls[j].HasF())
    && (c.pc.WantB? && c.on.Some? ==> forall j :: 0 <= j < |calls| && j != k ==> !calls[j].HasB(c.on.value))
    && (c.pc.WantBRead? && c.on.Some? ==>
          forall j :: 0 <= j < |calls| && j != k ==> !(calls[j].Writer() && calls[j].HasB(c.on.value)))
  }

  predicate WaitsFor(c: Call, d: Call)
    requires c.pc.WantB? || c.pc.WantBRead? ==> c.on.Some?
  {
    match c.pc
    case WantG => d.HasG() && (c.op.Get? || c.op.Release? || d.op.Get? || d.op.Release?)
    case WantF => d.HasF()
    case WantB => d.HasB(c.on.value)
    case WantBRead => d.HasB(c.on.value) && (d.op.Get? || d.op.Release?)
    case _ => false
  }

  /**
   * Who waits for whom: a writer for every other guard of its lock, a reader only for writers, and
   * nobody else for anything.
   */
  lemma BlockedExactlyWhen(calls: seq<Call>, k: nat)
    requires k < |calls| && !calls[k].Finished() && (calls[k].pc.WantB? || calls[k].pc.WantBRead? ==> calls[k].on.Some?)
    ensures !CanMove(calls, k) <==> exists j :: 0 <= j < |calls| && j != k && WaitsFor(calls[k], calls[j])
  {
  }

  function NewEvents(k: nat, c: Call, c': Call): seq<Event> {
    if c.Decided().None? && c'.Decided().Some? then [Did(k, c'.op, c'.on, c'.Decided().value)]
    else if c.pc.LookOwner? && c.op.Dispatch? && c'.on.Some? then [Saw(k, c.op.id, c'.on.value)]
    else []
  }

  ghost predicate StepBy(s: Sys, step: Step, s': Sys) {
    match step
    case Begin(op) =>
      && (!op.Dispatch? ==> op.transport in s.mem.bimaps && op.transport !in s.mem.dead)
      && s' == s.(calls := s.calls + [Start(op)])
    case AddTransport(t) =>
      && t !in s.mem.bimaps
      && s' == Sys(s.mem.(bimaps := s.mem.bimaps[t := EMPTY_BIMAP]), s.calls, s.history + [Added(t)])
    case DropTransport(t) =>
      // the last strong reference goes; a call on the transport holds one until it is finished
      && t in s.mem.bimaps && t !in s.mem.dead
      && (forall k :: 0 <= k < |s.calls| && s.calls[k].on == Some(t) ==> s.calls[k].Finished())
      && s' == Sys(s.mem.(dead := s.mem.dead + {t}), s.calls, s.history + [Died(t)])
    case Advance(k, choice) =>
      && k < |s.calls| && CanMove(s.calls, k)
      && s.calls[k].WellFormed(s.mem)
      && (s.calls[k].pc.Take? && s.mem.free != {} ==> choice in s.mem.free)
      && var (mem', c') := Move(s.mem, s.calls[k], choice);
         s' == Sys(mem', s.calls[k := c'], s.history + NewEvents(k, s.calls[k], c'))
  }

  ghost predicate Next(s: Sys, s': Sys) {
    exists step :: StepBy(s, step, s')
  }

  ghost predicate Init(s: Sys) {
    && (forall i: HandlerId :: i in s.mem.free)
    && s.mem.owners == map[] && s.mem.bimaps == map[] && s.mem.dead == {} && s.calls == [] && s.history == []
  }

  ghost predicate Run(trace: seq<Sys>) {
    && |trace| > 0 && Init(trace[0])
    && forall n :: 0 <= n < |trace| - 1 ==> Next(trace[n], trace[n + 1])
  }

  // ----- the atomic allocator -----

  function At(m: Mem, t: TransportId): Stores
    requires t in m.bimaps
  {
    Stores(m.free, m.owners, m.bimaps[t])
  }

  /** `m` becomes `m'` by one atomic call. */
  ghost predicate EventSpec(m: Mem, e: Event, m': Mem) {
    match e
    case Added(t) => t !in m.bimaps && m' == m.(bimaps := m.bimaps[t := EMPTY_BIMAP])
    case Died(t) => t in m.bimaps && t !in m.dead && m' == m.(dead := m.dead + {t})
    case Saw(_, id, t) => m' == m && id in m.owners && m.owners[id] == t && t !in m.dead
    case Did(_, Get(t, c), _, a) =>
      && a.Got? && t in m.bimaps && t in m'.bimaps && m'.bimaps == m.bimaps[t := m'.bimaps[t]] && m'.dead == m.dead
      && GetSpec(At(m, t), t, c, a.get, At(m', t))
    case Did(_, Release(t, c), _, a) =>
      && a.Released? && t in m.bimaps && t in m'.bimaps && m'.bimaps == m.bimaps[t := m'.bimaps[t]] && m'.dead == m.dead
      && ReleaseSpec(At(m, t), c, a.rel, At(m', t))
    case Did(_, Dispatch(id), on, a) =>
      && m' == m
      && ((a == NoTransport && (id !in m.owners || m.owners[id] in m.dead))
          || (on.Some? && on.value in m.bimaps && on.value !in m.dead && a == Found(ListenerOf(m.bimaps[on.value], id))))
    case Did(_, Lookup(t, id), _, a) =>
      m' == m && t in m.bimaps && a == Found(ListenerOf(m.bimaps[t], id))
  }

  /**
   * The ids split exactly into the free set and the keys of the owner map, and those keys are the
   * disjoint union of the bimap ids, each mapped to the transport that holds it.
   */
  ghost predicate Split(m: Mem) {
    && (forall i: HandlerId :: i in m.free <==> i !in m.owners)
    && (forall i :: i in m.owners ==> m.owners[i] in m.bimaps && i in m.bimaps[m.owners[i]].byId)
    && (forall t, i :: t in m.bimaps && i in m.bimaps[t].byId ==> i in m.owners && m.owners[i] == t)
  }

  lemma BindKeepsSplit(m: Mem, t: TransportId, id: HandlerId, c: ListenerConfig, m': Mem)
    requires Split(m) && t in m.bimaps && id in m.free && m.bimaps[t].Accepts(id, c)
    requires m' == Mem(m.free - {id}, m.owners[id := t], m.bimaps[t := m.bimaps[t].Insert(id, c)], m.dead)
    ensures Split(m')
  {
    assert m'.bimaps[t].byId == m.bimaps[t].byId[id := c];
  }

  lemma UnbindKeepsSplit(m: Mem, t: TransportId, id: HandlerId, m': Mem)
    requires Split(m) && t in m.bimaps && id in m.bimaps[t].byId
    requires m' == Mem(m.free + {id}, m.owners - {id}, m.bimaps[t := m.bimaps[t].RemoveById(id)], m.dead)
    ensures Split(m')
  {
    assert m'.bimaps[t].byId == m.bimaps[t].byId - {id};
    UnbindKeepsHolders(m, t, id, m');
    UnbindKeepsHeld(m, t, id, m');
  }

  lemma UnbindKeepsHeld(m: Mem, t: TransportId, id: HandlerId, m': Mem)
    requires Split(m) && t in m.bimaps && id in m.bimaps[t].byId
    requires m'.owners == m.owners - {id} && t in m'.bimaps && m'.bimaps == m.bimaps[t := m'.bimaps[t]]
    requires m'.bimaps[t].byId == m.bimaps[t].byId - {id}
    ensures forall u, i :: u in m'.bimaps && i in m'.bimaps[u].byId ==> i in m'.owners && m'.owners[i] == u
  {
    forall u, i | u in m'.bimaps && i in m'.bimaps[u].byId ensures i in m'.owners && m'.owners[i] == u {
      assert i in m.bimaps[u].byId && m.owners[i] == u && m.owners[id] == t;
    }
  }

  lemma UnbindKeepsHolders(m: Mem, t: TransportId, id: HandlerId, m': Mem)
    requires Split(m) && t in m.bimaps && id in m.bimaps[t].byId
    requires m'.owners == m.owners - {id} && t in m'.bimaps && m'.bimaps == m.bimaps[t := m'.bimaps[t]]
    requires m'.bimaps[t].byId == m.bimaps[t].byId - {id}
    ensures forall i :: i in m'.owners ==> m'.owners[i] in m'.bimaps && i in m'.bimaps[m'.owners[i]].byId
  {
  }

  lemma EventKeepsSplit(m: Mem, e: Event, m': Mem)
    requires Split(m) && EventSpec(m, e, m')
    ensures Split(m')
  {
    if e.Added? || e.Died? || e.Saw? {
    } else if e.op.Get? {
      if e.answer.get.Ok? {
        BindKeepsSplit(m, e.op.transport, e.answer.get.value.id, e.op.config, m');
      } else {
        assert m'.bimaps == m.bimaps;
      }
    } else if e.op.Release? {
      var b := m.bimaps[e.op.transport];
      if e.op.config in b.byConfig {
        UnbindKeepsSplit(m, e.op.transport, b.byConfig[e.op.config], m');
      } else {
        assert m'.bimaps == m.bimaps;
      }
    }
  }

  // ----- the refinement map -----

  /** The stores with the unfinished work of `c` taken back. */
  function Undo(mem: Mem, c: Call): Mem
    requires c.WellFormed(mem)
  {
    match c.pc
    case MapOwner(id) => mem.(free := mem.free + {id})
    case UndoFreeOnly(id, _) => mem.(free := mem.free + {id})
    case Bind(id) => mem.(free := mem.free + {id}, owners := mem.owners - {id})
    case UndoFree(id, _) => mem.(free := mem.free + {id}, owners := mem.owners - {id})
    case UndoOwner(id, _) => mem.(owners := mem.owners - {id})
    case RelOwner(id) => mem.(free := mem.free - {id})
    case RelBind(id) => mem.(free := mem.free - {id}, owners := mem.owners[id := c.on.value])
    case _ => mem
  }

  function Flyer(calls: seq<Call>): (r: Option<nat>)
    ensures r.Some? ==> r.value < |calls| && calls[r.value].InFlight()
    ensures r.None? ==> forall k :: 0 <= k < |calls| ==> !calls[k].InFlight()
  {
    if calls == [] then None
    else if calls[|calls| - 1].InFlight() then Some(|calls| - 1)
    else Flyer(calls[..|calls| - 1])
  }

  /** The atomic stores a state stands for. */
  ghost function Abs(s: Sys): Mem
    requires AllOk(s)
  {
    match Flyer(s.calls)
    case None => s.mem
    case Some(k) => Undo(s.mem, s.calls[k])
  }

  /** What the program counter of a call in the middle of its work says about the stores. */
  ghost predicate Flight(mem: Mem, c: Call)
    requires c.WellFormed(mem)
  {
    match c.pc
    case MapOwner(id) => id !in mem.free
    case UndoFreeOnly(_, _) => false
    case Bind(id) => id !in mem.free && id in mem.owners && mem.owners[id] == c.on.value
    case UndoFree(id, a) =>
      && id !in mem.free && id in mem.owners && mem.owners[id] == c.on.value
    case UndoOwner(id, a) =>
      id in mem.free && id in mem.owners && mem.owners[id] == c.on.value
    case RelFree(id) => Bound(mem, c, id)
    case RelOwner(id) => Bound(mem, c, id) && id in mem.free
    case RelBind(id) => Bound(mem, c, id) && id in mem.free && id !in mem.owners
    case _ => true
  }

  ghost predicate Bound(mem: Mem, c: Call, id: HandlerId)
    requires c.WellFormed(mem)
  {
    && c.on.Some? && c.op.Release?
    && c.op.config in mem.bimaps[c.on.value].byConfig && mem.bimaps[c.on.value].byConfig[c.op.config] == id
  }

  ghost predicate CallOk(mem: Mem, c: Call) {
    c.WellFormed(mem) && Flight(mem, c)
  }

  ghost predicate AllOk(s: Sys) {
    forall k :: 0 <= k < |s.calls| ==> CallOk(s.mem, s.calls[k])
  }

  /** Both write locks exclude every other guard of the same lock. */
  ghost predicate ExclusiveG(calls: seq<Call>) {
    forall j, k :: 0 <= j < |calls| && 0 <= k < |calls| && j != k && calls[j].WritesG() ==> !calls[k].HasG()
  }

  ghost predicate ExclusiveB(calls: seq<Call>) {
    forall j, k, t :: 0 <= j < |calls| && 0 <= k < |calls| && j != k && calls[j].Writer() && calls[j].HasB(t)
      ==> !calls[k].HasB(t)
  }

  ghost predicate Inv(s: Sys) {
    && AllOk(s)
    && ExclusiveG(s.calls) && ExclusiveB(s.calls)
    && Split(Abs(s))
  }

  /** In-flight calls hold the write guard of G, so a call with any guard of G sees its own view. */
  lemma AbsOf(s: Sys, k: nat)
    requires AllOk(s) && ExclusiveG(s.calls)
    requires k < |s.calls| && s.calls[k].HasG()
    ensures Abs(s) == Undo(s.mem, s.calls[k])
  {
    match Flyer(s.calls)
    case None =>
    case Some(j) => assert CallOk(s.mem, s.calls[j]); assert s.calls[j].WritesG();
  }

  /** What a step of call `k` does to the atomic stores: nothing, or exactly its one event. */
  ghost predicate Refines(m: Mem, events: seq<Event>, m': Mem) {
    if events == [] then m' == m else |events| == 1 && EventSpec(m, events[0], m')
  }

  ghost predicate StepsWell(mem: Mem, k: nat, c: Call, choice: HandlerId)
    requires c.WellFormed(mem)
  {
    var (mem', c') := Move(mem, c, choice);
    && c'.WellFormed(mem') && Flight(mem', c')
    && mem'.bimaps.Keys == mem.bimaps.Keys && mem'.dead == mem.dead
    && Refines(Undo(mem, c), NewEvents(k, c, c'), Undo(mem', c'))
  }

  lemma TakeStep(mem: Mem, k: nat, c: Call, choice: HandlerId)
    requires c.WellFormed(mem) && c.op.Get? && c.pc.Take?
    requires mem.free != {} ==> choice in mem.free
    ensures StepsWell(mem, k, c, choice)
  {
    var (mem', c') := Move(mem, c, choice);
    if mem.free == {} {
      assert At(mem, c.on.value) == At(mem', c.on.value);
    } else {
      assert Undo(mem', c').free == mem.free;
    }
  }

  lemma MapOwnerStep(mem: Mem, k: nat, c: Call, choice: HandlerId)
    requires c.WellFormed(mem) && Flight(mem, c) && Split(Undo(mem, c)) && c.op.Get? && c.pc.MapOwner?
    ensures StepsWell(mem, k, c, choice)
  {
    var (mem', c') := Move(mem, c, choice);
    assert c.pc.id in Undo(mem, c).free;
    assert Undo(mem', c').owners == mem.owners;
  }

  lemma UndoStep(mem: Mem, k: nat, c: Call, choice: HandlerId)
    requires c.WellFormed(mem) && Flight(mem, c) && c.op.Get? && (c.pc.UndoFree? || c.pc.UndoOwner?)
    ensures StepsWell(mem, k, c, choice)
  {
  }

  /** The decisive step of get, when the bimap accepts: the call commits. */
  lemma BindCommits(mem: Mem, k: nat, c: Call, choice: HandlerId)
    requires c.WellFormed(mem) && Flight(mem, c) && c.op.Get? && c.pc.Bind?
    requires mem.bimaps[c.on.value].Accepts(c.pc.id, c.op.config)
    ensures StepsWell(mem, k, c, choice)
  {
    var id, t := c.pc.id, c.on.value;
    var (mem', c') := Move(mem, c, choice);
    var m, m' := Undo(mem, c), Undo(mem', c');
    assert mem.owners == m.owners[id := t];
    assert mem.free == m.free - {id};
    assert At(m', t) == Stores(m.free - {id}, m.owners[id := t], m.bimaps[t].Insert(id, c.op.config));
  }

  /** When it refuses, the answer is fixed and the atomic stores stay as they are. */
  lemma BindRefuses(mem: Mem, k: nat, c: Call, choice: HandlerId)
    requires c.WellFormed(mem) && Flight(mem, c) && Split(Undo(mem, c)) && c.op.Get? && c.pc.Bind?
    requires !mem.bimaps[c.on.value].Accepts(c.pc.id, c.op.config)
    ensures StepsWell(mem, k, c, choice)
  {
    var m := Undo(mem, c);
    assert c.pc.id in m.free && c.pc.id !in m.bimaps[c.on.value].byId;
  }

  lemma BindStep(mem: Mem, k: nat, c: Call, choice: HandlerId)
    requires c.WellFormed(mem) && Flight(mem, c) && Split(Undo(mem, c)) && c.op.Get? && c.pc.Bind?
    ensures StepsWell(mem, k, c, choice)
  {
    if mem.bimaps[c.on.value].Accepts(c.pc.id, c.op.config) {
      BindCommits(mem, k, c, choice);
    } else {
      BindRefuses(mem, k, c, choice);
    }
  }

  lemma FindStep(mem: Mem, k: nat, c: Call, choice: HandlerId)
    requires c.WellFormed(mem) && c.op.Release? && c.pc.Find?
    ensures StepsWell(mem, k, c, choice)
  {
  }

  lemma RelFreeStep(mem: Mem, k: nat, c: Call, choice: HandlerId)
    requires c.WellFormed(mem) && Flight(mem, c) && Split(Undo(mem, c)) && c.op.Release? && c.pc.RelFree?
    ensures StepsWell(mem, k, c, choice)
  {
    var (mem', c') := Move(mem, c, choice);
    assert c.pc.id in mem.bimaps[c.on.value].byId;
    assert Undo(mem', c').free == mem.free;
  }

  lemma RelOwnerStep(mem: Mem, k: nat, c: Call, choice: HandlerId)
    requires c.WellFormed(mem) && Flight(mem, c) && Split(Undo(mem, c)) && c.op.Release? && c.pc.RelOwner?
    ensures StepsWell(mem, k, c, choice)
  {
    var (mem', c') := Move(mem, c, choice);
    assert c.pc.id in mem.bimaps[c.on.value].byId;
    assert Undo(mem', c').owners == mem.owners;
  }

  /** The decisive step of a successful release. */
  lemma UnbindStep(mem: Mem, k: nat, c: Call, choice: HandlerId)
    requires c.WellFormed(mem) && Flight(mem, c) && c.op.Release? && c.pc.RelBind?
    ensures StepsWell(mem, k, c, choice)
  {
    var id, t := c.pc.id, c.on.value;
    var (mem', c') := Move(mem, c, choice);
    var m, m' := Undo(mem, c), Undo(mem', c');
    assert mem.owners == m.owners - {id};
    assert mem.free == m.free + {id};
    assert At(m', t) == Stores(m.free + {id}, m.owners - {id}, m.bimaps[t].RemoveById(id));
    assert ReleaseSpec(At(m, t), c.op.config, Ok(()), At(m', t));
  }

  /** A step under the write guard of G, seen from the call alone. */
  lemma WriterStep(mem: Mem, k: nat, c: Call, choice: HandlerId)
    requires c.WellFormed(mem) && Flight(mem, c) && Split(Undo(mem, c)) && c.WritesG()
    requires c.pc.Take? && mem.free != {} ==> choice in mem.free
    ensures StepsWell(mem, k, c, choice)
  {
    match c.pc
    case Take => TakeStep(mem, k, c, choice);
    case MapOwner(_) => MapOwnerStep(mem, k, c, choice);
    case Bind(_) => BindStep(mem, k, c, choice);
    case UndoFree(_, _) => UndoStep(mem, k, c, choice);
    case UndoOwner(_, _) => UndoStep(mem, k, c, choice);
    case Find => FindStep(mem, k, c, choice);
    case RelFree(_) => RelFreeStep(mem, k, c, choice);
    case RelOwner(_) => RelOwnerStep(mem, k, c, choice);
    case RelBind(_) => UnbindStep(mem, k, c, choice);
    case _ =>
  }

  // ----- every step of the system -----

  /** Guards change hands only through CanMove, so the write locks stay exclusive. */
  lemma AdvanceKeepsExclusiveG(s: Sys, k: nat, c': Call, choice: HandlerId)
    requires AllOk(s) && ExclusiveG(s.calls) && k < |s.calls| && CanMove(s.calls, k)
    requires CallOk(s.mem, s.calls[k]) && c' == Move(s.mem, s.calls[k], choice).1
    ensures ExclusiveG(s.calls[k := c'])
  {
    assert c'.HasG() ==> s.calls[k].HasG() || s.calls[k].pc.WantG?;
    assert c'.Writer() == s.calls[k].Writer();
  }

  lemma AdvanceKeepsExclusiveB(s: Sys, k: nat, c': Call, choice: HandlerId)
    requires AllOk(s) && ExclusiveB(s.calls) && k < |s.calls| && CanMove(s.calls, k)
    requires CallOk(s.mem, s.calls[k]) && c' == Move(s.mem, s.calls[k], choice).1
    ensures ExclusiveB(s.calls[k := c'])
  {
    var c := s.calls[k];
    assert forall t: TransportId :: c'.HasB(t) ==> c.HasB(t) || ((c.pc.WantB? || c.pc.WantBRead?) && c.on == Some(t));
    assert c'.Writer() == c.Writer();
  }

  lemma SameFlyer(a: seq<Call>, b: seq<Call>)
    requires |a| == |b|
    requires forall k :: 0 <= k < |a| ==> a[k].InFlight() == b[k].InFlight()
    ensures Flyer(a) == Flyer(b)
  {
  }

  /** A call without a guard of G is not disturbed by changes made under that guard. */
  lemma IdleCall(mem: Mem, mem': Mem, c: Call)
    requires CallOk(mem, c) && !c.HasG() && mem'.bimaps.Keys == mem.bimaps.Keys && mem'.dead == mem.dead
    ensures CallOk(mem', c) && !c.InFlight()
  {
  }

  lemma OnlyFlyer(s: Sys, k: nat)
    requires AllOk(s) && k < |s.calls|
    requires forall j :: 0 <= j < |s.calls| && j != k ==> !s.calls[j].InFlight()
    ensures Abs(s) == Undo(s.mem, s.calls[k])
  {
    assert CallOk(s.mem, s.calls[k]);
  }

  /** A call with the write guard of G moves: everyone else is out of flight. */
  lemma WriterAdvance(s: Sys, k: nat, choice: HandlerId, s': Sys)
    requires Inv(s) && StepBy(s, Advance(k, choice), s') && s.calls[k].WritesG()
    ensures AllOk(s')
    ensures Refines(Abs(s), NewEvents(k, s.calls[k], s'.calls[k]), Abs(s'))
  {
    var c := s.calls[k];
    assert CallOk(s.mem, c);
    AbsOf(s, k);
    WriterStep(s.mem, k, c, choice);
    forall j | 0 <= j < |s.calls| && j != k ensures CallOk(s'.mem, s'.calls[j]) && !s'.calls[j].InFlight() {
      IdleCall(s.mem, s'.mem, s.calls[j]);
    }
    assert CallOk(s'.mem, s'.calls[k]);
    OnlyFlyer(s', k);
  }

  /** Every other move leaves the stores alone, seen from the call. */
  lemma QuietStep(mem: Mem, k: nat, c: Call, choice: HandlerId, m: Mem)
    requires c.WellFormed(mem) && !c.WritesG() && !c.Finished()
    requires c.pc.LookOwner? ==> m == mem && Split(m)
    requires m.bimaps == mem.bimaps && m.dead == mem.dead
    ensures var (mem', c') := Move(mem, c, choice);
      && mem' == mem && CallOk(mem, c') && !c.InFlight() && !c'.InFlight()
      && Refines(m, NewEvents(k, c, c'), m)
  {
  }

  lemma QuietAbs(s: Sys, k: nat, s': Sys)
    requires AllOk(s) && k < |s.calls| == |s'.calls| && s'.mem == s.mem && CallOk(s.mem, s'.calls[k])
    requires s'.calls == s.calls[k := s'.calls[k]] && !s.calls[k].InFlight() && !s'.calls[k].InFlight()
    ensures AllOk(s') && Abs(s') == Abs(s)
  {
    SameFlyer(s.calls, s'.calls);
  }

  lemma QuietAdvance(s: Sys, k: nat, choice: HandlerId, s': Sys)
    requires Inv(s) && StepBy(s, Advance(k, choice), s') && !s.calls[k].WritesG()
    ensures AllOk(s')
    ensures Refines(Abs(s), NewEvents(k, s.calls[k], s'.calls[k]), Abs(s'))
  {
    var c := s.calls[k];
    assert CallOk(s.mem, c);
    if c.pc.LookOwner? {
      AbsOf(s, k);
    }
    QuietStep(s.mem, k, c, choice, Abs(s));
    QuietAbs(s, k, s');
  }

  lemma BeginKeepsExclusive(calls: seq<Call>, op: Op)
    requires ExclusiveG(calls) && ExclusiveB(calls)
    ensures ExclusiveG(calls + [Start(op)]) && ExclusiveB(calls + [Start(op)])
  {
    assert !Start(op).HasG() && forall t :: !Start(op).HasB(t);
  }

  lemma BeginStep(s: Sys, op: Op, s': Sys)
    requires Inv(s) && StepBy(s, Begin(op), s')
    ensures Inv(s') && Abs(s') == Abs(s)
  {
    BeginKeepsExclusive(s.calls, op);
    assert s'.calls[..|s.calls|] == s.calls;
    assert CallOk(s'.mem, Start(op));
  }

  lemma AddKeepsCall(mem: Mem, c: Call, t: TransportId, mem': Mem)
    requires CallOk(mem, c) && t !in mem.bimaps && mem' == mem.(bimaps := mem.bimaps[t := EMPTY_BIMAP])
    ensures CallOk(mem', c) && EventSpec(Undo(mem, c), Added(t), Undo(mem', c))
  {
  }

  lemma AddStep(s: Sys, t: TransportId, s': Sys)
    requires Inv(s) && StepBy(s, AddTransport(t), s')
    ensures Inv(s') && EventSpec(Abs(s), Added(t), Abs(s'))
  {
    forall k | 0 <= k < |s.calls| ensures CallOk(s'.mem, s'.calls[k]) {
      AddKeepsCall(s.mem, s.calls[k], t, s'.mem);
    }
    match Flyer(s.calls)
    case None =>
    case Some(k) => AddKeepsCall(s.mem, s.calls[k], t, s'.mem);
    EventKeepsSplit(Abs(s), Added(t), Abs(s'));
  }

  lemma DropKeepsCall(mem: Mem, c: Call, t: TransportId, mem': Mem)
    requires CallOk(mem, c) && t in mem.bimaps && t !in mem.dead && mem' == mem.(dead := mem.dead + {t})
    requires c.on == Some(t) ==> c.Finished()
    ensures CallOk(mem', c) && EventSpec(Undo(mem, c), Died(t), Undo(mem', c))
  {
  }

  lemma DropStep(s: Sys, t: TransportId, s': Sys)
    requires Inv(s) && StepBy(s, DropTransport(t), s')
    ensures Inv(s') && EventSpec(Abs(s), Died(t), Abs(s'))
  {
    forall k | 0 <= k < |s.calls| ensures CallOk(s'.mem, s'.calls[k]) {
      DropKeepsCall(s.mem, s.calls[k], t, s'.mem);
    }
    match Flyer(s.calls)
    case None =>
    case Some(k) => DropKeepsCall(s.mem, s.calls[k], t, s'.mem);
    EventKeepsSplit(Abs(s), Died(t), Abs(s'));
  }

  /**
   * Every step keeps the invariant, and changes the atomic stores by nothing or by exactly the
   * event it appends to the history.
   */
  lemma StepRefines(s: Sys, s': Sys)
    requires Inv(s) && Next(s, s')
    ensures Inv(s')
    ensures |s.history| <= |s'.history| && s'.history[..|s.history|] == s.history
    ensures Refines(Abs(s), s'.history[|s.history|..], Abs(s'))
  {
    var step :| StepBy(s, step, s');
    if step.Begin? {
      BeginStep(s, step.op, s');
      assert s'.history[|s.history|..] == [];
      return;
    } else if step.AddTransport? {
      AddStep(s, step.transport, s');
      assert s'.history[|s.history|..] == [Added(step.transport)];
      return;
    } else if step.DropTransport? {
      DropStep(s, step.transport, s');
      assert s'.history[|s.history|..] == [Died(step.transport)];
      return;
    }
    var k := step.call;
    assert CallOk(s.mem, s.calls[k]);
    AdvanceKeepsExclusiveG(s, k, s'.calls[k], step.choice);
    AdvanceKeepsExclusiveB(s, k, s'.calls[k], step.choice);
    if s.calls[k].WritesG() {
      WriterAdvance(s, k, step.choice, s');
    } else {
      QuietAdvance(s, k, step.choice, s');
    }
    var events := NewEvents(k, s.calls[k], s'.calls[k]);
    assert s'.history == s.history + events && s'.history[|s.history|..] == events;
    if events != [] {
      EventKeepsSplit(Abs(s), events[0], Abs(s'));
    }
  }
}
