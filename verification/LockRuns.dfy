/** Whole runs of the lock-level allocator: linearizability, dispatch, progress and termination. */
module LockRuns {
  import opened Wrappers
  import opened StatusCodes
  import opened Allocator
  import opened LockSteps

  /** The atomic stores before and after each event of the history. */
  ghost predicate Replays(mems: seq<Mem>, history: seq<Event>) {
    && |mems| == |history| + 1
    && (forall i: HandlerId :: i in mems[0].free) && mems[0].owners == map[] && mems[0].bimaps == map[] && mems[0].dead == {}
    && forall n :: 0 <= n < |history| ==> EventSpec(mems[n], history[n], mems[n + 1])
  }

  /** An event repeats what the call it names says of itself. */
  ghost predicate Faithful(s: Sys, n: nat)
    requires n < |s.history|
  {
    match s.history[n]
    case Added(_) => true
    case Died(_) => true
    case Saw(k, id, t) => k < |s.calls| && s.calls[k].op == Dispatch(id) && s.calls[k].on == Some(t)
    case Did(k, op, on, a) =>
      && k < |s.calls| && s.calls[k].op == op && s.calls[k].on == on && s.calls[k].Decided() == Some(a)
      && (op.Dispatch? && on.Some? ==> exists m :: 0 <= m < n && s.history[m] == Saw(k, op.id, on.value))
  }

  ghost predicate Logged(s: Sys, k: nat)
    requires k < |s.calls|
  {
    var c := s.calls[k];
    && (c.Decided().Some? ==> exists n :: 0 <= n < |s.history| && s.history[n] == Did(k, c.op, c.on, c.Decided().value))
    && (c.op.Dispatch? && c.on.Some? ==>
          exists n :: 0 <= n < |s.history| && s.history[n] == Saw(k, c.op.id, c.on.value))
  }

  /** Each call that has its answer is in the history exactly once, with that answer. */
  ghost predicate HistoryInv(s: Sys) {
    && (forall n :: 0 <= n < |s.history| ==> Faithful(s, n))
    && (forall k :: 0 <= k < |s.calls| ==> Logged(s, k))
    && (forall m, n :: 0 <= m < n < |s.history| && s.history[m].Did? && s.history[n].Did? ==>
          s.history[m].call != s.history[n].call)
  }

  /** An answer, once fixed, does not change, and neither does a found transport. */
  ghost predicate Settles(c: Call, c': Call) {
    && c'.op == c.op
    && (c.on.Some? ==> c'.on == c.on)
    && (c.Decided().Some? ==> c'.Decided() == c.Decided() && c'.on == c.on)
    && (c.on.None? && c'.on.Some? ==> c.pc.LookOwner? && c.op.Dispatch? && c'.Decided().None?)
  }

  lemma MoveSettles(mem: Mem, c: Call, choice: HandlerId)
    requires c.WellFormed(mem)
    ensures Settles(c, Move(mem, c, choice).1)
  {
  }

  ghost predicate Grows(s: Sys, s': Sys) {
    && |s.calls| <= |s'.calls| && |s.history| <= |s'.history|
    && (forall n :: 0 <= n < |s.history| ==> s'.history[n] == s.history[n])
    && (forall j :: 0 <= j < |s.calls| ==> Settles(s.calls[j], s'.calls[j]))
  }

  lemma OldEventsFaithful(s: Sys, s': Sys)
    requires HistoryInv(s) && Grows(s, s')
    ensures forall n :: 0 <= n < |s.history| ==> Faithful(s', n)
  {
    forall n | 0 <= n < |s.history| ensures Faithful(s', n) {
      assert Faithful(s, n);
      var e := s.history[n];
      if e.Did? && e.op.Dispatch? && e.on.Some? {
        var m :| 0 <= m < n && s.history[m] == Saw(e.call, e.op.id, e.on.value);
        assert s'.history[m] == s.history[m];
      }
    }
  }

  lemma OldCallsLogged(s: Sys, s': Sys, k: nat)
    requires HistoryInv(s) && Grows(s, s') && k < |s.calls|
    requires s'.calls[k].Decided() == s.calls[k].Decided() && s'.calls[k].on == s.calls[k].on
    ensures Logged(s', k)
  {
    assert Logged(s, k);
  }

  /** The call that moves is logged too, and gets its Did event only once. */
  lemma MoverLogged(s: Sys, k: nat, s': Sys)
    requires HistoryInv(s) && Grows(s, s') && k < |s.calls| == |s'.calls|
    requires s'.history == s.history + NewEvents(k, s.calls[k], s'.calls[k])
    ensures Logged(s', k)
    ensures forall n :: 0 <= n < |s'.history| ==> Faithful(s', n)
    ensures |s'.history| > |s.history| && s'.history[|s.history|].Did? ==>
              forall n :: 0 <= n < |s.history| && s.history[n].Did? ==> s.history[n].call != k
  {
    var c, c' := s.calls[k], s'.calls[k];
    assert Settles(c, c') && Logged(s, k);
    OldEventsFaithful(s, s');
    if c.Decided().None? && c'.Decided().Some? {
      assert s'.history[|s.history|] == Did(k, c'.op, c'.on, c'.Decided().value);
      if c'.op.Dispatch? && c'.on.Some? {
        var m :| 0 <= m < |s.history| && s.history[m] == Saw(k, c'.op.id, c'.on.value);
        assert s'.history[m] == s.history[m];
      }
      forall n | 0 <= n < |s.history| && s.history[n].Did? ensures s.history[n].call != k {
        assert Faithful(s, n);
      }
    } else if c.on.None? && c'.on.Some? {
      assert s'.history[|s.history|] == Saw(k, c'.op.id, c'.on.value);
    } else if c.pc.LookOwner? && c.op.Dispatch? && c'.on.Some? {
      assert s'.history[|s.history|] == Saw(k, c'.op.id, c'.on.value);
      OldCallsLogged(s, s', k);
    } else {
      OldCallsLogged(s, s', k);
    }
  }

  lemma AdvanceKeepsHistory(s: Sys, k: nat, s': Sys)
    requires HistoryInv(s) && k < |s.calls| == |s'.calls| && s'.calls == s.calls[k := s'.calls[k]]
    requires Settles(s.calls[k], s'.calls[k])
    requires s'.history == s.history + NewEvents(k, s.calls[k], s'.calls[k])
    ensures HistoryInv(s')
  {
    assert Grows(s, s');
    MoverLogged(s, k, s');
    forall j | 0 <= j < |s'.calls| ensures Logged(s', j) {
      if j != k {
        OldCallsLogged(s, s', j);
      }
    }
  }

  lemma StepKeepsHistory(s: Sys, s': Sys)
    requires AllOk(s) && HistoryInv(s) && Next(s, s')
    ensures HistoryInv(s')
  {
    var step :| StepBy(s, step, s');
    if step.Advance? {
      MoveSettles(s.mem, s.calls[step.call], step.choice);
      AdvanceKeepsHistory(s, step.call, s');
    } else {
      OtherKeepsHistory(s, s');
    }
  }

  /** A new call, or a transport that comes or goes. */
  lemma OtherKeepsHistory(s: Sys, s': Sys)
    requires HistoryInv(s) && |s.calls| <= |s'.calls| <= |s.calls| + 1 && |s.history| <= |s'.history| <= |s.history| + 1
    requires s'.calls[..|s.calls|] == s.calls && s'.history[..|s.history|] == s.history
    requires |s'.calls| > |s.calls| ==> s'.calls[|s.calls|] == Start(s'.calls[|s.calls|].op)
    requires |s'.history| > |s.history| ==> s'.history[|s.history|].Added? || s'.history[|s.history|].Died?
    ensures HistoryInv(s')
  {
    assert forall j :: 0 <= j < |s.calls| ==> s'.calls[j] == s'.calls[..|s.calls|][j];
    assert forall n :: 0 <= n < |s.history| ==> s'.history[n] == s'.history[..|s.history|][n];
    assert Grows(s, s');
    OldEventsFaithful(s, s');
    forall j | 0 <= j < |s'.calls| ensures Logged(s', j) {
      if j < |s.calls| {
        OldCallsLogged(s, s', j);
      }
    }
  }

  // ----- runs -----

  /**
   * Linearizability. In every run, replaying the history on the atomic allocator is possible and
   * ends in the stores the last state stands for, and every call that has its answer occurs in
   * that history exactly once, with exactly that answer.
   */
  lemma {:induction false} Linearizable(trace: seq<Sys>) returns (mems: seq<Mem>)
    requires Run(trace)
    ensures var s := trace[|trace| - 1];
      Inv(s) && HistoryInv(s) && Replays(mems, s.history) && mems[|s.history|] == Abs(s)
    ensures forall n :: 0 <= n < |mems| ==> Split(mems[n])
  {
    var s' := trace[|trace| - 1];
    if |trace| == 1 {
      return [s'.mem];
    }
    var s := trace[|trace| - 2];
    var before := Linearizable(trace[..|trace| - 1]);
    assert Next(trace[|trace| - 2], trace[|trace| - 2 + 1]);
    StepRefines(s, s');
    StepKeepsHistory(s, s');
    mems := Extended(before, s, s');
  }

  lemma Extended(before: seq<Mem>, s: Sys, s': Sys) returns (mems: seq<Mem>)
    requires AllOk(s) && AllOk(s') && Replays(before, s.history) && before[|s.history|] == Abs(s)
    requires forall n :: 0 <= n < |before| ==> Split(before[n])
    requires Split(Abs(s'))
    requires |s.history| <= |s'.history| && s'.history[..|s.history|] == s.history
    requires Refines(Abs(s), s'.history[|s.history|..], Abs(s'))
    ensures Replays(mems, s'.history) && mems[|s'.history|] == Abs(s')
    ensures forall n :: 0 <= n < |mems| ==> Split(mems[n])
  {
    var added := s'.history[|s.history|..];
    assert s'.history == s.history + added;
    if added == [] {
      mems := before;
    } else {
      mems := before + [Abs(s')];
      assert s'.history[|s.history|] == added[0];
    }
  }

  /**
   * Whenever the owner-map lock is not write-locked the ids are partitioned, and so they are for
   * every call that holds that lock before its own first change; taking an id, in particular.
   */
  lemma PartitionVisible(trace: seq<Sys>)
    requires Run(trace)
    ensures var s := trace[|trace| - 1];
      && ((forall j :: 0 <= j < |s.calls| ==> !s.calls[j].WritesG()) ==> Split(s.mem))
      && (forall k :: 0 <= k < |s.calls| && s.calls[k].HasG() && !s.calls[k].InFlight() ==> Split(s.mem))
  {
    var s := trace[|trace| - 1];
    var _ := Linearizable(trace);
    forall k | 0 <= k < |s.calls| && s.calls[k].HasG() && !s.calls[k].InFlight() ensures Split(s.mem) {
      AbsOf(s, k);
    }
    match Flyer(s.calls)
    case None =>
    case Some(j) => assert CallOk(s.mem, s.calls[j]); assert s.calls[j].WritesG();
  }

  /**
   * The rollback of a refused config really passes through a state in which an id is both free
   * and mapped while nobody holds the free-set lock; only the owner-map lock hides it.
   */
  lemma RollbackOverlap(trace: seq<Sys>, k: nat)
    requires Run(trace) && k < |trace[|trace| - 1].calls|
    ensures var s := trace[|trace| - 1]; var c := s.calls[k];
      c.pc.UndoOwner? ==>
        && c.pc.id in s.mem.free && c.pc.id in s.mem.owners && c.WritesG()
        && forall j :: 0 <= j < |s.calls| ==> !s.calls[j].HasF()
  {
    var s := trace[|trace| - 1];
    var _ := Linearizable(trace);
    assert CallOk(s.mem, s.calls[k]);
    if s.calls[k].pc.UndoOwner? {
      forall j | 0 <= j < |s.calls| ensures !s.calls[j].HasF() {
        assert CallOk(s.mem, s.calls[j]);
      }
    }
  }

  /**
   * Which guards a call still holds once its answer is known. A get that succeeds drops F, G, B in this
   * order; one that finds no id, and a release, drop B, F, G; a refused mapping leaves B and then G; a
   * refused config leaves only B. A lookup holds the one guard it reads under.
   */
  ghost predicate GuardOrder(c: Call) {
    c.pc.Unwind? ==>
      match c.pc.answer
      case Got(Ok(_)) => (c.pc.f ==> c.pc.g) && (c.pc.g ==> c.pc.b) && c.op.Get?
      case Got(Err(OtherError(code))) =>
        c.op.Get? && if code == RESOURCE_EXHAUSTED then (c.pc.b ==> c.pc.f) && (c.pc.f ==> c.pc.g)
                     else !c.pc.f && (c.pc.b ==> c.pc.g)
      case Got(Err(_)) => !c.pc.g && !c.pc.f && c.op.Get?
      case Released(_) => (c.pc.b ==> c.pc.f) && (c.pc.f ==> c.pc.g) && c.op.Release?
      case NoTransport => !c.pc.f && !c.pc.b && c.op.Dispatch?
      case Found(_) => !c.pc.g && !c.pc.f
  }

  /** The answer a rollback will give, and what an unwinding get remembers about its last guard. */
  ghost predicate Remembers(c: Call) {
    && (c.pc.UndoFreeOnly? ==> c.pc.answer == Got(Err(OtherError(ALREADY_EXISTS))))
    && (c.pc.UndoFree? || c.pc.UndoOwner? ==>
          c.pc.answer.Got? && c.pc.answer.get.Err? && !c.pc.answer.get.error.OtherError?)
    && (c.pc.Unwind? ==> (c.pc.bLast <==> c.pc.answer.Got? && c.pc.answer.get.Ok?))
  }

  lemma MoveKeepsOrder(mem: Mem, c: Call, choice: HandlerId)
    requires c.WellFormed(mem) && !c.Finished() && GuardOrder(c) && Remembers(c)
    ensures var c' := Move(mem, c, choice).1; GuardOrder(c') && Remembers(c')
  {
  }

  lemma {:induction false} GuardsDropInOrder(trace: seq<Sys>, k: nat)
    requires Run(trace) && k < |trace[|trace| - 1].calls|
    ensures GuardOrder(trace[|trace| - 1].calls[k]) && Remembers(trace[|trace| - 1].calls[k])
    decreases |trace|
  {
    var n := |trace| - 1;
    if n > 0 {
      assert Next(trace[n - 1], trace[n - 1 + 1]);
      var step :| StepBy(trace[n - 1], step, trace[n]);
      if k < |trace[n - 1].calls| {
        GuardsDropInOrder(trace[..n], k);
        if step.Advance? && step.call == k {
          MoveKeepsOrder(trace[n - 1].mem, trace[n - 1].calls[k], step.choice);
        }
      }
    }
  }

  // A run that reaches the overlap: two calls, one after the other, register the same config.

  ghost predicate EndsIn(trace: seq<Sys>, s: Sys) {
    Run(trace) && trace[|trace| - 1] == s
  }

  lemma Extend(trace: seq<Sys>, s: Sys, step: Step, s': Sys) returns (longer: seq<Sys>)
    requires EndsIn(trace, s) && StepBy(s, step, s')
    ensures EndsIn(longer, s')
  {
    longer := trace + [s'];
    forall n | 0 <= n < |longer| - 1 ensures Next(longer[n], longer[n + 1]) {
      assert n < |trace| - 1 ==> Next(trace[n], trace[n + 1]);
    }
  }

  /** One step of call `k` while every other call is finished. */
  lemma Alone(trace: seq<Sys>, s: Sys, k: nat, choice: HandlerId) returns (longer: seq<Sys>, s': Sys)
    requires EndsIn(trace, s) && k < |s.calls| && !s.calls[k].Finished() && s.calls[k].WellFormed(s.mem)
    requires s.calls[k].pc.Take? && s.mem.free != {} ==> choice in s.mem.free
    requires forall j :: 0 <= j < |s.calls| && j != k ==> s.calls[j].Finished()
    ensures EndsIn(longer, s')
    ensures var (mem', c') := Move(s.mem, s.calls[k], choice);
      s' == Sys(mem', s.calls[k := c'], s.history + NewEvents(k, s.calls[k], c'))
  {
    var (mem', c') := Move(s.mem, s.calls[k], choice);
    s' := Sys(mem', s.calls[k := c'], s.history + NewEvents(k, s.calls[k], c'));
    longer := Extend(trace, s, Advance(k, choice), s');
  }

  /** A new get of call `k`, up to the point where it holds all three guards. */
  lemma TakesGuards(trace: seq<Sys>, s: Sys, t: TransportId, c: ListenerConfig) returns (longer: seq<Sys>, s': Sys)
    requires EndsIn(trace, s) && t in s.mem.bimaps && t !in s.mem.dead
    requires forall j :: 0 <= j < |s.calls| ==> s.calls[j].Finished()
    ensures EndsIn(longer, s') && s' == s.(calls := s.calls + [Call(Get(t, c), Some(t), Take)])
  {
    var k := |s.calls|;
    var a := s.(calls := s.calls + [Start(Get(t, c))]);
    longer := Extend(trace, s, Begin(Get(t, c)), a);
    longer, a := Alone(longer, a, k, 0);
    longer, a := Alone(longer, a, k, 0);
    longer, s' := Alone(longer, a, k, 0);
  }

  /** From there, with a free id that is not mapped, to the attempt to bind it. */
  lemma TakesId(trace: seq<Sys>, s: Sys, k: nat, t: TransportId, c: ListenerConfig, i: HandlerId)
    returns (longer: seq<Sys>, s': Sys)
    requires EndsIn(trace, s) && t in s.mem.bimaps && t !in s.mem.dead && i in s.mem.free && i !in s.mem.owners
    requires k < |s.calls| && s.calls[k] == Call(Get(t, c), Some(t), Take)
    requires forall j :: 0 <= j < |s.calls| && j != k ==> s.calls[j].Finished()
    ensures EndsIn(longer, s')
    ensures s' == Sys(s.mem.(free := s.mem.free - {i}, owners := s.mem.owners[i := t]),
                      s.calls[k := Call(Get(t, c), Some(t), Bind(i))], s.history)
  {
    var a;
    longer, a := Alone(trace, s, k, i);
    longer, s' := Alone(longer, a, k, i);
  }

  /** A bind that succeeds, to the end of its call. */
  lemma Binds(trace: seq<Sys>, s: Sys, k: nat, t: TransportId, c: ListenerConfig, i: HandlerId)
    returns (longer: seq<Sys>, s': Sys)
    requires EndsIn(trace, s) && t in s.mem.bimaps && t !in s.mem.dead && s.mem.bimaps[t].Accepts(i, c)
    requires k < |s.calls| && s.calls[k] == Call(Get(t, c), Some(t), Bind(i))
    requires forall j :: 0 <= j < |s.calls| && j != k ==> s.calls[j].Finished()
    ensures EndsIn(longer, s') && |s'.calls| == |s.calls|
    ensures forall j :: 0 <= j < |s'.calls| ==> s'.calls[j].Finished()
    ensures s'.mem == s.mem.(bimaps := s.mem.bimaps[t := s.mem.bimaps[t].Insert(i, c)])
  {
    var a;
    longer, a := Alone(trace, s, k, 0);
    longer, a := Alone(longer, a, k, 0);
    longer, a := Alone(longer, a, k, 0);
    longer, s' := Alone(longer, a, k, 0);
  }

  lemma Adds(t: TransportId) returns (trace: seq<Sys>, s: Sys)
    ensures EndsIn(trace, s) && s.mem.bimaps == map[t := EMPTY_BIMAP] && s.mem.owners == map[] && s.mem.dead == {}
    ensures s.calls == [] && forall i: HandlerId :: i in s.mem.free
  {
    var empty := Sys(Mem(IdsBelow(NUM_HANDLERS), map[], map[], {}), [], []);
    trace := [empty];
    s := Sys(empty.mem.(bimaps := map[t := EMPTY_BIMAP]), [], [Added(t)]);
    trace := Extend(trace, empty, AddTransport(t), s);
  }

  /** For every transport and config, a run in which a config is registered. */
  lemma Registers(t: TransportId, c: ListenerConfig) returns (trace: seq<Sys>, s: Sys)
    ensures EndsIn(trace, s) && t in s.mem.bimaps && t !in s.mem.dead && c in s.mem.bimaps[t].byConfig
    ensures 1 in s.mem.free && 1 !in s.mem.owners && s.mem.bimaps[t].byId.Keys == {0}
    ensures forall j :: 0 <= j < |s.calls| ==> s.calls[j].Finished()
  {
    trace, s := Adds(t);
    trace, s := TakesGuards(trace, s, t, c);
    trace, s := TakesId(trace, s, 0, t, c, 0);
    trace, s := Binds(trace, s, 0, t, c, 0);
  }

  /**
   * For every transport and config there is a run that reaches the state of RollbackOverlap, so some
   * id is free and mapped at once while nobody holds the free-set lock.
   */
  lemma OverlapOccurs(t: TransportId, c: ListenerConfig) returns (trace: seq<Sys>, k: nat)
    ensures Run(trace) && k < |trace[|trace| - 1].calls|
    ensures var s := trace[|trace| - 1];
      && s.calls[k] == Call(Get(t, c), Some(t), UndoOwner(1, Got(Err(ListenerConfigAlreadyExists(ExternFn(1))))))
      && 1 in s.mem.free && 1 in s.mem.owners && !Split(s.mem)
  {
    var s;
    trace, s := Registers(t, c);
    k := |s.calls|;
    trace, s := TakesGuards(trace, s, t, c);
    trace, s := TakesId(trace, s, k, t, c, 1);
    trace, s := Alone(trace, s, k, 0);
    trace, s := Alone(trace, s, k, 0);
  }

  lemma HistoryAt(trace: seq<Sys>, i: nat)
    requires Run(trace) && i < |trace|
    ensures Inv(trace[i]) && HistoryInv(trace[i])
  {
    var _ := Linearizable(trace[..i + 1]);
  }

  lemma HistoryStep(trace: seq<Sys>, j: nat)
    requires Run(trace) && 0 < j < |trace|
    ensures |trace[j - 1].history| <= |trace[j].history|
    ensures trace[j].history[..|trace[j - 1].history|] == trace[j - 1].history
  {
    HistoryAt(trace, j - 1);
    assert Next(trace[j - 1], trace[j - 1 + 1]);
    StepRefines(trace[j - 1], trace[j]);
  }

  lemma {:induction false} HistoryGrows(trace: seq<Sys>, i: nat, j: nat)
    requires Run(trace) && i <= j < |trace|
    ensures |trace[i].history| <= |trace[j].history|
    ensures trace[j].history[..|trace[i].history|] == trace[i].history
    decreases j
  {
    if i < j {
      HistoryGrows(trace, i, j - 1);
      HistoryStep(trace, j);
      assert trace[j].history[..|trace[i].history|] == trace[j].history[..|trace[j - 1].history|][..|trace[i].history|];
    }
  }

  /** The history respects real time: a call that answered before another began comes first. */
  lemma RealTimeOrder(trace: seq<Sys>, i: nat, a: nat, b: nat) returns (m: nat, n: nat)
    requires Run(trace) && i < |trace|
    requires a < |trace[i].calls| && trace[i].calls[a].Decided().Some?
    requires |trace[i].calls| <= b < |trace[|trace| - 1].calls| && trace[|trace| - 1].calls[b].Decided().Some?
    ensures var h := trace[|trace| - 1].history;
      m < n < |h| && h[m].Did? && h[m].call == a && h[n].Did? && h[n].call == b
  {
    var s, s' := trace[i], trace[|trace| - 1];
    HistoryAt(trace, i);
    HistoryAt(trace, |trace| - 1);
    HistoryGrows(trace, i, |trace| - 1);
    m, n := LaterEvent(s, a, s', b);
  }

  lemma LaterEvent(s: Sys, a: nat, s': Sys, b: nat) returns (m: nat, n: nat)
    requires HistoryInv(s) && HistoryInv(s') && |s.history| <= |s'.history| && s'.history[..|s.history|] == s.history
    requires a < |s.calls| && s.calls[a].Decided().Some?
    requires |s.calls| <= b < |s'.calls| && s'.calls[b].Decided().Some?
    ensures m < n < |s'.history| && s'.history[m].Did? && s'.history[m].call == a
    ensures s'.history[n].Did? && s'.history[n].call == b
  {
    assert Logged(s, a) && Logged(s', b);
    m :| 0 <= m < |s.history| && s.history[m] == Did(a, s.calls[a].op, s.calls[a].on, s.calls[a].Decided().value);
    n :| 0 <= n < |s'.history| && s'.history[n] == Did(b, s'.calls[b].op, s'.calls[b].on, s'.calls[b].Decided().value);
    assert forall x :: 0 <= x < |s.history| ==> s.history[x] == s'.history[..|s.history|][x] == s'.history[x];
    forall x | 0 <= x < |s.history| && s.history[x].Did? ensures s.history[x].call < |s.calls| {
      assert Faithful(s, x);
    }
  }

  lemma GetEventOutcome(m: Mem, e: Event, m': Mem)
    requires Split(m) && EventSpec(m, e, m') && e.Did? && e.op.Get?
    ensures e.answer.Got? && e.op.transport in m.bimaps
    ensures e.answer.get.Err? <==> m.free == {} || e.op.config in m.bimaps[e.op.transport].byConfig
  {
    var t := e.op.transport;
    assert Partitioned(At(m, t), t);
    GetOutcome(At(m, t), t, e.op.config, e.answer.get, At(m', t));
  }

  /** In runs a get fails exactly on an empty pool or a duplicate config, judged where it takes effect. */
  lemma GetFailsExactlyWhen(trace: seq<Sys>, k: nat) returns (mems: seq<Mem>, n: nat)
    requires Run(trace) && k < |trace[|trace| - 1].calls|
    requires trace[|trace| - 1].calls[k].op.Get? && trace[|trace| - 1].calls[k].Decided().Some?
    ensures var s := trace[|trace| - 1]; var c := s.calls[k];
      && Replays(mems, s.history) && n < |s.history|
      && c.Decided().value.Got? && s.history[n] == Did(k, c.op, c.on, c.Decided().value)
      && c.op.transport in mems[n].bimaps
      && (c.Decided().value.get.Err? <==>
            mems[n].free == {} || c.op.config in mems[n].bimaps[c.op.transport].byConfig)
  {
    var s := trace[|trace| - 1];
    var c := s.calls[k];
    mems := Linearizable(trace);
    assert Logged(s, k);
    n :| 0 <= n < |s.history| && s.history[n] == Did(k, c.op, c.on, c.Decided().value);
    GetEventOutcome(mems[n], s.history[n], mems[n + 1]);
  }

  // ----- dispatch -----

  ghost predicate Frees(m: Mem, e: Event, t: TransportId, i: HandlerId) {
    && e.Did? && e.op.Release? && e.op.transport == t && e.answer == Released(Ok(()))
    && t in m.bimaps && e.op.config in m.bimaps[t].byConfig && m.bimaps[t].byConfig[e.op.config] == i
  }

  /** Only a successful release takes an id out of a bimap. */
  lemma OnlyReleaseFrees(m: Mem, e: Event, m': Mem, t: TransportId, i: HandlerId)
    requires EventSpec(m, e, m') && t in m.bimaps && i in m.bimaps[t].byId
    ensures t in m'.bimaps
    ensures i in m'.bimaps[t].byId || Frees(m, e, t, i)
  {
    if e.Did? && e.op.Release? && e.op.transport == t && e.op.config in m.bimaps[t].byConfig {
      var j := m.bimaps[t].byConfig[e.op.config];
      assert m'.bimaps[t].byId == m.bimaps[t].byId - {j};
    }
  }

  lemma {:induction false} FreedBetween(mems: seq<Mem>, h: seq<Event>, t: TransportId, i: HandlerId, lo: nat, hi: nat)
    returns (n: nat)
    requires Replays(mems, h) && lo <= hi < |mems|
    requires t in mems[lo].bimaps && i in mems[lo].bimaps[t].byId
    requires t in mems[hi].bimaps ==> i !in mems[hi].bimaps[t].byId
    ensures lo <= n < hi && Frees(mems[n], h[n], t, i)
    decreases hi - lo
  {
    if lo < hi {
      OnlyReleaseFrees(mems[lo], h[lo], mems[lo + 1], t, i);
      if Frees(mems[lo], h[lo], t, i) {
        n := lo;
      } else {
        n := FreedBetween(mems, h, t, i, lo + 1, hi);
      }
    }
  }

  /**
   * Dispatch soundness with releases and drops interleaved. The owner lookup `m1` and the listener
   * lookup `m2` are two points of the history, and the transport found is alive at both: the
   * upgraded reference keeps it so. The listener delivered is the one whose config holds the id in
   * that transport at `m2`; "Listener not found" needs a release of that very id by that transport
   * between the two lookups; "no transport" means that the id is free or its owner dead.
   */
  lemma DispatchSound(trace: seq<Sys>, k: nat) returns (mems: seq<Mem>, m1: nat, m2: nat, n: nat)
    requires Run(trace) && k < |trace[|trace| - 1].calls|
    requires trace[|trace| - 1].calls[k].op.Dispatch? && trace[|trace| - 1].calls[k].Decided().Some?
    ensures var s := trace[|trace| - 1]; var c := s.calls[k]; var i := c.op.id;
      && Replays(mems, s.history) && m2 < |s.history|
      && (c.Decided() == Some(NoTransport) ==> i in mems[m2].free || (i in mems[m2].owners && mems[m2].owners[i] in mems[m2].dead))
      && (c.Decided() != Some(NoTransport) ==>
            && c.on.Some? && m1 < m2 && i in mems[m1].owners && mems[m1].owners[i] == c.on.value
            && c.on.value !in mems[m1].dead && c.on.value in mems[m2].bimaps && c.on.value !in mems[m2].dead
            && c.Decided() == Some(Found(ListenerOf(mems[m2].bimaps[c.on.value], i)))
            && (c.Decided() == Some(Found(None)) ==> m1 < n < m2 && Frees(mems[n], s.history[n], c.on.value, i)))
  {
    var s := trace[|trace| - 1];
    var c := s.calls[k];
    mems := Linearizable(trace);
    assert Logged(s, k);
    m1, n := 0, 0;
    m2 :| 0 <= m2 < |s.history| && s.history[m2] == Did(k, c.op, c.on, c.Decided().value);
    assert Faithful(s, m2) && EventSpec(mems[m2], s.history[m2], mems[m2 + 1]) && Split(mems[m2]);
    if c.Decided() != Some(NoTransport) {
      m1 :| 0 <= m1 < m2 && s.history[m1] == Saw(k, c.op.id, c.on.value);
      assert EventSpec(mems[m1], s.history[m1], mems[m1 + 1]) && Split(mems[m1]);
      if c.Decided() == Some(Found(None)) {
        n := FreedBetween(mems, s.history, c.on.value, c.op.id, m1, m2);
        assert n != m1;
      }
    }
  }

  // ----- progress -----

  /** Whoever waits is waiting for a call that can move. */
  lemma Unblocked(s: Sys, k: nat) returns (j: nat)
    requires AllOk(s) && ExclusiveG(s.calls) && k < |s.calls| && !s.calls[k].Finished()
    ensures j < |s.calls| && CanMove(s.calls, j)
  {
    var c := s.calls[k];
    assert CallOk(s.mem, c);
    if CanMove(s.calls, k) {
      j := k;
    } else if c.HasG() {
      j := HolderOfG(s, k);
    } else if c.pc.WantBRead? {
      j := HolderOfB(s, k);
    } else {
      var h :| 0 <= h < |s.calls| && h != k && s.calls[h].HasG();
      j := HolderOfG(s, h);
    }
  }

  /** A call waiting for a bimap lock waits for a call that waits for nothing. */
  lemma HolderOfB(s: Sys, k: nat) returns (j: nat)
    requires AllOk(s) && k < |s.calls| && !CanMove(s.calls, k)
    requires s.calls[k].on.Some? && (s.calls[k].pc.WantB? || s.calls[k].pc.WantBRead?)
    ensures j < |s.calls| && CanMove(s.calls, j)
  {
    var t := s.calls[k].on.value;
    j :| 0 <= j < |s.calls| && j != k && s.calls[j].HasB(t);
    var d := s.calls[j];
    assert d.HasB(t);
    assert d.Working() || d.pc.UndoOwner? || d.pc.LookConfig? || (d.pc.Unwind? && d.pc.b);
  }

  /** A call with a guard of G moves, or waits for a bimap lock. */
  lemma HolderOfG(s: Sys, h: nat) returns (j: nat)
    requires AllOk(s) && ExclusiveG(s.calls) && h < |s.calls| && s.calls[h].HasG()
    ensures j < |s.calls| && CanMove(s.calls, j)
  {
    var c := s.calls[h];
    assert CallOk(s.mem, c);
    if c.pc.WantF? {
      forall i | 0 <= i < |s.calls| && i != h ensures !s.calls[i].HasF() {
        assert CallOk(s.mem, s.calls[i]);
      }
      j := h;
    } else if c.pc.WantB? && !CanMove(s.calls, h) {
      j := HolderOfB(s, h);
    } else {
      j := h;
    }
  }

  /** No deadlock: in every run, while some call is unfinished, some call can step. */
  lemma NoDeadlock(trace: seq<Sys>, k: nat) returns (step: Step, s': Sys)
    requires Run(trace) && k < |trace[|trace| - 1].calls| && !trace[|trace| - 1].calls[k].Finished()
    ensures step.Advance? && StepBy(trace[|trace| - 1], step, s')
  {
    var s := trace[|trace| - 1];
    var _ := Linearizable(trace);
    var j := Unblocked(s, k);
    assert CallOk(s.mem, s.calls[j]);
    var choice: HandlerId := 0;
    if s.mem.free != {} {
      choice :| choice in s.mem.free;
    }
    step := Advance(j, choice);
    var (mem', c') := Move(s.mem, s.calls[j], choice);
    s' := Sys(mem', s.calls[j := c'], s.history + NewEvents(j, s.calls[j], c'));
  }

  /** Steps a call may still take. */
  function Work(c: Call): nat {
    match c.pc
    case WantG => 20
    case WantF => 19
    case WantB => 18
    case Take => 17
    case Find => 17
    case MapOwner(_) => 16
    case Bind(_) => 15
    case UndoFreeOnly(_, _) => 14
    case UndoFree(_, _) => 14
    case UndoOwner(_, _) => 13
    case RelFree(_) => 16
    case RelOwner(_) => 15
    case RelBind(_) => 14
    case LookOwner => 16
    case DropOwner => 15
    case WantBRead => 14
    case LookConfig => 13
    case Unwind(g, f, b, _, _) => (if g then 1 else 0) + (if f then 1 else 0) + (if b then 1 else 0)
  }

  function TotalWork(calls: seq<Call>): nat {
    if calls == [] then 0 else Work(calls[0]) + TotalWork(calls[1..])
  }

  lemma {:induction false} TotalWorkUpdate(calls: seq<Call>, k: nat, c: Call)
    requires k < |calls|
    ensures TotalWork(calls[k := c]) == TotalWork(calls) - Work(calls[k]) + Work(c)
    decreases |calls|
  {
    if k == 0 {
      assert calls[k := c][1..] == calls[1..];
    } else {
      assert calls[k := c][1..] == calls[1..][k - 1 := c];
      TotalWorkUpdate(calls[1..], k - 1, c);
    }
  }

  lemma MoveDoesWork(mem: Mem, c: Call, choice: HandlerId)
    requires c.WellFormed(mem) && !c.Finished()
    ensures Work(Move(mem, c, choice).1) < Work(c)
  {
  }

  ghost predicate Moved(s: Sys, s': Sys) {
    exists k: nat, choice: HandlerId :: StepBy(s, Advance(k, choice), s')
  }

  /**
   * Termination: once no new call begins, a schedule has at most TotalWork steps, whatever its
   * order. With NoDeadlock, every schedule that is continued as long as possible finishes every call.
   */
  lemma {:induction false} SchedulesEnd(trace: seq<Sys>)
    requires |trace| > 0
    requires forall n :: 0 <= n < |trace| - 1 ==> Moved(trace[n], trace[n + 1])
    ensures |trace| - 1 + TotalWork(trace[|trace| - 1].calls) <= TotalWork(trace[0].calls)
  {
    if |trace| > 1 {
      assert Moved(trace[0], trace[0 + 1]);
      var k: nat, choice: HandlerId :| StepBy(trace[0], Advance(k, choice), trace[1]);
      MoveDoesWork(trace[0].mem, trace[0].calls[k], choice);
      TotalWorkUpdate(trace[0].calls, k, trace[1].calls[k]);
      assert trace[1].calls == trace[0].calls[k := trace[1].calls[k]];
      forall n | 0 <= n < |trace[1..]| - 1 ensures Moved(trace[1..][n], trace[1..][n + 1]) {
        assert Moved(trace[n + 1], trace[n + 1 + 1]);
      }
      SchedulesEnd(trace[1..]);
    }
  }
}
