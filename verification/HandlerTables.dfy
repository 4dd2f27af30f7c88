/** The handler tables of the library in whole runs. */
module HandlerTables {
  import opened Wrappers
  import opened Uris
  import opened StatusCodes
  import opened Allocator
  import opened RpcCorrelation
  import opened EngineLog
  import opened Transports
  import opened Worlds

  /** Every engine command completes, and a registered config has agreeing keys. */
  predicate Clean(step: Step) {
    match step
    case Register(_, o, got, outcome) => got.Err? || (outcome == Completed && o.Admitted() && Agrees(o.Config()))
    case Unregister(_, _, outcome, _) => outcome == Completed
    case DropOne(_, outcome, _) => outcome == Completed
    case _ => true
  }

  ghost predicate TablesSafe(w: World) {
    forall t :: t in w.lives && t in w.mem.bimaps ==> TableSafe(w.mem.bimaps[t], w.lives[t].table)
  }

  lemma OneTable(w: World, t: TransportId, w': World)
    requires TablesSafe(w) && t in w'.mem.bimaps && t in w'.lives
    requires w'.mem.bimaps == w.mem.bimaps[t := w'.mem.bimaps[t]] && w'.lives == w.lives[t := w'.lives[t]]
    requires TableSafe(w'.mem.bimaps[t], w'.lives[t].table)
    ensures TablesSafe(w')
  {
    forall u | u in w'.lives && u in w'.mem.bimaps ensures TableSafe(w'.mem.bimaps[u], w'.lives[u].table) {
      assert u != t ==> TableSafe(w.mem.bimaps[u], w.lives[u].table);
    }
  }

  lemma EnteredTable(s: Stores, t: TransportId, life: Life, o: Origin, got: GetResult, outcome: EngineOutcome, s': Stores)
    requires TableSafe(s.configs, life.table) && o.Admitted()
    requires got.Err? || (outcome == Completed && Agrees(o.Config()))
    requires GetSpec(s, t, o.Config(), got, s')
    ensures TableSafe(s'.configs, Entered(life, o.Config(), o.Given(), got, outcome).table)
  {
    OriginStable(o);
    KeysExist(o.Config());
    if got.Ok? {
      RegisterKeepsTable(s, t, o.Config(), got, s', life.table);
    }
  }

  /** The release steps, and those that leave every table alone. */
  lemma ReleaseKeepsTables(w: World, t: TransportId, c: ListenerConfig, r: Result<(), UCode>, w': World)
    requires TablesSafe(w) && Alive(w, t) && Alive(w', t) && OnlyBiMap(w.mem, t, w'.mem) && TypeOf(c) != AllPointToPoint
    requires ReleaseSpec(LockSteps.At(w.mem, t), c, r, LockSteps.At(w'.mem, t))
    requires w'.lives == w.lives[t := w'.lives[t]] && w'.lives[t].table == Cleared(w.lives[t].table, c, Completed)
    ensures TablesSafe(w')
  {
    KeysExist(c);
    UnregisterKeepsTable(LockSteps.At(w.mem, t), c, r, LockSteps.At(w'.mem, t), w.lives[t].table);
    OneTable(w, t, w');
  }

  lemma CleanStepKeepsTables(build: Build, w: World, step: Step, w': World)
    requires Inv(w) && StepBy(build, w, step, w') && Clean(step) && TablesSafe(w)
    ensures TablesSafe(w')
  {
    var t := step.t;
    match step
    case Create(_) => OneTable(w, t, w');
    case Register(_, o, got, outcome) =>
      EnteredTable(LockSteps.At(w.mem, t), t, w.lives[t], o, got, outcome, LockSteps.At(w'.mem, t));
      OneTable(w, t, w');
    case Unregister(_, c, _, released) => ReleaseKeepsTables(w, t, c, released.value, w');
    case SendRequest(_) => OneTable(w, t, w');
    case BeginDrop(_, _) => OneTable(w, t, w');
    case DropOne(_, _, r) =>
      DropHead(w, t);
      ReleaseKeepsTables(w, t, w.lives[t].dropping.value[0], r, w');
    case EndDrop(_) => GoneTables(w, t, w');
    case AbortDrop(_) => GoneTables(w, t, w');
  }

  lemma GoneTables(w: World, t: TransportId, w': World)
    requires TablesSafe(w) && w' == Gone(w, t)
    ensures TablesSafe(w')
  {
    forall u | u in w'.lives && u in w'.mem.bimaps ensures TableSafe(w'.mem.bimaps[u], w'.lives[u].table) {
      assert TableSafe(w.mem.bimaps[u], w.lives[u].table);
    }
  }

  lemma {:induction false} CleanRunKeepsTables(build: Build, trace: seq<World>, steps: seq<Step>, n: nat)
    requires Run(build, trace, steps) && n < |trace| && forall k :: 0 <= k < |steps| ==> Clean(steps[k])
    ensures TablesSafe(trace[n])
    decreases n
  {
    if n > 0 {
      CleanRunKeepsTables(build, trace, steps, n - 1);
      RunKeeps(build, trace, steps, n - 1);
      CleanStepKeepsTables(build, trace[n - 1], steps[n - 1], trace[n]);
    }
  }

  lemma RequestClean(build: Build, w: World, step: Step, w': World)
    requires StepBy(build, w, step, w') && Completes(step)
    ensures Clean(step)
  {
    if step.Register? {
      OriginStable(step.origin);
      KeysAgree(step.origin.Config().source, step.origin.Config().sink);
    }
  }

  /** Registrations are of Request type, and every command completes. */
  predicate Completes(step: Step) {
    && (step.Register? && step.got.Ok? ==> step.outcome == Completed && step.origin.Given() == Request)
    && (step.Unregister? || step.DropOne? ==> step.outcome == Completed)
  }

  lemma TableAllocated(m: Mem, t: TransportId, table: Table)
    requires LockSteps.Split(m) && t in m.bimaps && TableSafe(m.bimaps[t], table)
    ensures forall key :: key in table ==>
      table[key].id !in m.free && table[key].id in m.owners && m.owners[table[key].id] == t
  {
  }

  /**
   * In every run whose registrations are of Request type and whose engine commands complete, no
   * callback id is both in a library table and free: it belongs to the transport of that table.
   */
  lemma RequestTableSafe(build: Build, trace: seq<World>, steps: seq<Step>, n: nat, t: TransportId)
    requires Run(build, trace, steps) && n < |trace| && t in trace[n].lives
    requires forall k :: 0 <= k < |steps| ==> Completes(steps[k])
    ensures forall key :: key in trace[n].lives[t].table ==>
      var i := trace[n].lives[t].table[key].id;
      i !in trace[n].mem.free && i in trace[n].mem.owners && trace[n].mem.owners[i] == t
  {
    forall k | 0 <= k < |steps| ensures Clean(steps[k]) {
      RequestClean(build, trace[k], steps[k], trace[k + 1]);
    }
    CleanRunKeepsTables(build, trace, steps, n);
    RunKeeps(build, trace, steps, n);
    TableAllocated(trace[n].mem, t, trace[n].lives[t].table);
  }
}
