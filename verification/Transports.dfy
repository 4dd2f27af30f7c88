/**
 * One transport (lib.rs and transport.rs) over the allocator and the engine: register, unregister,
 * point-to-point registration, send with automatic response registration, and Drop. What a running
 * engine does with a command is left open, except that it cannot report success without having run
 * it. An engine that has stopped makes every call that needs it panic; Engine.StopsExactlyWhen says
 * when an engine stops.
 */
module Transports {
  import opened Wrappers
  import opened Uris
  import opened StatusCodes
  import opened Allocator
  import opened Allocation
  import opened RpcCorrelation
  import opened Conversions
  import opened EngineLog
  import Engine

  /** What became of a command; Stopped is the closed command channel of an engine that has ended. */
  datatype EngineOutcome = Completed | RanButFailed | NotRun | Stopped
  {
    predicate Ran() { Completed? || RanButFailed? }
  }

  /** What a running engine makes of a command. */
  type EngineAnswer = o: EngineOutcome | o != Stopped witness Completed

  /** The answer to the n-th command. */
  function Ask(answers: nat -> EngineAnswer, n: nat): EngineAnswer {
    answers(n)
  }

  /** What a command does to the library's handler table. */
  function TableStep(table: Table, cmd: Engine.Command, o: EngineOutcome): Table {
    if !o.Ran() then table
    else if cmd.RegisterListener? && TableKey(cmd.kind, cmd.source, cmd.sink).Some? then
      table[TableKey(cmd.kind, cmd.source, cmd.sink).value := cmd.handler]
    else if cmd.UnregisterListener? && UntableKey(cmd.kind, cmd.source, cmd.sink).Some? then
      table - {UntableKey(cmd.kind, cmd.source, cmd.sink).value}
    else table
  }

  /**
   * A command that ran in the engine has exactly this effect on the table, also if its caller saw no
   * success; one that did not run has none.
   */
  lemma TableStepIsHandle(st: Engine.EngineState, build: Build, cmd: Engine.Command, e: Engine.Env, o: EngineOutcome)
    requires e.appExists
    ensures o == Completed || o == RanButFailed ==> Engine.Handle(st, build, cmd, e).0.table == TableStep(st.table, cmd, o)
    ensures o == NotRun || o == Stopped ==> TableStep(st.table, cmd, o) == st.table
  {
  }

  /** How a call of a transport ends. */
  datatype Ending = Returned(result: Result<(), UCode>) | Aborted

  function TypeOf(c: ListenerConfig): RegistrationType {
    DetermineType(c.source, c.sink)
  }

  function KeyOf(c: ListenerConfig): Option<(u16, u16, u16)> {
    TableKey(TypeOf(c), c.source, c.sink)
  }

  /** Unregistering `c` clears the key its registration writes; EngineLog.KeysAgree says when. */
  predicate Agrees(c: ListenerConfig) {
    KeyOf(c) == UntableKey(TypeOf(c), c.source, c.sink)
  }

  /** The config of one configured service in a point-to-point registration. */
  function ServiceConfig(local: string, service: (u16, u16), l: Listener): ListenerConfig {
    ListenerConfig(ANY_URI, Some(ServiceSink(local, service.0, service.1)), l)
  }

  /** The configs of all configured services. */
  function ServiceConfigs(local: string, services: seq<(u16, u16)>, l: Listener): set<ListenerConfig> {
    set k | 0 <= k < |services| :: ServiceConfig(local, services[k], l)
  }

  lemma ServiceConfigsGrow(local: string, services: seq<(u16, u16)>, n: nat, l: Listener)
    requires n < |services|
    ensures ServiceConfigs(local, services[..n + 1], l)
         == ServiceConfigs(local, services[..n], l) + {ServiceConfig(local, services[n], l)}
  {
    var a, b := ServiceConfigs(local, services[..n + 1], l), ServiceConfigs(local, services[..n], l);
    forall c | c in a ensures c in b + {ServiceConfig(local, services[n], l)} {
      var k :| 0 <= k < n + 1 && c == ServiceConfig(local, services[..n + 1][k], l);
      assert k < n ==> c == ServiceConfig(local, services[..n][k], l);
    }
    forall c | c in b + {ServiceConfig(local, services[n], l)} ensures c in a {
      if c in b {
        var k :| 0 <= k < n && c == ServiceConfig(local, services[..n][k], l);
        assert c == ServiceConfig(local, services[..n + 1][k], l);
      } else {
        assert c == ServiceConfig(local, services[..n + 1][n], l);
      }
    }
  }

  /** The loop over configured services meets its own configs again only for a repeated service. */
  lemma ServiceConfigRepeats(local: string, services: seq<(u16, u16)>, n: nat, l: Listener)
    requires n < |services|
    ensures ServiceConfig(local, services[n], l) in ServiceConfigs(local, services[..n], l) <==> services[n] in services[..n]
    ensures TypeOf(ServiceConfig(local, services[n], l)) == Request
  {
    var c := ServiceConfig(local, services[n], l);
    ServiceSinkInjective(local, services[n].0, services[n].1, 0, 0);
    if c in ServiceConfigs(local, services[..n], l) {
      var k :| 0 <= k < n && c == ServiceConfig(local, services[..n][k], l);
      ServiceSinkInjective(local, services[n].0, services[n].1, services[k].0, services[k].1);
      assert services[..n][k] == services[n];
    }
    if services[n] in services[..n] {
      var k :| 0 <= k < n && services[..n][k] == services[n];
      assert c == ServiceConfig(local, services[..n][k], l);
    }
  }

  /** The callback of a service is registered for that service, any instance and any method. */
  lemma ServiceListens(local: string, service: (u16, u16), l: Listener)
    ensures KeyOf(ServiceConfig(local, service, l)) == Some((service.0, 0xFFFF, 0xFFFF))
    ensures ServiceConfig(local, service, l)
         == ListenerConfig(UUri("*", 0xFFFF_FFFF, 0xFF, 0xFFFF),
                           Some(UUri(local, service.1 * 0x1_0000 + service.0, 0xFF, 0xFFFF)), l)
  {
    ServiceFilters(local, service.0, service.1);
    ServiceConfigRepeats(local, [service], 0, l);
  }

  /** The filter under which the response to a request comes back to the point-to-point listener. */
  function Route(source: UUri, sink: UUri, l: Listener): ListenerConfig {
    ListenerConfig(sink, Some(source), l)
  }

  /** What UAttributesValidators guarantees of the attributes it accepts. */
  predicate Validated(m: UMessage) {
    match m.kind
    case PUBLISH => m.source.Some? && m.sink.None?
    case REQUEST => m.source.Some? && m.sink.Some? && m.source.value.resource == 0
                    && m.sink.value.resource != 0 && !WildcardResource(m.sink.value)
    case RESPONSE => m.source.Some? && m.sink.Some? && m.sink.value.resource == 0
    case NOTIFICATION => m.source.Some? && m.sink.Some? && m.sink.value.resource == 0
    case UNSPECIFIED => false
  }

  /** A validated message classified Request is a Request, and its route is a Response filter. */
  lemma RouteIsResponse(m: UMessage, l: Listener)
    requires Validated(m) && DetermineType(m.source.value, m.sink) == Request
    ensures m.kind == REQUEST && TypeOf(Route(m.source.value, m.sink.value, l)) == Response
  {
    SwappedRequestIsResponse(m.source.value, m.sink.value);
  }

  /** Every stored config is classified as it was when it was handed to the engine, and never AllPointToPoint. */
  ghost predicate Stable(configs: BiMap, given: map<ListenerConfig, RegistrationType>) {
    forall c :: c in configs.byConfig ==> c in given && given[c] == TypeOf(c) && TypeOf(c) != AllPointToPoint
  }

  /** Each handler in the library's table is the callback of a stored config with that key. */
  ghost predicate TableSafe(configs: BiMap, table: Table) {
    && (forall c :: c in configs.byConfig ==> Agrees(c))
    && (forall key :: key in table ==> table[key].id in configs.byId && KeyOf(configs.byId[table[key].id]) == Some(key))
  }

  lemma RegisterKeepsTable(s: Stores, t: TransportId, c: ListenerConfig, r: GetResult, s': Stores, table: Table)
    requires GetSpec(s, t, c, r, s') && r.Ok? && TableSafe(s.configs, table) && Agrees(c) && KeyOf(c).Some?
    ensures TableSafe(s'.configs, table[KeyOf(c).value := r.value])
  {
    BoundTable(s.configs, r.value, c, s'.configs, table);
  }

  lemma BoundTable(b: BiMap, fn: ExternFn, c: ListenerConfig, b': BiMap, table: Table)
    requires TableSafe(b, table) && Agrees(c) && KeyOf(c).Some?
    requires b.Accepts(fn.id, c) && b'.byId == b.byId[fn.id := c] && b'.byConfig == b.byConfig[c := fn.id]
    ensures TableSafe(b', table[KeyOf(c).value := fn])
  {
  }

  lemma UnregisterKeepsTable(s: Stores, c: ListenerConfig, r: Result<(), UCode>, s': Stores, table: Table)
    requires ReleaseSpec(s, c, r, s') && TableSafe(s.configs, table)
    requires UntableKey(TypeOf(c), c.source, c.sink).Some?
    ensures TableSafe(s'.configs, table - {UntableKey(TypeOf(c), c.source, c.sink).value})
  {
    var key := UntableKey(TypeOf(c), c.source, c.sink).value;
    if c in s.configs.byConfig {
      var id := s.configs.byConfig[c];
      assert s.configs.byId[id] == c && Agrees(c);
      assert s'.configs.byId == s.configs.byId - {id};
    }
  }

  /**
   * The exact condition: registering a config and unregistering it again, both commands completing,
   * leaves its callback id free and still in the library's table if and only if the keys disagree,
   * or an earlier owner of the id had left it there under another key.
   */
  lemma StaleHandlerIff(s: Stores, t: TransportId, c: ListenerConfig, g: GetResult, s1: Stores,
                        r: Result<(), UCode>, s2: Stores, table: Table)
    requires GetSpec(s, t, c, g, s1) && g.Ok? && ReleaseSpec(s1, c, r, s2)
    requires TypeOf(c) != AllPointToPoint
    ensures KeyOf(c).Some? && UntableKey(TypeOf(c), c.source, c.sink).Some?
    ensures var un := UntableKey(TypeOf(c), c.source, c.sink).value;
      && g.value.id in s2.free
      && (g.value in (table[KeyOf(c).value := g.value] - {un}).Values <==>
            !Agrees(c) || exists k :: k in table && k != un && table[k] == g.value)
  {
    ReleaseUndoesGet(s, t, c, g, s1, r, s2);
    var key, un := KeyOf(c).value, UntableKey(TypeOf(c), c.source, c.sink).value;
    var table2 := table[key := g.value] - {un};
    if g.value in table2.Values {
      var k :| k in table2 && table2[k] == g.value;
      assert k == key ==> !Agrees(c);
      assert k != key ==> k in table && k != un && table[k] == g.value;
    }
    if !Agrees(c) {
      assert key in table2 && table2[key] == g.value;
    }
    if k :| k in table && k != un && table[k] == g.value {
      assert k in table2 && table2[k] == g.value;
    }
  }

  lemma KeysExist(c: ListenerConfig)
    requires TypeOf(c) != AllPointToPoint
    ensures KeyOf(c).Some? && UntableKey(TypeOf(c), c.source, c.sink).Some?
  {
  }

  datatype SendOutcome = Sent(result: Result<(), UCode>) | Rejected(code: UCode) | Panicked

  function RegisterCommand(c: ListenerConfig, kind: RegistrationType, fn: ExternFn, channel: nat): Engine.Command {
    Engine.RegisterListener(c.source, c.sink, kind, fn, channel)
  }

  function UnregisterCommand(c: ListenerConfig, channel: nat): Engine.Command {
    Engine.UnregisterListener(c.source, c.sink, TypeOf(c), channel)
  }

  /** One unregister command for each of the first `n` configs in order; the channel of a command is its number. */
  function UnregisterCommands(all: seq<ListenerConfig>, n: nat, first: nat): seq<Engine.Command>
    requires n <= |all|
  {
    seq(n, k requires 0 <= k < n => UnregisterCommand(all[k], first + k))
  }

  /** One register command for each config in order. */
  function RegisterCommands(all: seq<ListenerConfig>, kind: RegistrationType, fns: seq<ExternFn>, first: nat)
    : seq<Engine.Command>
    requires |fns| == |all|
  {
    seq(|all|, k requires 0 <= k < |all| => RegisterCommand(all[k], kind, fns[k], first + k))
  }

  /** Each config is stored under the id of its callback. */
  ghost predicate Bound(b: BiMap, all: seq<ListenerConfig>, fns: seq<ExternFn>) {
    |fns| == |all| && forall k :: 0 <= k < |all| ==> all[k] in b.byConfig && b.byConfig[all[k]] == fns[k].id
  }

  /** The configs of the first `n` services, in order. */
  function ServiceList(local: string, services: seq<(u16, u16)>, n: nat, l: Listener): (r: seq<ListenerConfig>)
    requires n <= |services|
    ensures |r| == n && forall k :: 0 <= k < n ==> r[k] == ServiceConfig(local, services[k], l)
  {
    seq(n, k requires 0 <= k < n => ServiceConfig(local, services[k], l))
  }

  class Transport {
    const id: TransportId
    const statics: HandlerStatics
    const registry: MessageHandlerRegistry
    const local: string
    const build: Build
    /** The (service, instance) pairs of the configuration file, or why there are none. */
    const services: Result<seq<(u16, u16)>, UCode>
    /** What the engine will answer to the n-th command, as long as it runs. */
    const answers: nat -> EngineAnswer
    var p2p: Option<Listener>
    /** How many session ids the Requests of this transport have taken. */
    var taken: nat
    /** The commands sent to the engine so far. */
    var commands: seq<Engine.Command>

    /** The type each config was handed to the engine with. */
    ghost var given: map<ListenerConfig, RegistrationType>

    /** A new transport whose identity is not in the owner map. */
    constructor (id: TransportId, statics: HandlerStatics, local: string, build: Build,
                 services: Result<seq<(u16, u16)>, UCode>, answers: nat -> EngineAnswer)
      requires forall i: HandlerId :: i in statics.free <==> i !in statics.owners
      requires id !in statics.owners.Values
      ensures Valid() && S().configs == EMPTY_BIMAP && p2p == None && taken == 0 && commands == []
      ensures this.id == id && this.statics == statics && this.local == local && this.build == build
      ensures this.services == services && this.answers == answers
    {
      this.id, this.statics, this.local, this.build, this.services := id, statics, local, build, services;
      this.answers := answers;
      registry := new MessageHandlerRegistry();
      p2p, taken, commands, given := None, 0, [], map[];
    }

    ghost function S(): Stores
      reads statics, registry
    {
      registry.View(statics)
    }

    /** The engine runs until, in a checked build, the 65535th Request asks for a session id. */
    predicate Running()
      reads this
    {
      Lasts(build, taken)
    }

    /** What becomes of the next command. */
    function Next(): EngineOutcome
      reads this
    {
      if Running() then Ask(answers, |commands|) else Stopped
    }

    ghost predicate Valid()
      reads this, statics, registry
    {
      && Partitioned(S(), id)
      && Stable(registry.configs, given)
    }

    /** Hands a command to the engine and waits for its result; a stopped engine does not get it. */
    method EngineCommand(cmd: Engine.Command) returns (outcome: EngineOutcome)
      modifies this`commands
      ensures outcome == old(Next())
      ensures commands == old(commands) + (if Running() then [cmd] else [])
    {
      if !Running() {
        return Stopped;
      }
      outcome := Ask(answers, |commands|);
      commands := commands + [cmd];
    }

    /** get_message_handler followed by the engine command; a failing command or a panic keeps the id. */
    method RegisterConfig(c: ListenerConfig, kind: RegistrationType) returns (r: GetResult, outcome: EngineOutcome)
      requires Valid() && kind == TypeOf(c) && kind != AllPointToPoint
      modifies this`given, this`commands, statics, registry
      ensures Valid()
      ensures r.Err? <==> old(S()).free == {} || c in Configs(old(S()))
      ensures r.Err? && r.error.ListenerConfigAlreadyExists? <==> old(S()).free != {} && c in Configs(old(S()))
      ensures GetSpec(old(S()), id, c, r, S())
      ensures r.Ok? ==> Allocated(old(S()), id, {c}, S()) && given == old(given)[c := kind]
      ensures r.Ok? ==> outcome == old(Next())
      ensures commands == old(commands)
        + (if r.Ok? && Running() then [RegisterCommand(c, kind, r.value, |old(commands)|)] else [])
      ensures r.Err? ==> S() == old(S()) && given == old(given) && outcome == NotRun
    {
      r := registry.GetMessageHandler(statics, id, c);
      GetOutcome(old(S()), id, c, r, S());
      if r.Err? {
        return r, NotRun;
      }
      AllocatedOne(old(S()), id, c, r, S());
      outcome := EngineCommand(RegisterCommand(c, kind, r.value, |commands|));
      given := given[c := kind];
    }

    /**
     * The engine command and then the release. A stopped engine panics before the release; a failing
     * command prevents it unless `always`.
     */
    method ReleaseConfig(c: ListenerConfig, always: bool)
      returns (outcome: EngineOutcome, released: Option<Result<(), UCode>>)
      requires Valid() && TypeOf(c) != AllPointToPoint
      modifies this`commands, statics, registry
      ensures Valid()
      ensures outcome == old(Next())
      ensures commands == old(commands) + (if Running() then [UnregisterCommand(c, |old(commands)|)] else [])
      ensures released.Some? <==> outcome == Completed || (always && outcome != Stopped)
      ensures if released.Some? then ReleaseSpec(old(S()), c, released.value, S()) else S() == old(S())
      ensures Allocated(S(), id, if released.Some? then {c} * Configs(old(S())) else {}, old(S()))
    {
      outcome := EngineCommand(UnregisterCommand(c, |commands|));
      if outcome == Stopped || (outcome != Completed && !always) {
        AllocatedNothing(S(), id);
        return outcome, None;
      }
      var r := registry.ReleaseMessageHandler(statics, c);
      released := Some(r);
      ReleaseKeepsPartition(old(S()), id, c, r, S());
      ReleasedOne(old(S()), id, c, r, S());
    }

    /** register_listener of transport.rs */
    method RegisterListener(source: UUri, sink: Option<UUri>, l: Listener)
      returns (r: Ending, ghost added: set<ListenerConfig>, ghost n: nat, ghost fns: seq<ExternFn>)
      requires Valid()
      modifies this, statics, registry
      ensures Valid() && Allocated(old(S()), id, added, S()) && taken == old(taken)
      ensures r == Aborted <==> !Running() && added != {}
      ensures DetermineType(source, sink) != AllPointToPoint ==>
        var c := ListenerConfig(source, sink, l);
        && p2p == old(p2p)
        && added == (if old(S()).free == {} then {} else {c} - Configs(old(S())))
        && (added == {} ==> r == Returned(Err(INTERNAL)) && S() == old(S()))
        && (added != {} ==> (r == Returned(Ok(())) <==> old(Next()) == Completed))
        && (added == {} || !Running() ==> commands == old(commands))
        && (added != {} && Running() ==>
              && c in Configs(S())
              && commands == old(commands) + [RegisterCommand(c, DetermineType(source, sink),
                                                ExternFn(S().configs.byConfig[c]), |old(commands)|)])
      ensures DetermineType(source, sink) == AllPointToPoint ==>
        if services.Ok? && old(p2p).None? then
          && p2p == Some(l) && n <= |services.value|
          && added == ServiceConfigs(local, services.value[..n], l) && ServicesSent(l, n, fns, old(commands))
          && ServicesEnd(Running(), answers, local, services.value, l, n, |old(commands)|, S(), r)
        else
          && added == {} && p2p == old(p2p) && commands == old(commands)
          && r == Returned(Err(if services.Err? then services.error else ALREADY_EXISTS))
      // the filters of the streamer, in numbers
      ensures
        (&& sink.Some? && source.authority != "*" && sink.value.authority != "*"
         && source == UUri(source.authority, 0xFFFF_FFFF, 0xFF, 0xFFFF)
         && sink.value == UUri(sink.value.authority, 0xFFFF_FFFF, 0xFF, 0xFFFF)
         && services.Ok? && old(p2p).None?) ==> p2p == Some(l)
    {
      var kind := DetermineType(source, sink);
      TypeExactly(source, sink);
      added, n, fns := {}, 0, [];
      AllocatedNothing(S(), id);
      if kind == AllPointToPoint {
        r, n, fns := RegisterPointToPointListener(l);
        if services.Ok? && old(p2p).None? {
          added := ServiceConfigs(local, services.value[..n], l);
          ServicePrefix(local, services.value, n, l);
        }
        return;
      }
      var c := ListenerConfig(source, sink, l);
      var got, outcome := RegisterConfig(c, kind);
      if got.Err? {
        return Returned(Err(INTERNAL)), {}, n, fns;
      }
      added := {c};
      r := Ended(outcome);
    }

    method Ended(outcome: EngineOutcome) returns (r: Ending)
      ensures r == Aborted <==> outcome == Stopped
      ensures r == Returned(Ok(())) <==> outcome == Completed
    {
      match outcome
      case Stopped => r := Aborted;
      case Completed => r := Returned(Ok(()));
      case _ =>
        var code: UCode := *;
        r := Returned(Err(code));
    }

    /**
     * register_point_to_point_listener. The slot is set first and stays set; then one registration for
     * each configured service, up to the first that fails.
     */
    method RegisterPointToPointListener(l: Listener) returns (r: Ending, ghost n: nat, ghost fns: seq<ExternFn>)
      requires Valid()
      modifies this, statics, registry
      ensures Valid() && taken == old(taken)
      ensures services.Err? ==>
        r == Returned(Err(services.error)) && S() == old(S()) && p2p == old(p2p) && commands == old(commands)
      ensures services.Ok? && old(p2p).Some? ==>
        r == Returned(Err(ALREADY_EXISTS)) && S() == old(S()) && p2p == old(p2p) && commands == old(commands)
      ensures services.Ok? && old(p2p).None? ==>
        && p2p == Some(l) && n <= |services.value|
        && Allocated(old(S()), id, ServiceConfigs(local, services.value[..n], l), S())
        && ServicesSent(l, n, fns, old(commands)) && ServicesEnd(Running(), answers, local, services.value, l, n, |old(commands)|, S(), r)
    {
      n, fns := 0, [];
      if services.Err? {
        return Returned(Err(services.error)), n, fns;
      }
      if p2p.Some? {
        return Returned(Err(ALREADY_EXISTS)), n, fns;
      }
      p2p := Some(l);
      ghost var states;
      r, n, fns, states := RegisterServices(l);
      RoundsAdd(id, local, services.value, l, Running(), n, states, fns);
    }

    /** A command was sent for each of the first `n` services in order, with the callback its config got. */
    ghost predicate ServicesSent(l: Listener, n: nat, fns: seq<ExternFn>, before: seq<Engine.Command>)
      requires services.Ok? && n <= |services.value|
      reads this, registry
    {
      var all := ServiceList(local, services.value, n, l);
      && Bound(registry.configs, all, fns)
      && commands == before + (if Running() then RegisterCommands(all, Request, fns, |before|) else [])
    }

    /** The loop of register_point_to_point_listener. */
    method RegisterServices(l: Listener)
      returns (r: Ending, ghost n: nat, ghost fns: seq<ExternFn>, ghost states: seq<(Stores, seq<Engine.Command>)>)
      requires Valid() && services.Ok?
      modifies this`given, this`commands, statics, registry
      ensures Valid() && n <= |services.value| && ServicesEnd(Running(), answers, local, services.value, l, n, |old(commands)|, S(), r)
      ensures Rounds(id, local, services.value, l, Running(), n, states, fns)
      ensures states[0] == (old(S()), old(commands)) && states[n] == (S(), commands)
    {
      n, fns, states := 0, [], [(S(), commands)];
      for k := 0 to |services.value|
        invariant Valid() && n == k && (k > 0 ==> Running())
        invariant Rounds(id, local, services.value, l, Running(), k, states, fns)
        invariant states[0] == (old(S()), old(commands)) && states[k] == (S(), commands)
        invariant forall i :: |old(commands)| <= i < |old(commands)| + k ==> Ask(answers, i) == Completed
        invariant |commands| == |old(commands)| + k
      {
        var stop;
        stop, n, fns, states := RegisterRound(k, l, fns, states, |old(commands)|);
        if stop.Some? {
          return stop.value, n, fns, states;
        }
      }
      r := Returned(Ok(()));
    }

    /** One round of the loop, with the states of the rounds before. */
    method RegisterRound(k: nat, l: Listener, ghost fns: seq<ExternFn>, ghost states: seq<(Stores, seq<Engine.Command>)>,
                         ghost first: nat)
      returns (stop: Option<Ending>, ghost n: nat, ghost fns': seq<ExternFn>,
               ghost states': seq<(Stores, seq<Engine.Command>)>)
      requires Valid() && services.Ok? && k < |services.value| && (k > 0 ==> Running())
      requires Rounds(id, local, services.value, l, Running(), k, states, fns) && states[k] == (S(), commands)
      requires |commands| == first + k && forall i :: first <= i < first + k ==> Ask(answers, i) == Completed
      modifies this`given, this`commands, statics, registry
      ensures Valid() && k <= n <= k + 1
      ensures Rounds(id, local, services.value, l, Running(), n, states', fns')
      ensures states'[0] == states[0] && states'[n] == (S(), commands)
      ensures stop.None? ==>
        n == k + 1 && Running() && Ask(answers, first + k) == Completed && |commands| == first + k + 1
      ensures stop.Some? ==>
        ServicesEnd(Running(), answers, local, services.value, l, n, first, S(), stop.value)
    {
      ghost var fn;
      stop, fn := RegisterService(k, l);
      n, fns', states' := k, fns, states;
      if fn.Some? {
        RoundsSnoc(id, local, services.value, l, Running(), k, states, fns, fn.value, (S(), commands));
        n, fns', states' := k + 1, fns + [fn.value], states + [(S(), commands)];
      }
      if stop.Some? {
        EndsEarly(Running(), answers, local, services.value, l, k, first, fn.Some?, S(), stop.value);
      }
    }

    /** The registration of one service: the callback of its config if it was added, and how the loop ends here, if it does. */
    method RegisterService(k: nat, l: Listener) returns (stop: Option<Ending>, ghost fn: Option<ExternFn>)
      requires Valid() && services.Ok? && k < |services.value|
      modifies this`given, this`commands, statics, registry
      ensures Valid()
      ensures var c := ServiceConfig(local, services.value[k], l);
        && (fn.Some? ==>
              Round(id, local, services.value[k], l, Running(), old(S()), old(commands), fn.value, S(), commands))
        && (fn.None? ==> S() == old(S()) && commands == old(commands) && (S().free == {} || c in Configs(S())))
      ensures |commands| == |old(commands)| + (if fn.Some? && Running() then 1 else 0)
      ensures stop == Some(Aborted) <==> fn.Some? && !Running()
      ensures stop.None? <==> fn.Some? && Running() && Ask(answers, |old(commands)|) == Completed
      ensures stop.Some? && stop != Some(Aborted) ==> stop == Some(Returned(Err(INTERNAL)))
    {
      ServiceConfigRepeats(local, services.value, k, l);
      var c := ServiceConfig(local, services.value[k], l);
      var r, outcome := RegisterConfig(c, Request);
      if r.Err? {
        return Some(Returned(Err(INTERNAL))), None;
      }
      fn := Some(r.value);
      AllocatedOne(old(S()), id, c, r, S());
      match outcome
      case Stopped => stop := Some(Aborted);
      case Completed => stop := None;
      case _ => stop := Some(Returned(Err(INTERNAL)));
    }

    /** unregister_listener of lib.rs: unless the engine has stopped, Ok and the config is gone. */
    method UnregisterListener(source: UUri, sink: Option<UUri>, l: Listener)
      returns (r: Ending, ghost removed: set<ListenerConfig>)
      requires Valid()
      modifies this, statics, registry
      ensures Valid() && Allocated(S(), id, removed, old(S())) && p2p == old(p2p) && taken == old(taken)
      ensures !Running() ==> removed == {} && S() == old(S()) && commands == old(commands)
      ensures DetermineType(source, sink) != AllPointToPoint ==>
        && r == (if Running() then Returned(Ok(())) else Aborted)
        && (Running() ==>
              && removed == {ListenerConfig(source, sink, l)} * Configs(old(S()))
              && commands == old(commands) + [UnregisterCommand(ListenerConfig(source, sink, l), |old(commands)|)])
      ensures DetermineType(source, sink) == AllPointToPoint ==>
        if p2p.None? || services.Err? then
          && removed == {} && commands == old(commands)
          && r == Returned(Err(if p2p.None? then ALREADY_EXISTS else services.error))
        else if Running() then r == Returned(Ok(())) && ServicesGone(p2p.value, old(S()), old(commands), removed)
        else r == if |services.value| == 0 then Returned(Ok(())) else Aborted
    {
      if DetermineType(source, sink) == AllPointToPoint {
        r, removed := UnregisterPointToPointListener();
        return;
      }
      var c := ListenerConfig(source, sink, l);
      removed := if Running() then {c} * Configs(S()) else {};
      var outcome, _ := ReleaseConfig(c, true);
      r := if outcome == Stopped then Aborted else Returned(Ok(()));
    }

    /**
     * One unregister command was sent for each configured service in order, and exactly the stored
     * configs of those whose command completed were released.
     */
    ghost predicate ServicesGone(l: Listener, before: Stores, sent: seq<Engine.Command>, removed: set<ListenerConfig>)
      requires services.Ok?
      reads this
    {
      && removed == CompletedServices(local, services.value, answers, |services.value|, |sent|, l) * Configs(before)
      && commands == sent + UnregisterCommands(ServiceList(local, services.value, |services.value|, l), |services.value|, |sent|)
    }

    /**
     * unregister_point_to_point_listener: a service whose engine command fails keeps its id, a stopped
     * engine panics at the first service; the slot stays.
     */
    method UnregisterPointToPointListener() returns (r: Ending, ghost removed: set<ListenerConfig>)
      requires Valid()
      modifies this, statics, registry
      ensures Valid() && Allocated(S(), id, removed, old(S())) && p2p == old(p2p) && taken == old(taken)
      ensures p2p.None? ==> r == Returned(Err(ALREADY_EXISTS))
      ensures p2p.Some? && services.Err? ==> r == Returned(Err(services.error))
      ensures p2p.None? || services.Err? || !Running() ==> removed == {} && S() == old(S()) && commands == old(commands)
      ensures p2p.Some? && services.Ok? ==>
        if Running() then r == Returned(Ok(())) && ServicesGone(p2p.value, old(S()), old(commands), removed)
        else r == if |services.value| == 0 then Returned(Ok(())) else Aborted
    {
      removed := {};
      AllocatedNothing(S(), id);
      if p2p.None? {
        return Returned(Err(ALREADY_EXISTS)), removed;
      }
      if services.Err? {
        return Returned(Err(services.error)), removed;
      }
      r, removed := UnregisterServices(p2p.value);
    }

    /** The loop of unregister_point_to_point_listener. */
    method UnregisterServices(l: Listener) returns (r: Ending, ghost removed: set<ListenerConfig>)
      requires Valid() && services.Ok?
      modifies this`commands, statics, registry
      ensures Valid() && Allocated(S(), id, removed, old(S()))
      ensures if Running() then r == Returned(Ok(())) && ServicesGone(l, old(S()), old(commands), removed)
        else r == if |services.value| == 0 then Returned(Ok(())) else Aborted
      ensures !Running() ==> removed == {} && S() == old(S()) && commands == old(commands)
    {
      ghost var all := ServiceList(local, services.value, |services.value|, l);
      ghost var states, released := [(S(), commands)], [];
      for k := 0 to |services.value|
        invariant Valid() && (k > 0 ==> Running())
        invariant ReleaseRounds(id, all, released, states) && |released| == k
        invariant states[0] == (old(S()), old(commands)) && states[k] == (S(), commands)
        invariant |commands| == |old(commands)| + k
        invariant forall j :: 0 <= j < k ==> (released[j] <==> Ask(answers, |old(commands)| + j) == Completed)
      {
        var outcome := UnregisterService(k, l);
        if outcome == Stopped {
          AllocatedNothing(S(), id);
          return Aborted, {};
        }
        released, states := released + [outcome == Completed], states + [(S(), commands)];
      }
      ReleaseRoundsAdd(id, all, released, states);
      removed := Chosen(all, released) * Configs(old(S()));
      assert Chosen(all, released) == CompletedServices(local, services.value, answers, |services.value|, |old(commands)|, l);
      r := Returned(Ok(()));
    }

    method UnregisterService(k: nat, l: Listener) returns (outcome: EngineOutcome)
      requires Valid() && services.Ok? && k < |services.value|
      modifies this`commands, statics, registry
      ensures Valid() && outcome == old(Next())
      ensures outcome != Stopped ==>
        ReleaseRound(id, ServiceConfig(local, services.value[k], l), outcome == Completed, old(S()), old(commands), S(), commands)
      ensures outcome == Stopped ==> S() == old(S()) && commands == old(commands)
    {
      ServiceConfigRepeats(local, services.value, k, l);
      var released;
      outcome, released := ReleaseConfig(ServiceConfig(local, services.value[k], l), false);
    }

    /**
     * send of transport.rs. With a point-to-point listener set, a Request first gets its response
     * route registered, unless that route is stored already; a failing registration command panics.
     * With a running engine a panic needs a route just added; with a stopped one every message that
     * is not refused before panics.
     */
    method Send(m: UMessage) returns (o: SendOutcome, ghost added: set<ListenerConfig>)
      requires Valid()
      modifies this, statics, registry
      ensures Valid() && Allocated(old(S()), id, added, S()) && p2p == old(p2p)
      ensures added == NewRoutes(old(S()), p2p, m)
      ensures !Validated(m) ==> o == Rejected(INVALID_ARGUMENT)
      ensures NeedsRoute(p2p, m) && old(S()).free == {} ==> o == Rejected(INTERNAL)
      ensures !Validated(m) || (NeedsRoute(p2p, m) && old(S()).free == {}) || !old(Running()) ==>
        commands == old(commands) && taken == old(taken)
      ensures Validated(m) && !(NeedsRoute(p2p, m) && old(S()).free == {}) ==>
        && (!old(Running()) ==> o == SendOutcome.Panicked)
        && (old(Running()) ==>
              var sent := old(commands) + RouteCommand(added, p2p, m, S().configs, |old(commands)|);
              if added != {} && old(Next()) != Completed then
                o == SendOutcome.Panicked && commands == sent && taken == old(taken)
              else
                && commands == sent + [Engine.Send(m, |sent|)]
                && SentResult(build, m, Ask(answers, |sent|), old(taken), o, taken))
    {
      added := {};
      AllocatedNothing(S(), id);
      if !Validated(m) {
        return Rejected(INVALID_ARGUMENT), added;
      }
      var early;
      early, added := RegisterForReturningResponse(m);
      if early.Some? {
        return early.value, added;
      }
      o := EngineSend(m);
    }

    /** register_for_returning_response_if_point_to_point_listener_and_sending_request */
    method RegisterForReturningResponse(m: UMessage) returns (early: Option<SendOutcome>, ghost added: set<ListenerConfig>)
      requires Valid() && Validated(m)
      modifies this`given, this`commands, statics, registry
      ensures Valid() && Allocated(old(S()), id, added, S())
      ensures added == NewRoutes(old(S()), p2p, m)
      ensures added != {} ==> ListenerConfig(m.sink.value, Some(m.source.value), p2p.value) in Configs(S())
      ensures NeedsRoute(p2p, m) && old(S()).free == {} ==> early == Some(Rejected(INTERNAL))
      ensures !(NeedsRoute(p2p, m) && old(S()).free == {}) ==>
        early == if added != {} && old(Next()) != Completed then Some(SendOutcome.Panicked) else None
      ensures commands == old(commands)
        + (if Running() then RouteCommand(added, p2p, m, S().configs, |old(commands)|) else [])
    {
      added := {};
      AllocatedNothing(S(), id);
      if p2p.None? || DetermineType(m.source.value, m.sink) != Request {
        return None, added;
      }
      RouteIsResponse(m, p2p.value);
      var c := Route(m.source.value, m.sink.value, p2p.value);
      var got, outcome := RegisterConfig(c, Response);
      if got.Err? {
        return if got.error.ListenerConfigAlreadyExists? then None else Some(Rejected(INTERNAL)), added;
      }
      added := {c};
      early := if outcome == Completed then None else Some(SendOutcome.Panicked);
    }

    /** The send command; the Request whose session id overflows ends the engine and gets no reply. */
    method EngineSend(m: UMessage) returns (o: SendOutcome)
      modifies this`taken, this`commands
      ensures !old(Running()) ==> o == SendOutcome.Panicked && taken == old(taken) && commands == old(commands)
      ensures old(Running()) ==>
        && commands == old(commands) + [Engine.Send(m, |old(commands)|)]
        && SentResult(build, m, Ask(answers, |old(commands)|), old(taken), o, taken)
    {
      var outcome := EngineCommand(Engine.Send(m, |commands|));
      if outcome == Stopped {
        return SendOutcome.Panicked;
      }
      if outcome.Ran() && m.kind == REQUEST && m.id.Some? {
        taken := taken + 1;
        if !Running() {
          return Sent(Err(INTERNAL));
        }
      }
      if outcome == Completed {
        o := Sent(Ok(()));
      } else {
        var code: UCode := *;
        o := Sent(Err(code));
      }
    }

    /**
     * Drop. It gives every id back, and changes nothing else, if and only if the engine is running or
     * nothing is stored; otherwise it panics at its first config and every id stays with the dead
     * transport. Without a running engine it ends in a panic in any case, at the latest when it shuts
     * the application down. A running engine gets one unregister command for each stored config, in
     * the order `all` of their enumeration, and the command to stop the application.
     */
    method Drop() returns (panicked: bool, ghost all: seq<ListenerConfig>)
      requires Valid()
      modifies this, statics, registry
      ensures Valid() && (panicked <==> !Running()) && taken == old(taken)
      ensures Running() || Configs(old(S())) == {} ==>
        && S().configs == EMPTY_BIMAP && id !in S().owners.Values
        && S().free == old(S()).free + old(S()).configs.byId.Keys
        && S().owners == old(S()).owners - old(S()).configs.byId.Keys
      ensures !Running() ==> S() == old(S()) && commands == old(commands)
      ensures S().configs == EMPTY_BIMAP <==> Running() || Configs(old(S())) == {}
      ensures forall c :: c in all <==> c in Configs(old(S()))
      ensures forall j, k :: 0 <= j < k < |all| ==> all[j] != all[k]
      ensures Running() ==>
        commands == old(commands) + UnregisterCommands(all, |all|, |old(commands)|)
                    + [Engine.StopVsomeipApp(|old(commands)| + |all|)]
    {
      var configs := registry.GetAllListenerConfigs();
      all := configs;
      var aborted := UnregisterAll(configs);
      if aborted {
        return true, all;
      }
      assert Firsts(configs, |configs|) == Configs(old(S()));
      EmptiedStores(S(), id, Configs(old(S())), old(S()));
      // shutdown_vsomeip_app
      var outcome := EngineCommand(Engine.StopVsomeipApp(|commands|));
      panicked := outcome == Stopped;
    }

    method UnregisterStored(c: ListenerConfig) returns (aborted: bool)
      requires Valid() && TypeOf(c) != AllPointToPoint
      modifies this, statics, registry
      ensures Valid() && taken == old(taken) && (aborted <==> !Running())
      ensures Running() ==> ReleaseRound(id, c, true, old(S()), old(commands), S(), commands)
      ensures !Running() ==> S() == old(S()) && commands == old(commands)
    {
      var r, removed := UnregisterListener(c.source, c.sink, c.listener);
      aborted := r == Aborted;
    }

    /** The loop of Drop. */
    method UnregisterAll(all: seq<ListenerConfig>) returns (aborted: bool)
      requires Valid() && forall c :: c in all ==> c in Configs(S()) && TypeOf(c) != AllPointToPoint
      modifies this, statics, registry
      ensures Valid() && taken == old(taken) && (aborted <==> !Running() && all != [])
      ensures aborted ==> S() == old(S()) && commands == old(commands)
      ensures !aborted ==>
        && Allocated(S(), id, Firsts(all, |all|), old(S()))
        && commands == old(commands) + UnregisterCommands(all, |all|, |old(commands)|)
    {
      ghost var states, released := [(S(), commands)], [];
      for k := 0 to |all|
        invariant Valid() && taken == old(taken) && (k > 0 ==> Running())
        invariant ReleaseRounds(id, all, released, states) && |released| == k
        invariant states[0] == (old(S()), old(commands)) && states[k] == (S(), commands)
        invariant forall j :: 0 <= j < k ==> released[j]
      {
        aborted := UnregisterStored(all[k]);
        if aborted {
          return;
        }
        released, states := released + [true], states + [(S(), commands)];
      }
      ReleaseRoundsAdd(id, all, released, states);
      assert Chosen(all, released) * Configs(old(S())) == Firsts(all, |all|);
      aborted := false;
    }
  }

  /**
   * How the loop over the services ends after `n` of them. Every command before the last completed. Ok
   * means all services; a stopped engine panics after the first; an error means that the last command
   * failed, or that the pool is empty or the next config stored already.
   */
  ghost predicate ServicesEnd(running: bool, answers: nat -> EngineAnswer, local: string, services: seq<(u16, u16)>,
                              l: Listener, n: nat, first: nat, s: Stores, r: Ending)
    requires n <= |services|
  {
    && (running ==> forall i :: first <= i < first + n - 1 ==> Ask(answers, i) == Completed)
    && (!running ==> n <= 1)
    && (r == Aborted <==> !running && n > 0)
    && (r == Returned(Ok(())) ==> n == |services| && (n > 0 ==> Ask(answers, first + n - 1) == Completed))
    && (r != Aborted && r != Returned(Ok(())) ==>
          && r == Returned(Err(INTERNAL))
          && ((n > 0 && Ask(answers, first + n - 1) != Completed)
              || (n < |services| && (s.free == {} || ServiceConfig(local, services[n], l) in Configs(s)))))
  }

  lemma EndsEarly(running: bool, answers: nat -> EngineAnswer, local: string, services: seq<(u16, u16)>, l: Listener,
                  k: nat, first: nat, added: bool, s: Stores, r: Ending)
    requires k < |services| && (k > 0 ==> running)
    requires forall i :: first <= i < first + k ==> Ask(answers, i) == Completed
    requires r == Aborted <==> added && !running
    requires r != Aborted ==> r == Returned(Err(INTERNAL))
    requires added && running ==> Ask(answers, first + k) != Completed
    requires !added ==> s.free == {} || ServiceConfig(local, services[k], l) in Configs(s)
    ensures ServicesEnd(running, answers, local, services, l, if added then k + 1 else k, first, s, r)
  {
  }

  /** The command that registers the response route of `m`, if it is new. */
  function RouteCommand(added: set<ListenerConfig>, p2p: Option<Listener>, m: UMessage, b: BiMap, channel: nat)
    : seq<Engine.Command>
  {
    if added == {} || p2p.None? || m.source.None? || m.sink.None? then []
    else
      var c := ListenerConfig(m.sink.value, Some(m.source.value), p2p.value);
      if c in b.byConfig then [RegisterCommand(c, Response, ExternFn(b.byConfig[c]), channel)] else []
  }

  /** The result of a message that reached the engine, and the session id it took, if any. */
  ghost predicate SentResult(build: Build, m: UMessage, answer: EngineAnswer, before: nat, o: SendOutcome, taken: nat) {
    var takes := answer.Ran() && m.kind == REQUEST && m.id.Some?;
    && o.Sent? && taken == before + (if takes then 1 else 0)
    && (o == Sent(Ok(())) <==> answer == Completed && (takes ==> Lasts(build, taken)))
    && (takes && !Lasts(build, taken) ==> o == Sent(Err(INTERNAL)))
  }

  /** The configs of the services among the first `k` whose command completed. */
  function CompletedServices(local: string, services: seq<(u16, u16)>, answers: nat -> EngineAnswer, k: nat, first: nat,
                             l: Listener): set<ListenerConfig>
    requires k <= |services|
  {
    set j | 0 <= j < k && Ask(answers, first + j) == Completed :: ServiceConfig(local, services[j], l)
  }

  /** A config of one service has been added under the id of `fn` and, by a running engine, commanded. */
  ghost predicate Round(t: TransportId, local: string, service: (u16, u16), l: Listener, running: bool,
                        s: Stores, sent: seq<Engine.Command>, fn: ExternFn, s': Stores, sent': seq<Engine.Command>)
  {
    var c := ServiceConfig(local, service, l);
    && Allocated(s, t, {c}, s') && Bound(s'.configs, [c], [fn])
    && sent' == sent + (if running then [RegisterCommand(c, Request, fn, |sent|)] else [])
  }

  /** The states of `n` such rounds. */
  ghost predicate Rounds(t: TransportId, local: string, services: seq<(u16, u16)>, l: Listener, running: bool, n: nat,
                         states: seq<(Stores, seq<Engine.Command>)>, fns: seq<ExternFn>)
  {
    && n <= |services| && |states| == n + 1 && |fns| == n
    && forall k :: 0 <= k < n ==>
         Round(t, local, services[k], l, running, states[k].0, states[k].1, fns[k], states[k + 1].0, states[k + 1].1)
  }

  lemma RoundsSnoc(t: TransportId, local: string, services: seq<(u16, u16)>, l: Listener, running: bool, n: nat,
                   states: seq<(Stores, seq<Engine.Command>)>, fns: seq<ExternFn>, fn: ExternFn,
                   next: (Stores, seq<Engine.Command>))
    requires Rounds(t, local, services, l, running, n, states, fns) && n < |services|
    requires Round(t, local, services[n], l, running, states[n].0, states[n].1, fn, next.0, next.1)
    ensures Rounds(t, local, services, l, running, n + 1, states + [next], fns + [fn])
  {
  }

  lemma {:induction false} RoundsAdd(t: TransportId, local: string, services: seq<(u16, u16)>, l: Listener, running: bool,
                                     n: nat, states: seq<(Stores, seq<Engine.Command>)>, fns: seq<ExternFn>)
    requires Rounds(t, local, services, l, running, n, states, fns)
    ensures Allocated(states[0].0, t, ServiceConfigs(local, services[..n], l), states[n].0)
    ensures Bound(states[n].0.configs, ServiceList(local, services, n, l), fns)
    ensures states[n].1 == states[0].1
      + (if running then RegisterCommands(ServiceList(local, services, n, l), Request, fns, |states[0].1|) else [])
    decreases n
  {
    if n == 0 {
      AllocatedNothing(states[0].0, t);
      assert ServiceConfigs(local, services[..0], l) == {};
    } else {
      var m := n - 1;
      RoundsAdd(t, local, services, l, running, m, states[..n], fns[..m]);
      assert Round(t, local, services[m], l, running, states[m].0, states[m].1, fns[m], states[m + 1].0, states[m + 1].1);
      ServiceAdded(states[0].0, t, local, services, m, l, states[m].0, states[n].0);
      ServiceSent(states[m].0, t, local, services, m, l, fns[..m], fns[m], states[n].0);
      assert fns == fns[..m] + [fns[m]];
      if running {
        ServiceCommanded(states[0].1, states[m].1, local, services, m, l, fns[..m], fns[m], states[n].1);
      }
    }
  }

  /** An unregister command for `c` has been sent and, if `released`, the config released. */
  ghost predicate ReleaseRound(t: TransportId, c: ListenerConfig, released: bool, s: Stores, sent: seq<Engine.Command>,
                               s': Stores, sent': seq<Engine.Command>)
  {
    && sent' == sent + [UnregisterCommand(c, |sent|)]
    && if released then Allocated(s', t, {c} * Configs(s), s) else s' == s
  }

  ghost predicate ReleaseRounds(t: TransportId, all: seq<ListenerConfig>, released: seq<bool>,
                                states: seq<(Stores, seq<Engine.Command>)>)
  {
    && |released| <= |all| && |states| == |released| + 1
    && forall k :: 0 <= k < |released| ==>
         ReleaseRound(t, all[k], released[k], states[k].0, states[k].1, states[k + 1].0, states[k + 1].1)
  }

  function Chosen(all: seq<ListenerConfig>, released: seq<bool>): set<ListenerConfig>
    requires |released| <= |all|
  {
    set k | 0 <= k < |released| && released[k] :: all[k]
  }

  lemma ChosenGrow(all: seq<ListenerConfig>, released: seq<bool>)
    requires 0 < |released| <= |all|
    ensures var m := |released| - 1;
      Chosen(all, released) == Chosen(all, released[..m]) + (if released[m] then {all[m]} else {})
  {
    var m := |released| - 1;
    forall c | c in Chosen(all, released) ensures c in Chosen(all, released[..m]) + (if released[m] then {all[m]} else {}) {
      var k :| 0 <= k < |released| && released[k] && all[k] == c;
      assert k < m ==> released[..m][k];
    }
  }

  lemma {:induction false} ReleaseRoundsAdd(t: TransportId, all: seq<ListenerConfig>, released: seq<bool>,
                                            states: seq<(Stores, seq<Engine.Command>)>)
    requires ReleaseRounds(t, all, released, states)
    ensures var n := |released|;
      && Allocated(states[n].0, t, Chosen(all, released) * Configs(states[0].0), states[0].0)
      && states[n].1 == states[0].1 + UnregisterCommands(all, n, |states[0].1|)
    decreases |released|
  {
    var n := |released|;
    if n == 0 {
      AllocatedNothing(states[0].0, t);
      assert Chosen(all, released) * Configs(states[0].0) == {};
    } else {
      var m := n - 1;
      ReleaseRoundsAdd(t, all, released[..m], states[..n]);
      assert ReleaseRound(t, all[m], released[m], states[m].0, states[m].1, states[m + 1].0, states[m + 1].1);
      UnsentMore(all, m, states[0].1, states[m].1, states[n].1);
      ChosenGrow(all, released);
      ReleasedMore(states[m].0, t, Chosen(all, released[..m]), states[0].0, all[m], released[m], states[n].0,
                   Chosen(all, released));
    }
  }

  lemma ReleasedMore(s: Stores, t: TransportId, chosen: set<ListenerConfig>, start: Stores, c: ListenerConfig,
                     released: bool, s': Stores, more: set<ListenerConfig>)
    requires Allocated(s, t, chosen * Configs(start), start) && more == chosen + (if released then {c} else {})
    requires if released then Allocated(s', t, {c} * Configs(s), s) else s' == s
    ensures Allocated(s', t, more * Configs(start), start)
  {
    if released {
      ReleasedAlso(s, t, chosen * Configs(start), start, c, s');
      assert more * Configs(start) == chosen * Configs(start) + {c} * Configs(start);
    }
  }

  lemma UnsentMore(all: seq<ListenerConfig>, k: nat, before: seq<Engine.Command>, sent: seq<Engine.Command>,
                   sent': seq<Engine.Command>)
    requires k < |all| && sent == before + UnregisterCommands(all, k, |before|)
    requires sent' == sent + [UnregisterCommand(all[k], |sent|)]
    ensures sent' == before + UnregisterCommands(all, k + 1, |before|)
  {
    assert UnregisterCommands(all, k + 1, |before|) == UnregisterCommands(all, k, |before|) + [UnregisterCommand(all[k], |sent|)];
  }

  lemma ServiceCommanded(before: seq<Engine.Command>, sent: seq<Engine.Command>, local: string, services: seq<(u16, u16)>,
                         k: nat, l: Listener, fns: seq<ExternFn>, fn: ExternFn, sent': seq<Engine.Command>)
    requires k < |services| && |fns| == k
    requires sent == before + RegisterCommands(ServiceList(local, services, k, l), Request, fns, |before|)
    requires sent' == sent + [RegisterCommand(ServiceConfig(local, services[k], l), Request, fn, |sent|)]
    ensures sent' == before + RegisterCommands(ServiceList(local, services, k + 1, l), Request, fns + [fn], |before|)
  {
    assert RegisterCommands(ServiceList(local, services, k + 1, l), Request, fns + [fn], |before|)
        == RegisterCommands(ServiceList(local, services, k, l), Request, fns, |before|)
         + [RegisterCommand(ServiceConfig(local, services[k], l), Request, fn, |before| + k)];
  }

  lemma ServiceSent(s: Stores, t: TransportId, local: string, services: seq<(u16, u16)>, k: nat, l: Listener,
                    fns: seq<ExternFn>, fn: ExternFn, s': Stores)
    requires k < |services| && Allocated(s, t, {ServiceConfig(local, services[k], l)}, s')
    requires Bound(s.configs, ServiceList(local, services, k, l), fns)
    requires Bound(s'.configs, [ServiceConfig(local, services[k], l)], [fn])
    ensures Bound(s'.configs, ServiceList(local, services, k + 1, l), fns + [fn])
  {
    var all := ServiceList(local, services, k + 1, l);
    assert [ServiceConfig(local, services[k], l)][0] == all[k];
    forall j | 0 <= j < k + 1 ensures all[j] in s'.configs.byConfig && s'.configs.byConfig[all[j]] == (fns + [fn])[j].id {
      if j < k {
        AllocatedKeepsId(s, t, {ServiceConfig(local, services[k], l)}, s', ServiceList(local, services, k, l)[j]);
      }
    }
  }

  lemma AllocatedKeepsId(s: Stores, t: TransportId, added: set<ListenerConfig>, s': Stores, c: ListenerConfig)
    requires Allocated(s, t, added, s') && c in s.configs.byConfig
    ensures c in s'.configs.byConfig && s'.configs.byConfig[c] == s.configs.byConfig[c]
  {
    assert s'.configs.byId[s.configs.byConfig[c]] == c;
  }

  function Firsts(all: seq<ListenerConfig>, k: nat): set<ListenerConfig>
    requires k <= |all|
  {
    set j | 0 <= j < k :: all[j]
  }

  predicate NeedsRoute(p2p: Option<Listener>, m: UMessage) {
    p2p.Some? && Validated(m) && DetermineType(m.source.value, m.sink) == Request
  }

  /** The configs a send adds. */
  function NewRoutes(s: Stores, p2p: Option<Listener>, m: UMessage): set<ListenerConfig> {
    if NeedsRoute(p2p, m) && s.free != {} then {Route(m.source.value, m.sink.value, p2p.value)} - Configs(s) else {}
  }

  lemma ServicePrefix(local: string, services: seq<(u16, u16)>, n: nat, l: Listener)
    requires n <= |services|
    ensures ServiceConfigs(local, services[..n], l) <= ServiceConfigs(local, services, l)
    ensures ServiceConfigs(local, services[..n], l) == {} <==> n == 0
  {
    if n > 0 {
      assert ServiceConfig(local, services[..n][0], l) in ServiceConfigs(local, services[..n], l);
    }
    forall c | c in ServiceConfigs(local, services[..n], l) ensures c in ServiceConfigs(local, services, l) {
      var k :| 0 <= k < n && c == ServiceConfig(local, services[..n][k], l);
      assert c == ServiceConfig(local, services[k], l);
    }
  }

  lemma ServiceAdded(s: Stores, t: TransportId, local: string, services: seq<(u16, u16)>, k: nat, l: Listener,
                     s1: Stores, s2: Stores)
    requires k < |services| && Allocated(s, t, ServiceConfigs(local, services[..k], l), s1)
    requires Allocated(s1, t, {ServiceConfig(local, services[k], l)}, s2)
    ensures Allocated(s, t, ServiceConfigs(local, services[..k + 1], l), s2)
  {
    AllocatedTwice(s, t, ServiceConfigs(local, services[..k], l), s1, {ServiceConfig(local, services[k], l)}, s2);
    ServiceConfigsGrow(local, services, k, l);
  }

  lemma ReleasedAlso(s: Stores, t: TransportId, gone: set<ListenerConfig>, start: Stores, c: ListenerConfig, s': Stores)
    requires Allocated(s, t, gone, start) && Allocated(s', t, {c} * Configs(s), s)
    ensures Allocated(s', t, gone + {c} * Configs(start), start)
  {
    AllocatedTwice(s', t, {c} * Configs(s), s, gone, start);
    GrownMeets(Configs(s), gone, Configs(start), c);
  }

  lemma GrownMeets<T>(a: set<T>, gone: set<T>, b: set<T>, c: T)
    requires Grown(a, gone, b)
    ensures {c} * a + gone == gone + {c} * b
  {
  }

  lemma NoConfigs(b: BiMap)
    requires b.byConfig.Keys == {}
    ensures b == EMPTY_BIMAP
  {
    BiMapSizes(b);
    assert b.byConfig == map[];
    assert b.byId == map[];
  }

  /** Releasing every config of a transport returns exactly its ids. */
  lemma EmptiedStores(s: Stores, t: TransportId, gone: set<ListenerConfig>, before: Stores)
    requires Allocated(s, t, gone, before) && Partitioned(s, t) && gone == Configs(before)
    ensures s.configs == EMPTY_BIMAP
    ensures s.free == before.free + before.configs.byId.Keys
    ensures s.owners == before.owners - before.configs.byId.Keys
    ensures t !in s.owners.Values
  {
    NoConfigs(s.configs);
  }
}
