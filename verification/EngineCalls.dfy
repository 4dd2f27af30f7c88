/**
 * What the engine does, said in numbers and from outside: for every command of every command stream
 * the result it answers, the library calls it makes, and what becomes of the handler table and the
 * correlation registry.
 */
module EngineCalls {
  import opened Wrappers
  import opened Uris
  import opened StatusCodes
  import opened Allocator
  import opened RpcCorrelation
  import opened Conversions
  import opened EngineLog
  import opened Engine

  function Calls(log: seq<Entry>): seq<LibCall> {
    seq(|log|, n requires 0 <= n < |log| => log[n].call)
  }

  predicate Done(log: seq<Entry>, k: GuardKey) {
    Project(log, k) != []
  }

  /** The calls of `block`, unless they were made before, and then `own`. */
  ghost predicate Makes(before: seq<Entry>, k: GuardKey, block: seq<LibCall>, own: LibCall, after: seq<Entry>) {
    Calls(after) == Calls(before) + (if Done(before, k) then [] else block) + [own]
  }

  /** A registration that is accepted. */
  ghost predicate Registers(st: EngineState, source: UUri, sink: Option<UUri>, kind: RegistrationType, fn: ExternFn,
                            st': EngineState)
    requires kind == Request ==> sink.Some?
  {
    var s, m := source.ueId % 0x1_0000, source.resource % 0x1_0000;
    && st'.reg == st.reg
    && match kind
       case Publish =>
         && Makes(st.log, GuardKey(EventRequested, s, 1, m),
                  [RequestService(s, 1), RequestEvent(s, 1, m), Subscribe(s, 1, m)],
                  RegisterHandler(s, 1, m, fn), st'.log)
         && st'.table == st.table[(s, 1, m) := fn]
       case Request =>
         var s, m := sink.value.ueId % 0x1_0000, sink.value.resource % 0x1_0000;
         && Makes(st.log, GuardKey(ServiceOffered, s, 1, m), [OfferService(s, 1, sink.value.version % 0x100)],
                  RegisterHandler(s, 0xFFFF, m, fn), st'.log)
         && st'.table == st.table[(s, 0xFFFF, m) := fn]
       case Response =>
         && Makes(st.log, GuardKey(ServiceRequested, s, 0xFFFF, m), [RequestService(s, 0xFFFF)],
                  RegisterHandler(s, 0xFFFF, m, fn), st'.log)
         && st'.table == st.table[(s, 0xFFFF, m) := fn]
       case AllPointToPoint => false
  }

  /** An unregistration that is accepted: a Publish listener under its source, the others under their sink. */
  ghost predicate Unregisters(st: EngineState, source: UUri, sink: Option<UUri>, kind: RegistrationType, st': EngineState)
    requires kind == Request || kind == Response ==> sink.Some?
  {
    var uri := if kind == Publish then source else if sink.Some? then sink.value else source;
    var key: (u16, u16, u16) := (uri.ueId % 0x1_0000, 0xFFFF, uri.resource % 0x1_0000);
    && Calls(st'.log) == Calls(st.log) + [UnregisterHandler(key.0, key.1, key.2)]
    && st'.table == st.table - {key} && st'.reg == st.reg
  }

  /** A message that is accepted. */
  ghost predicate SendsOut(st: EngineState, client: u16, m: UMessage, st': EngineState) {
    && st'.table == st.table
    && match m.kind
       case PUBLISH =>
         && m.source.Some? && st'.reg == st.reg
         && var s, event := m.source.value.ueId % 0x1_0000, m.source.value.resource % 0x1_0000;
         Makes(st.log, GuardKey(EventOffered, s, 1, event), [OfferService(s, 1, 0xFF), OfferEvent(s, 1, event)],
               Notify(s, 1, event, Bytes(m)), st'.log)
       case REQUEST =>
         && m.source.Some? && m.sink.Some? && m.id.Some?
         && var to, request := m.sink.value, client * 0x1_0000 + CurrentSession(st.reg, client);
         && request !in st.reg.ue && st'.reg.ue == st.reg.ue[request := (m.id.value, m.source.value)]
         && st'.reg.me == st.reg.me
         && Calls(st'.log) == Calls(st.log) + [SendMessage(
              Wire(MT_REQUEST, to.ueId % 0x1_0000, 1, to.resource % 0x1_0000, to.version % 0x100, request, E_OK, Bytes(m)))]
       case RESPONSE =>
         && m.source.Some? && m.reqid.Some? && m.reqid.value in st.reg.me
         && var from, (kind, code) := m.source.value, EncodeStatus(m.commstatus);
         && st'.reg == st.reg.(me := st.reg.me - {m.reqid.value})
         && Calls(st'.log) == Calls(st.log) + [SendMessage(
              Wire(kind, from.ueId % 0x1_0000, 1, from.resource % 0x1_0000, from.version % 0x100,
                   st.reg.me[m.reqid.value], code, Bytes(m)))]
       case _ => false
  }

  /** Nothing is called and no handler is touched. */
  ghost predicate Quiet(st: EngineState, st': EngineState) {
    st'.log == st.log && st'.table == st.table && st'.reg.ue == st.reg.ue && st'.reg.me == st.reg.me
  }

  /** Why a message is refused. */
  predicate RefusedFor(st: EngineState, client: u16, m: UMessage, code: UCode) {
    match m.kind
    case PUBLISH => m.source.None? && code == INVALID_ARGUMENT
    case REQUEST =>
      if m.source.None? || m.sink.None? || m.id.None? then code == INVALID_ARGUMENT
      else client * 0x1_0000 + CurrentSession(st.reg, client) in st.reg.ue && code == ALREADY_EXISTS
    case RESPONSE =>
      if m.source.None? || m.reqid.None? then code == INVALID_ARGUMENT
      else m.reqid.value !in st.reg.me && code == NOT_FOUND
    case _ => code == INVALID_ARGUMENT
  }

  /** The answer to one command, with everything that is done for it. */
  ghost predicate Serves(st: EngineState, cmd: Command, e: Env, result: Result<(), UCode>, st': EngineState) {
    match cmd
    case RegisterListener(source, sink, kind, fn, _) =>
      if !e.appExists || kind == AllPointToPoint then result == Err(INTERNAL) && Quiet(st, st')
      else if kind == Request && sink.None? then result == Err(INVALID_ARGUMENT) && Quiet(st, st')
      else result == Ok(()) && Registers(st, source, sink, kind, fn, st')
    case UnregisterListener(source, sink, kind, _) =>
      if !e.appExists || kind == AllPointToPoint then result == Err(INTERNAL) && Quiet(st, st')
      else if kind != Publish && sink.None? then result == Err(INVALID_ARGUMENT) && Quiet(st, st')
      else result == Ok(()) && Unregisters(st, source, sink, kind, st')
    case Send(m, _) =>
      if !e.appExists then result == Err(INTERNAL) && Quiet(st, st')
      else if result.Ok? then SendsOut(st, e.client, m, st')
      else RefusedFor(st, e.client, m, result.error) && Quiet(st, st')
    case StartVsomeipApp(_) => result == e.started && Quiet(st, st')
    case StopVsomeipApp(_) => result == (if e.appExists then Ok(()) else Err(INTERNAL)) && Quiet(st, st')
  }

  lemma GuardedCalls(log: seq<Entry>, k: GuardKey, block: seq<LibCall>, own: LibCall)
    ensures Makes(log, k, block, own, Guarded(log, k, block, own))
  {
    var after := Guarded(log, k, block, own);
    if Done(log, k) {
      assert Calls(after) == Calls(log) + [] + [own];
    } else {
      assert Calls(after) == Calls(log) + block + [own];
    }
  }

  lemma AppendCalls(log: seq<Entry>, call: LibCall)
    ensures Calls(log + [Plain(call)]) == Calls(log) + [call]
  {
  }

  lemma RegisterServes(st: EngineState, source: UUri, sink: Option<UUri>, kind: RegistrationType, fn: ExternFn)
    requires RegisterResult(source, sink, kind).Ok?
    ensures Registers(st, source, sink, kind, fn, RegisterState(st, source, sink, kind, fn))
  {
    var k, key := GuardOf(kind, source, sink).value, TableKey(kind, source, sink).value;
    GuardedCalls(st.log, k, BlockOf(k, if kind.Request? then LowByte(sink.value.version) else ANY_MAJOR),
                 RegisterHandler(key.0, key.1, key.2, fn));
  }

  lemma UnregisterServes(st: EngineState, source: UUri, sink: Option<UUri>, kind: RegistrationType)
    requires UnregisterResult(source, sink, kind).Ok?
    ensures Unregisters(st, source, sink, kind, UnregisterState(st, source, sink, kind))
  {
    var key := UntableKey(kind, source, sink).value;
    AppendCalls(st.log, UnregisterHandler(key.0, key.1, key.2));
  }

  lemma SendServes(st: EngineState, build: Build, client: u16, m: UMessage)
    ensures var r, st' := SendResult(st.reg, build, client, m), SendState(st, build, client, m);
      && (r.Ok? ==> SendsOut(st, client, m, st'))
      && (r.Err? && r.error.Status? ==> RefusedFor(st, client, m, r.error.code) && Quiet(st, st'))
  {
    match m.kind
    case PUBLISH =>
      if m.source.Some? {
        var k := GuardKey(EventOffered, Low(m.source.value.ueId), 1, Low(m.source.value.resource));
        GuardedCalls(st.log, k, BlockOf(k, ANY_MAJOR), Notify(k.service, 1, k.id, Bytes(m)));
      }
    case REQUEST =>
      RequestOnWire(st.reg, build, client, m);
      var r := RequestToWire(st.reg, build, client, m).1;
      if r.Ok? {
        AppendCalls(st.log, SendMessage(r.value));
      }
    case RESPONSE =>
      ResponseOnWire(st.reg, m);
      var r := ResponseToWire(st.reg, m).1;
      if r.Ok? {
        AppendCalls(st.log, SendMessage(r.value));
      }
    case _ =>
  }

  /** Every command that gets an answer gets the right one, and exactly its own calls are made. */
  lemma HandleServes(st: EngineState, build: Build, cmd: Command, e: Env)
    ensures var (st', r) := Handle(st, build, cmd, e); r.Some? ==> Serves(st, cmd, e, r.value, st')
  {
    match cmd
    case RegisterListener(source, sink, kind, fn, _) =>
      if RegisterResult(source, sink, kind).Ok? {
        RegisterServes(st, source, sink, kind, fn);
      }
    case UnregisterListener(source, sink, kind, _) =>
      if UnregisterResult(source, sink, kind).Ok? {
        UnregisterServes(st, source, sink, kind);
      }
    case Send(m, _) => SendServes(st, build, e.client, m);
    case StartVsomeipApp(_) =>
    case StopVsomeipApp(_) =>
  }

  /** The outcome after the first `n` commands. */
  function After(st: EngineState, build: Build, commands: seq<Command>, env: seq<Env>, n: nat): Outcome
    requires |env| == |commands| && n <= |commands|
  {
    HandleAll(st, build, commands[..n], env[..n])
  }

  lemma {:induction false} RepliesGrow(st: EngineState, build: Build, commands: seq<Command>, env: seq<Env>, n: nat)
    requires |env| == |commands| && n < |HandleAll(st, build, commands, env).replies|
    ensures n < |commands| && !After(st, build, commands, env, n).panicked && !After(st, build, commands, env, n + 1).panicked
    ensures |After(st, build, commands, env, n + 1).replies| == n + 1
    ensures After(st, build, commands, env, n + 1).replies[n] == HandleAll(st, build, commands, env).replies[n]
    decreases |commands|
  {
    var m := |commands| - 1;
    OneReplyPerCommand(st, build, commands, env);
    if n < |HandleAll(st, build, commands[..m], env[..m]).replies| {
      RepliesGrow(st, build, commands[..m], env[..m], n);
      SamePrefix(commands, env, m, n);
      KeepsReplies(st, build, commands, env, n);
    } else {
      LastReply(st, build, commands, env, n);
      assert commands[..n + 1] == commands && env[..n + 1] == env;
    }
  }

  lemma SamePrefix(commands: seq<Command>, env: seq<Env>, m: nat, n: nat)
    requires |env| == |commands| && n < m <= |commands|
    ensures commands[..m][..n] == commands[..n] && env[..m][..n] == env[..n]
    ensures commands[..m][..n + 1] == commands[..n + 1] && env[..m][..n + 1] == env[..n + 1]
  {
  }

  lemma LastReply(st: EngineState, build: Build, commands: seq<Command>, env: seq<Env>, n: nat)
    requires |env| == |commands| > 0 && n < |HandleAll(st, build, commands, env).replies|
    requires n >= |HandleAll(st, build, commands[..|commands| - 1], env[..|commands| - 1]).replies|
    ensures n == |commands| - 1 && |HandleAll(st, build, commands, env).replies| == n + 1
    ensures !HandleAll(st, build, commands[..n], env[..n]).panicked && !HandleAll(st, build, commands, env).panicked
  {
    var m := |commands| - 1;
    OneReplyPerCommand(st, build, commands, env);
    OneReplyPerCommand(st, build, commands[..m], env[..m]);
    ThenReplies(HandleAll(st, build, commands[..m], env[..m]), build, commands[m], env[m]);
  }

  lemma KeepsReplies(st: EngineState, build: Build, commands: seq<Command>, env: seq<Env>, n: nat)
    requires |env| == |commands| > 0
    requires n < |HandleAll(st, build, commands[..|commands| - 1], env[..|commands| - 1]).replies|
    ensures n < |HandleAll(st, build, commands, env).replies|
    ensures HandleAll(st, build, commands, env).replies[n]
         == HandleAll(st, build, commands[..|commands| - 1], env[..|commands| - 1]).replies[n]
  {
    var m := |commands| - 1;
    var before := HandleAll(st, build, commands[..m], env[..m]);
    ThenReplies(before, build, commands[m], env[m]);
  }

  /**
   * The engine in numbers, over every command stream: the n-th result on the n-th command's channel
   * is the one the command deserves, and between the two states exactly its own calls are made.
   */
  lemma EngineServes(st: EngineState, build: Build, commands: seq<Command>, env: seq<Env>, n: nat)
    requires |env| == |commands| && n < |HandleAll(st, build, commands, env).replies|
    ensures n < |commands|
    ensures var reply := HandleAll(st, build, commands, env).replies[n];
      && reply.channel == commands[n].channel
      && Serves(Inbound(After(st, build, commands, env, n).state, env[n]), commands[n], env[n], reply.result,
                After(st, build, commands, env, n + 1).state)
  {
    RepliesGrow(st, build, commands, env, n);
    OneReplyPerCommand(st, build, commands, env);
    var before := After(st, build, commands, env, n);
    assert commands[..n + 1][..n] == commands[..n] && env[..n + 1][..n] == env[..n];
    OneReplyPerCommand(st, build, commands[..n], env[..n]);
    HandleServes(Inbound(before.state, env[n]), build, commands[n], env[n]);
  }

  /**
   * Success means that the command was run: a register, unregister or send command is answered Ok if
   * and only if a library call was made for it, and an error leaves log and table as they were.
   */
  lemma OkMeansCalled(st: EngineState, build: Build, commands: seq<Command>, env: seq<Env>, n: nat)
    requires |env| == |commands| && n < |HandleAll(st, build, commands, env).replies|
    ensures n < |commands|
    ensures var before, after := After(st, build, commands, env, n).state, After(st, build, commands, env, n + 1).state;
      var result := HandleAll(st, build, commands, env).replies[n].result;
      commands[n].RegisterListener? || commands[n].UnregisterListener? || commands[n].Send? ==>
        && (result.Ok? <==> |after.log| > |before.log|)
        && (result.Err? ==> after.log == before.log && after.table == before.table)
  {
    EngineServes(st, build, commands, env, n);
    var before, after := After(st, build, commands, env, n).state, After(st, build, commands, env, n + 1).state;
    if commands[n].RegisterListener? || commands[n].UnregisterListener? || commands[n].Send? {
      ServesCalls(Inbound(before, env[n]), commands[n], env[n], HandleAll(st, build, commands, env).replies[n].result, after);
    }
  }

  lemma ServesCalls(st: EngineState, cmd: Command, e: Env, result: Result<(), UCode>, st': EngineState)
    requires Serves(st, cmd, e, result, st') && (cmd.RegisterListener? || cmd.UnregisterListener? || cmd.Send?)
    ensures result.Ok? <==> |st'.log| > |st.log|
    ensures result.Err? ==> Quiet(st, st')
  {
    if result.Ok? {
      assert |Calls(st'.log)| > |Calls(st.log)|;
    }
  }

  // ----- which guards have been passed -----

  /** The command runs the block of `k`, or relies on its having been run. */
  predicate Passes(cmd: Command, e: Env, k: GuardKey) {
    && e.appExists
    && match cmd
       case RegisterListener(source, sink, kind, _, _) =>
         if kind == Request && sink.Some? then
           k == GuardKey(ServiceOffered, sink.value.ueId % 0x1_0000, 1, sink.value.resource % 0x1_0000)
         else if kind == Publish then
           k == GuardKey(EventRequested, source.ueId % 0x1_0000, 1, source.resource % 0x1_0000)
         else
           kind == Response && k == GuardKey(ServiceRequested, source.ueId % 0x1_0000, 0xFFFF, source.resource % 0x1_0000)
       case Send(m, _) =>
         && m.kind == PUBLISH && m.source.Some?
         && k == GuardKey(EventOffered, m.source.value.ueId % 0x1_0000, 1, m.source.value.resource % 0x1_0000)
       case _ => false
  }

  lemma GuardedDone(log: seq<Entry>, j: GuardKey, major: u8, own: LibCall, k: GuardKey)
    requires LogOk(log) && EntryOk(Relying(j, own))
    ensures Done(Guarded(log, j, BlockOf(j, major), own), k) <==> Done(log, k) || k == j
  {
    EnsuredKeepsLog(log, j, BlockOf(j, major));
    AppendKeepsLog(Ensured(log, j, BlockOf(j, major)), Relying(j, own));
  }

  lemma HandlePasses(st: EngineState, build: Build, cmd: Command, e: Env, k: GuardKey)
    requires LogOk(st.log)
    ensures Done(Handle(st, build, cmd, e).0.log, k) <==> Done(st.log, k) || Passes(cmd, e, k)
  {
    match cmd
    case RegisterListener(source, sink, kind, fn, _) =>
      if RegisterResult(source, sink, kind).Ok? {
        var j, key := GuardOf(kind, source, sink).value, TableKey(kind, source, sink).value;
        GuardedDone(st.log, j, if kind.Request? then LowByte(sink.value.version) else ANY_MAJOR,
                    RegisterHandler(key.0, key.1, key.2, fn), k);
      }
    case UnregisterListener(source, sink, kind, _) =>
      if UnregisterResult(source, sink, kind).Ok? {
        var key := UntableKey(kind, source, sink).value;
        AppendKeepsLog(st.log, Plain(UnregisterHandler(key.0, key.1, key.2)));
      }
    case Send(m, _) => SendPasses(st, build, e.client, m, k);
    case StartVsomeipApp(_) =>
    case StopVsomeipApp(_) =>
  }

  lemma SendPasses(st: EngineState, build: Build, client: u16, m: UMessage, k: GuardKey)
    requires LogOk(st.log)
    ensures Done(SendState(st, build, client, m).log, k) <==>
      || Done(st.log, k)
      || (m.kind == PUBLISH && m.source.Some?
          && k == GuardKey(EventOffered, m.source.value.ueId % 0x1_0000, 1, m.source.value.resource % 0x1_0000))
  {
    match m.kind
    case PUBLISH =>
      if m.source.Some? {
        var j := GuardKey(EventOffered, Low(m.source.value.ueId), 1, Low(m.source.value.resource));
        GuardedDone(st.log, j, ANY_MAJOR, Notify(j.service, 1, j.id, Bytes(m)), k);
      }
    case REQUEST =>
      var r := RequestToWire(st.reg, build, client, m).1;
      if r.Ok? {
        AppendKeepsLog(st.log, Plain(SendMessage(r.value)));
      }
    case RESPONSE =>
      var r := ResponseToWire(st.reg, m).1;
      if r.Ok? {
        AppendKeepsLog(st.log, Plain(SendMessage(r.value)));
      }
    case _ =>
  }

  /** Some command of the stream passes `k`. */
  ghost predicate Passed(commands: seq<Command>, env: seq<Env>, k: GuardKey)
    requires |env| == |commands|
  {
    exists j :: 0 <= j < |commands| && Passes(commands[j], env[j], k)
  }

  lemma PassedSnoc(commands: seq<Command>, env: seq<Env>, k: GuardKey)
    requires |env| == |commands| > 0
    ensures var n := |commands| - 1;
      Passed(commands, env, k) <==> Passed(commands[..n], env[..n], k) || Passes(commands[n], env[n], k)
  {
    var n := |commands| - 1;
    if Passed(commands[..n], env[..n], k) {
      var j :| 0 <= j < n && Passes(commands[..n][j], env[..n][j], k);
      assert Passes(commands[j], env[j], k);
    }
    if Passed(commands, env, k) {
      var j :| 0 <= j < |commands| && Passes(commands[j], env[j], k);
      assert j < n ==> Passes(commands[..n][j], env[..n][j], k);
    }
  }

  lemma ThenPasses(before: Outcome, build: Build, cmd: Command, e: Env, k: GuardKey)
    requires LogOk(before.state.log)
    ensures Done(Then(before, build, cmd, e).state.log, k) <==> Done(before.state.log, k) || Passes(cmd, e, k)
  {
    HandlePasses(Inbound(before.state, e), build, cmd, e, k);
  }

  /**
   * A guard has been passed exactly if an earlier command needed it. With EngineServes this gives
   * every library call of every run as a function of the commands alone.
   */
  lemma {:induction false} DoneExactlyWhen(st: EngineState, build: Build, commands: seq<Command>, env: seq<Env>, k: GuardKey)
    requires |env| == |commands| && st.log == [] && !HandleAll(st, build, commands, env).panicked
    ensures Done(HandleAll(st, build, commands, env).state.log, k) <==> Passed(commands, env, k)
    decreases |commands|
  {
    if commands != [] {
      var n := |commands| - 1;
      DoneExactlyWhen(st, build, commands[..n], env[..n], k);
      BlocksOnce(st, build, commands[..n], env[..n]);
      ThenPasses(HandleAll(st, build, commands[..n], env[..n]), build, commands[n], env[n], k);
      PassedSnoc(commands, env, k);
    }
  }

  /** A service that registered at `sink` listens where a request to `sink` is sent. */
  lemma RequestMeetsListener(r: Registry, build: Build, client: u16, m: UMessage, source: UUri)
    requires RequestToWire(r, build, client, m).1.Ok?
    ensures m.sink.Some?
    ensures var w := RequestToWire(r, build, client, m).1.value;
      TableKey(Request, source, m.sink) == Some((w.service, 0xFFFF, w.method_))
  {
  }

  /** A client whose response filter has source `address` listens where a response from `address` is sent. */
  lemma ResponseMeetsListener(r: Registry, m: UMessage, sink: Option<UUri>)
    requires ResponseToWire(r, m).1.Ok?
    ensures m.source.Some?
    ensures var w := ResponseToWire(r, m).1.value;
      TableKey(Response, m.source.value, sink) == Some((w.service, 0xFFFF, w.method_))
  {
  }
}
