/**
 * The callback-id allocator of message_handler_registry.rs: two process-wide stores (free ids, and
 * the transport that owns each id) and one id/config bimap per transport.
 */
module Allocator {
  import opened Wrappers
  import opened Uris
  import opened StatusCodes

  const NUM_HANDLERS := 10000

  /** An id of one of the generated callbacks. */
  type HandlerId = i: int | 0 <= i < NUM_HANDLERS
  type TransportId = int
  /** Listener identity, which is what ComparableListener compares. */
  type Listener = int

  /** The generated extern function with the given id. */
  datatype ExternFn = ExternFn(id: HandlerId)

  datatype ListenerConfig = ListenerConfig(source: UUri, sink: Option<UUri>, listener: Listener)

  /** A bidirectional map kept as two hash maps. */
  datatype RawBiMap = Pairs(byId: map<HandlerId, ListenerConfig>, byConfig: map<ListenerConfig, HandlerId>) {
    ghost predicate Consistent() {
      && (forall i :: i in byId ==> byId[i] in byConfig && byConfig[byId[i]] == i)
      && (forall c :: c in byConfig ==> byConfig[c] in byId && byId[byConfig[c]] == c)
    }

    predicate Accepts(i: HandlerId, c: ListenerConfig) {
      i !in byId && c !in byConfig
    }

    function Insert(i: HandlerId, c: ListenerConfig): (r: RawBiMap)
      requires Consistent() && Accepts(i, c)
      ensures r.Consistent()
    {
      Pairs(byId[i := c], byConfig[c := i])
    }

    function RemoveById(i: HandlerId): (r: RawBiMap)
      requires Consistent()
      ensures r.Consistent()
      ensures r.byId == byId - {i}
    {
      if i in byId then Pairs(byId - {i}, byConfig - {byId[i]}) else Pairs(byId - {i}, byConfig)
    }
  }

  type BiMap = b: RawBiMap | b.Consistent() witness Pairs(map[], map[])

  const EMPTY_BIMAP: BiMap := Pairs(map[], map[])

  /** Everything one call of the registry can see. */
  datatype Stores = Stores(free: set<HandlerId>, owners: map<HandlerId, TransportId>, configs: BiMap)

  datatype GetError =
    | ListenerIdAlreadyExists(id: HandlerId)
    | ListenerConfigAlreadyExists(fn: ExternFn)
    | OtherError(code: UCode)

  type GetResult = Result<ExternFn, GetError>

  /**
   * What one get_message_handler call may do to the stores. Success moves one free id into both
   * maps; every failure leaves all three stores as they were and says why.
   */
  ghost predicate GetSpec(s: Stores, t: TransportId, c: ListenerConfig, r: GetResult, s': Stores) {
    match r
    case Ok(fn) =>
      && fn.id in s.free && fn.id !in s.owners && s.configs.Accepts(fn.id, c)
      && s' == Stores(s.free - {fn.id}, s.owners[fn.id := t], s.configs.Insert(fn.id, c))
    case Err(ListenerIdAlreadyExists(id)) =>
      s' == s && id in s.free && id !in s.owners && id in s.configs.byId
    case Err(ListenerConfigAlreadyExists(fn)) =>
      && s' == s && fn.id in s.free && fn.id !in s.owners
      && fn.id !in s.configs.byId && c in s.configs.byConfig
    case Err(OtherError(code)) =>
      && s' == s
      && ((code == RESOURCE_EXHAUSTED && s.free == {})
          || (code == ALREADY_EXISTS && exists id :: id in s.free && id in s.owners))
  }

  /** What one release_message_handler call does to the stores. */
  ghost predicate ReleaseSpec(s: Stores, c: ListenerConfig, r: Result<(), UCode>, s': Stores) {
    if c in s.configs.byConfig then
      var id := s.configs.byConfig[c];
      r == Ok(()) && s' == Stores(s.free + {id}, s.owners - {id}, s.configs.RemoveById(id))
    else
      r == Err(NOT_FOUND) && s' == s
  }

  /** The part of the partition invariant that concerns transport `t`. */
  ghost predicate Partitioned(s: Stores, t: TransportId) {
    && (forall i: HandlerId :: i in s.free <==> i !in s.owners)
    && (forall i :: i in s.configs.byId <==> i in s.owners && s.owners[i] == t)
  }

  /** No id of another transport is touched. */
  ghost predicate OthersKept(s: Stores, t: TransportId, s': Stores) {
    && (forall i :: i in s.owners && s.owners[i] != t ==> i in s'.owners && s'.owners[i] == s.owners[i])
    && (forall i :: i in s'.owners && s'.owners[i] != t ==> i in s.owners && s.owners[i] == s'.owners[i])
  }

  /**
   * In partitioned states get fails exactly on an empty pool or a duplicate config. With an empty
   * pool even a duplicate reports exhaustion, since the id is taken first; otherwise a duplicate
   * reports a pointer to an id that is free, never the pointer of the existing registration.
   */
  lemma GetOutcome(s: Stores, t: TransportId, c: ListenerConfig, r: GetResult, s': Stores)
    requires Partitioned(s, t) && GetSpec(s, t, c, r, s')
    ensures r.Err? <==> s.free == {} || c in s.configs.byConfig
    ensures r == Err(OtherError(RESOURCE_EXHAUSTED)) <==> s.free == {}
    ensures r.Err? && r.error.ListenerConfigAlreadyExists? <==> s.free != {} && c in s.configs.byConfig
    ensures r.Err? && r.error.ListenerConfigAlreadyExists? ==> r.error.fn.id != s.configs.byConfig[c]
    ensures Partitioned(s', t) && OthersKept(s, t, s')
  {
  }

  lemma ReleaseKeepsPartition(s: Stores, t: TransportId, c: ListenerConfig, r: Result<(), UCode>, s': Stores)
    requires Partitioned(s, t) && ReleaseSpec(s, c, r, s')
    ensures Partitioned(s', t) && OthersKept(s, t, s')
    ensures c !in s'.configs.byConfig
    ensures r == Ok(()) <==> c in s.configs.byConfig
    ensures r == Err(NOT_FOUND) <==> s' == s
    ensures forall d :: d in s.configs.byConfig && d != c ==> d in s'.configs.byConfig
  {
  }

  /** Release undoes get: all three stores come back, and the id is free again. */
  lemma ReleaseUndoesGet(s: Stores, t: TransportId, c: ListenerConfig,
                         g: GetResult, s1: Stores, r: Result<(), UCode>, s2: Stores)
    requires GetSpec(s, t, c, g, s1) && g.Ok?
    requires ReleaseSpec(s1, c, r, s2)
    ensures r == Ok(()) && s2 == s
  {
    assert s2.free == s.free;
    assert s2.owners == s.owners;
    assert s2.configs.byId == s.configs.byId;
    assert s2.configs.byConfig == s.configs.byConfig;
  }

  /** The first `n` ids. */
  function IdsBelow(n: nat): (s: set<HandlerId>)
    requires n <= NUM_HANDLERS
    ensures forall i: HandlerId :: i in s <==> i < n
  {
    if n == 0 then {} else IdsBelow(n - 1) + {n - 1}
  }

  datatype RollbackStep = FreeId(id: HandlerId) | RemoveOwner(id: HandlerId)

  /** The statics after running rollback steps in order. */
  function Rolled(f: set<HandlerId>, o: map<HandlerId, TransportId>, steps: seq<RollbackStep>)
    : (set<HandlerId>, map<HandlerId, TransportId>)
    decreases |steps|
  {
    if steps == [] then (f, o)
    else
      match steps[0]
      case FreeId(id) => Rolled(f + {id}, o, steps[1..])
      case RemoveOwner(id) => Rolled(f, o - {id}, steps[1..])
  }

  /** The two process-wide statics. */
  class HandlerStatics {
    var free: set<HandlerId>
    var owners: map<HandlerId, TransportId>

    /** The generated initializer inserts every id. */
    constructor ()
      ensures forall i: HandlerId :: i in free
      ensures |free| == 10000 && owners == map[]
    {
      free := {};
      owners := map[];
      new;
      for i := 0 to NUM_HANDLERS
        invariant |free| == i && forall k: HandlerId :: k in free <==> k < i
        invariant owners == map[]
      {
        free := free + {i};
      }
    }

    /** Runs the rollback closures in the order they were pushed. */
    method Rollback(steps: seq<RollbackStep>)
      modifies this
      ensures (free, owners) == Rolled(old(free), old(owners), steps)
    {
      for n := 0 to |steps|
        invariant Rolled(free, owners, steps[n..]) == Rolled(old(free), old(owners), steps)
      {
        assert steps[n..][1..] == steps[n + 1..];
        match steps[n]
        case FreeId(id) => free := free + {id};
        case RemoveOwner(id) => owners := owners - {id};
      }
    }
  }

  /** The registry of one transport. */
  class MessageHandlerRegistry {
    var configs: BiMap

    constructor ()
      ensures configs == EMPTY_BIMAP
    {
      configs := EMPTY_BIMAP;
    }

    ghost function View(statics: HandlerStatics): Stores
      reads this, statics
    {
      Stores(statics.free, statics.owners, configs)
    }

    /**
     * Takes an id, then inserts it in the owner map and in the bimap. A refused insertion runs the
     * rollback steps pushed so far. The closure pushed after the last insertion is never run, so
     * it has no counterpart here.
     */
    method GetMessageHandler(statics: HandlerStatics, transport: TransportId, config: ListenerConfig)
      returns (r: GetResult)
      modifies this, statics
      ensures GetSpec(old(View(statics)), transport, config, r, View(statics))
      ensures r.Err? <==> View(statics) == old(View(statics))
    {
      if statics.free == {} {
        return Err(OtherError(RESOURCE_EXHAUSTED));
      }
      var id :| id in statics.free;
      statics.free := statics.free - {id};
      var steps := [FreeId(id)];
      if id in statics.owners {
        statics.Rollback(steps);
        assert statics.free == old(statics.free);
        return Err(OtherError(ALREADY_EXISTS));
      }
      statics.owners := statics.owners[id := transport];
      steps := steps + [RemoveOwner(id)];
      var refused := InsertConfig(id, config);
      match refused
      case Some(err) =>
        ghost var f, o := statics.free, statics.owners;
        assert steps[1..] == [RemoveOwner(id)] && steps[1..][1..] == [];
        assert Rolled(f + {id}, o, [RemoveOwner(id)]) == (f + {id}, o - {id});
        statics.Rollback(steps);
        assert statics.free == old(statics.free) && statics.owners == old(statics.owners);
        return Err(err);
      case None =>
        return Ok(ExternFn(id));
    }

    /** insert_no_overwrite, then the two tests that name the reason of a refusal. */
    method InsertConfig(id: HandlerId, config: ListenerConfig) returns (refused: Option<GetError>)
      modifies this
      ensures refused.None? <==> old(configs).Accepts(id, config)
      ensures refused.None? ==> configs == old(configs).Insert(id, config)
      ensures refused.Some? ==> configs == old(configs)
      ensures refused.Some? && id in configs.byId ==> refused.value == ListenerIdAlreadyExists(id)
      ensures refused.Some? && id !in configs.byId ==> refused.value == ListenerConfigAlreadyExists(ExternFn(id))
    {
      if configs.Accepts(id, config) {
        configs := configs.Insert(id, config);
      } else {
        if id in configs.byId {
          return Some(ListenerIdAlreadyExists(id));
        }
        if config in configs.byConfig {
          return Some(ListenerConfigAlreadyExists(ExternFn(id)));
        }
      }
      return None;
    }

    method ReleaseMessageHandler(statics: HandlerStatics, config: ListenerConfig)
      returns (r: Result<(), UCode>)
      modifies this, statics
      ensures ReleaseSpec(old(View(statics)), config, r, View(statics))
    {
      if config !in configs.byConfig {
        return Err(NOT_FOUND);
      }
      var id := configs.byConfig[config];
      statics.free := statics.free + {id};
      if id in statics.owners {
        statics.owners := statics.owners - {id};
      }
      configs := configs.RemoveById(id);
      return Ok(());
    }

    method MessageHandlerIds() returns (ids: seq<HandlerId>)
      ensures forall i :: i in ids <==> i in configs.byId
      ensures forall m, n :: 0 <= m < n < |ids| ==> ids[m] != ids[n]
    {
      ids := [];
      var rest := configs.byId.Keys;
      while rest != {}
        invariant rest <= configs.byId.Keys
        invariant forall i :: i in ids <==> i in configs.byId && i !in rest
        invariant forall m, n :: 0 <= m < n < |ids| ==> ids[m] != ids[n]
        decreases rest
      {
        var i :| i in rest;
        ids := ids + [i];
        rest := rest - {i};
      }
    }

    /** Every stored config exactly once. */
    method GetAllListenerConfigs() returns (all: seq<ListenerConfig>)
      ensures forall c :: c in all <==> c in configs.byConfig
      ensures forall m, n :: 0 <= m < n < |all| ==> all[m] != all[n]
    {
      var ids := MessageHandlerIds();
      all := [];
      for k := 0 to |ids|
        invariant |all| == k
        invariant forall m :: 0 <= m < k ==> all[m] == configs.byId[ids[m]]
      {
        if ids[k] !in configs.byId {
          continue;
        }
        all := all + [configs.byId[ids[k]]];
      }
      forall c | c in configs.byConfig ensures c in all {
        var i := configs.byConfig[c];
        assert i in ids;
        var m :| 0 <= m < |ids| && ids[m] == i;
        assert all[m] == c;
      }
    }

    method GetListenerForMessageHandlerId(id: HandlerId) returns (l: Option<Listener>)
      ensures l == ListenerOf(configs, id)
    {
      if id !in configs.byId {
        return None;
      }
      return Some(configs.byId[id].listener);
    }
  }

  function ListenerOf(configs: BiMap, id: HandlerId): Option<Listener> {
    if id in configs.byId then Some(configs.byId[id].listener) else None
  }
}
