/** What transport operations do to the stores, as relations over whole sets of listener configs. */
module Allocation {
  import opened Wrappers
  import opened StatusCodes
  import opened Allocator

  /**
   * `s'` is `s` with exactly the configs `added`, each under an id that was free in `s`. Read from
   * `s'` to `s` it says that exactly these configs were released.
   */
  ghost predicate Allocated(s: Stores, t: TransportId, added: set<ListenerConfig>, s': Stores) {
    var ids := s.free - s'.free;
    && s'.free <= s.free
    && Grown(s.configs.byConfig.Keys, added, s'.configs.byConfig.Keys)
    && Grown(s.configs.byId.Keys, ids, s'.configs.byId.Keys)
    && Grown(s.owners.Keys, ids, s'.owners.Keys)
    && ValuesKept(s, t, ids, s')
  }

  ghost predicate Grown<T>(old_: set<T>, extra: set<T>, new_: set<T>) {
    extra !! old_ && new_ == old_ + extra
  }

  ghost predicate ValuesKept(s: Stores, t: TransportId, ids: set<HandlerId>, s': Stores)
    requires s.configs.byId.Keys <= s'.configs.byId.Keys && s.owners.Keys + ids <= s'.owners.Keys
  {
    && (forall i :: i in s.configs.byId ==> s'.configs.byId[i] == s.configs.byId[i])
    && (forall i :: i in s.owners ==> s'.owners[i] == s.owners[i])
    && (forall i :: i in ids ==> s'.owners[i] == t)
  }

  lemma GrownTwice<T>(a: set<T>, x: set<T>, b: set<T>, y: set<T>, c: set<T>)
    requires Grown(a, x, b) && Grown(b, y, c)
    ensures Grown(a, x + y, c)
  {
  }

  lemma AllocatedNothing(s: Stores, t: TransportId)
    ensures Allocated(s, t, {}, s)
  {
  }

  lemma AllocatedOne(s: Stores, t: TransportId, c: ListenerConfig, r: GetResult, s': Stores)
    requires GetSpec(s, t, c, r, s') && r.Ok?
    ensures Allocated(s, t, {c}, s') && c in s'.configs.byConfig && s'.configs.byConfig[c] == r.value.id
  {
    assert s.free - s'.free == {r.value.id};
  }

  lemma ReleasedOne(s: Stores, t: TransportId, c: ListenerConfig, r: Result<(), UCode>, s': Stores)
    requires Partitioned(s, t) && ReleaseSpec(s, c, r, s')
    ensures Allocated(s', t, if c in s.configs.byConfig then {c} else {}, s)
  {
    if c in s.configs.byConfig {
      var id := s.configs.byConfig[c];
      assert id in s.configs.byId && s.owners[id] == t && id !in s.free;
      assert s'.free - s.free == {id};
      assert s.configs.byId.Keys == s'.configs.byId.Keys + {id};
      assert s.owners.Keys == s'.owners.Keys + {id};
      assert s'.configs.byConfig == s.configs.byConfig - {c};
      assert s.configs.byConfig.Keys == s'.configs.byConfig.Keys + {c};
    }
  }

  lemma AllocatedTwice(s: Stores, t: TransportId, a: set<ListenerConfig>, s1: Stores, b: set<ListenerConfig>, s2: Stores)
    requires Allocated(s, t, a, s1) && Allocated(s1, t, b, s2)
    ensures Allocated(s, t, a + b, s2)
  {
    var x, y := s.free - s1.free, s1.free - s2.free;
    assert s.free - s2.free == x + y;
    GrownTwice(s.configs.byConfig.Keys, a, s1.configs.byConfig.Keys, b, s2.configs.byConfig.Keys);
    GrownTwice(s.configs.byId.Keys, x, s1.configs.byId.Keys, y, s2.configs.byId.Keys);
    GrownTwice(s.owners.Keys, x, s1.owners.Keys, y, s2.owners.Keys);
    ValuesKeptTwice(s, t, x, s1, y, s2);
  }

  lemma ValuesKeptTwice(s: Stores, t: TransportId, x: set<HandlerId>, s1: Stores, y: set<HandlerId>, s2: Stores)
    requires s.configs.byId.Keys <= s1.configs.byId.Keys && s.owners.Keys + x <= s1.owners.Keys
    requires s1.configs.byId.Keys <= s2.configs.byId.Keys && s1.owners.Keys + y <= s2.owners.Keys
    requires ValuesKept(s, t, x, s1) && ValuesKept(s1, t, y, s2)
    ensures ValuesKept(s, t, x + y, s2)
  {
  }

  /** A consistent bimap has as many ids as configs. */
  lemma {:induction false} BiMapSizes(b: BiMap)
    ensures |b.byId.Keys| == |b.byConfig.Keys|
    decreases |b.byId|
  {
    if b.byId == map[] {
      assert b.byConfig == map[];
    } else {
      var i :| i in b.byId;
      var rest: BiMap := b.RemoveById(i);
      assert b.byId.Keys == rest.byId.Keys + {i};
      assert b.byConfig.Keys == rest.byConfig.Keys + {b.byId[i]};
      BiMapSizes(rest);
    }
  }

  /** Exactly one id per config. */
  lemma AllocatedCount(s: Stores, t: TransportId, added: set<ListenerConfig>, s': Stores)
    requires Allocated(s, t, added, s')
    ensures |s.free - s'.free| == |added| && |s'.free| == |s.free| - |added|
  {
    var ids := s.free - s'.free;
    BiMapSizes(s.configs);
    BiMapSizes(s'.configs);
    GrownSize(s.configs.byId.Keys, ids, s'.configs.byId.Keys);
    GrownSize(s.configs.byConfig.Keys, added, s'.configs.byConfig.Keys);
    GrownSize(s'.free, ids, s.free);
  }

  lemma GrownSize<T>(a: set<T>, x: set<T>, b: set<T>)
    requires Grown(a, x, b)
    ensures |b| == |a| + |x|
  {
  }

  function Configs(s: Stores): set<ListenerConfig> {
    s.configs.byConfig.Keys
  }
}
