/** The response routes that a sequence of sends registers. */
module ResponseRoutes {
  import opened Wrappers
  import opened Uris
  import opened Allocator
  import opened Allocation
  import opened Conversions
  import opened Transports

  /** What `Transport.Send` does to the stores, over a sequence of sends that find the pool non-empty. */
  ghost predicate Sends(states: seq<Stores>, t: TransportId, l: Listener, sent: seq<UMessage>) {
    && |states| == |sent| + 1
    && forall k :: 0 <= k < |sent| ==>
         states[k].free != {} && Allocated(states[k], t, NewRoutes(states[k], Some(l), sent[k]), states[k + 1])
  }

  /** The distinct (source, sink) pairs of the Requests among the messages. */
  function Pairs(sent: seq<UMessage>): set<(UUri, UUri)> {
    set m | m in sent && Validated(m) && DetermineType(m.source.value, m.sink) == Request
      :: (m.source.value, m.sink.value)
  }

  function Routes(pairs: set<(UUri, UUri)>, l: Listener): set<ListenerConfig> {
    set p | p in pairs :: Route(p.0, p.1, l)
  }

  lemma {:induction false} RoutesDistinct(pairs: set<(UUri, UUri)>, l: Listener)
    ensures |Routes(pairs, l)| == |pairs|
    decreases pairs
  {
    if pairs != {} {
      var p :| p in pairs;
      RoutesDistinct(pairs - {p}, l);
      assert Routes(pairs, l) == Routes(pairs - {p}, l) + {Route(p.0, p.1, l)};
    }
  }

  lemma PairsGrow(sent: seq<UMessage>, m: UMessage, l: Listener)
    ensures Pairs(sent + [m]) == Pairs(sent) + Pairs([m])
    ensures Routes(Pairs(sent + [m]), l) == Routes(Pairs(sent), l) + Routes(Pairs([m]), l)
  {
  }

  lemma NewRoute(s: Stores, l: Listener, m: UMessage)
    requires s.free != {}
    ensures NewRoutes(s, Some(l), m) == Routes(Pairs([m]), l) - Configs(s)
  {
    assert [m][0] == m;
    if NeedsRoute(Some(l), m) {
      assert Pairs([m]) == {(m.source.value, m.sink.value)};
      assert (m.source.value, m.sink.value) in Pairs([m]);
      assert Routes(Pairs([m]), l) == {Route(m.source.value, m.sink.value, l)};
    } else {
      assert Pairs([m]) == {};
    }
  }

  lemma GrownMinus<T>(c: set<T>, x: set<T>, y: set<T>, c': set<T>)
    requires Grown(c, x - c, c')
    ensures (x - c) + (y - c') == (x + y) - c
    ensures c' == c + x && (x !! c ==> x - c == x)
  {
  }

  /** After any such sends exactly the routes of the Requests sent have been added. */
  lemma {:induction false} SendsAddRoutes(states: seq<Stores>, t: TransportId, l: Listener, sent: seq<UMessage>)
    requires Sends(states, t, l, sent)
    ensures Allocated(states[0], t, Routes(Pairs(sent), l) - Configs(states[0]), states[|sent|])
    decreases |sent|
  {
    var n := |sent|;
    if n == 0 {
      AllocatedNothing(states[0], t);
      assert Routes(Pairs(sent), l) - Configs(states[0]) == {};
    } else {
      var before, m := sent[..n - 1], sent[n - 1];
      assert Sends(states[..n], t, l, before);
      SendsAddRoutes(states[..n], t, l, before);
      assert sent == before + [m];
      PairsGrow(before, m, l);
      NewRoute(states[n - 1], l, m);
      var a := Routes(Pairs(before), l) - Configs(states[0]);
      var b := Routes(Pairs([m]), l) - Configs(states[n - 1]);
      AllocatedTwice(states[0], t, a, states[n - 1], b, states[n]);
      GrownMinus(Configs(states[0]), Routes(Pairs(before), l), Routes(Pairs([m]), l), Configs(states[n - 1]));
    }
  }

  /** One id per response route: as many ids are taken as there are distinct pairs, however often each is sent. */
  lemma OneIdPerRoute(states: seq<Stores>, t: TransportId, l: Listener, sent: seq<UMessage>)
    requires Sends(states, t, l, sent)
    ensures Configs(states[|sent|]) == Configs(states[0]) + Routes(Pairs(sent), l)
    ensures forall source, sink :: (source, sink) in Pairs(sent) ==>
      ListenerConfig(sink, Some(source), l) in Configs(states[|sent|])
    ensures forall m :: m in sent && NeedsRoute(Some(l), m) ==> (m.source.value, m.sink.value) in Pairs(sent)
    ensures Routes(Pairs(sent), l) !! Configs(states[0]) ==> |states[0].free| - |states[|sent|].free| == |Pairs(sent)|
  {
    var added := Routes(Pairs(sent), l) - Configs(states[0]);
    SendsAddRoutes(states, t, l, sent);
    AllocatedCount(states[0], t, added, states[|sent|]);
    RoutesDistinct(Pairs(sent), l);
    forall source, sink | (source, sink) in Pairs(sent) ensures ListenerConfig(sink, Some(source), l) in Routes(Pairs(sent), l) {
      assert Route((source, sink).0, (source, sink).1, l) in Routes(Pairs(sent), l);
    }
    GrownMinus(Configs(states[0]), Routes(Pairs(sent), l), {}, Configs(states[|sent|]));
  }
}
