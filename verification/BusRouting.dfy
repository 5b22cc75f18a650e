/**
  Who hears a bus message.

  A source first looks the message's element up among its own sinks; failing that it asks every
  attached filter, which looks among its sinks. Only if neither path claims the message do the
  source's own handlers see it.
 */
module BusRouting {
  import opened MediaGraph

  /** The sink that should hear a message sent by `e` on the pipeline of `s`. */
  ghost predicate Hears(k: Sink, s: Source, e: Element, g: Graph)
    reads g, g.sinks
  {
    k in g.sinks && k.element == e && (k.source == s || exists f :: f in g.sinks && ThroughFilter(f, k, s, g))
  }

  /** `k` hangs on the filter whose sink half `f` hangs on `s`. */
  ghost predicate ThroughFilter(f: Sink, k: Sink, s: Source, g: Graph)
    reads g, g.sinks
  {
    f in g.sinks && f.source == s && f.back != null && k in g.sinks && k.source == f.back
  }

  /** An element has one owner, so two sinks can never both hear a message. */
  lemma OneListener(k: Sink, l: Sink, s: Source, e: Element, g: Graph)
    requires g.Valid() && Hears(k, s, e, g) && Hears(l, s, e, g)
    ensures k == l
  {
    assert g.Placed(k) && g.Placed(l);
  }

  /** A filter's own handler: compares the element of every sink it lists. */
  method FilterHandle(s: Source, e: Element, ghost g: Graph) returns (handled: bool, heard: seq<Sink>)
    requires g.Valid() && s in g.sources
    ensures handled <==> e in s.sinks
    ensures heard == if e in s.sinks then [s.sinks[e]] else []
  {
    handled, heard := false, [];
    assert g.Listed(s);
    var ahead := s.sinks.Keys;
    while ahead != {}
      invariant ahead <= s.sinks.Keys
      invariant handled <==> e in s.sinks && e !in ahead
      invariant heard == if handled then [s.sinks[e]] else []
    {
      var it :| it in ahead;
      ahead := ahead - {it};
      var k := s.sinks[it];
      if k.element == e {
        heard := heard + [k];
        handled := true;
      }
    }
  }

  /** `heard` lists exactly the sinks whose handlers ran; `drop` keeps the message from the source's own handlers. */
  method HandleSinkMessage(s: Source, origin: Element?, ghost g: Graph) returns (drop: bool, heard: seq<Sink>)
    requires g.Valid() && s in g.sources
    ensures |heard| <= 1
    ensures origin == null ==> !drop && heard == []
    ensures origin != null ==> forall k :: k in heard <==> Hears(k, s, origin, g)
    ensures origin != null && origin in s.sinks ==> drop && heard == [s.sinks[origin]]
    ensures origin != null ==> (drop <==> origin in s.sinks || exists f :: f in s.queues && f.back != null)
  {
    drop, heard := false, [];
    if origin != null {
      assert g.Listed(s);
      if origin in s.sinks {
        heard := [s.sinks[origin]];
        drop := true;
        DirectListener(s, origin, g);
      } else {
        drop, heard := AskFilters(s, origin, g);
        FilterListener(s, origin, g);
      }
    }
  }

  lemma DirectListener(s: Source, e: Element, g: Graph)
    requires g.Valid() && s in g.sources && e in s.sinks
    ensures forall k :: k == s.sinks[e] <==> Hears(k, s, e, g)
  {
    assert g.Listed(s);
    forall k | Hears(k, s, e, g) ensures k == s.sinks[e] {
      OneListener(k, s.sinks[e], s, e, g);
    }
  }

  /** The sink half of a filter attached to `s` whose filter lists the sender. */
  predicate Relays(f: Sink, s: Source, e: Element)
    reads s, f, f.back
  {
    f in s.queues && f.back != null && e in f.back.sinks
  }

  lemma FilterListener(s: Source, e: Element, g: Graph)
    requires g.Valid() && s in g.sources && e !in s.sinks
    ensures forall k :: Hears(k, s, e, g) <==> exists f :: Relays(f, s, e) && k == f.back.sinks[e]
  {
    assert g.Listed(s);
    forall k | Hears(k, s, e, g) ensures exists f :: Relays(f, s, e) && k == f.back.sinks[e] {
      assert g.Placed(k);
      var f :| f in g.sinks && ThroughFilter(f, k, s, g);
      assert g.Placed(f) && g.Listed(f.back);
      assert Relays(f, s, e);
    }
    forall k, f | Relays(f, s, e) && k == f.back.sinks[e] ensures Hears(k, s, e, g) {
      assert g.Placed(f) && g.Listed(f.back);
      assert ThroughFilter(f, k, s, g);
    }
  }

  /** Walks the sinks of `s` and passes the message to every filter among them. */
  method AskFilters(s: Source, e: Element, ghost g: Graph) returns (drop: bool, heard: seq<Sink>)
    requires g.Valid() && s in g.sources && e !in s.sinks
    ensures |heard| <= 1
    ensures forall k :: k in heard <==> exists f :: Relays(f, s, e) && k == f.back.sinks[e]
    ensures drop <==> exists f :: f in s.queues && f.back != null
  {
    drop, heard := false, [];
    assert g.Listed(s);
    var ahead := s.sinks.Keys;
    while ahead != {}
      invariant ahead <= s.sinks.Keys
      invariant |heard| <= 1
      invariant forall k :: k in heard <==> exists f :: Relays(f, s, e) && f.element !in ahead && k == f.back.sinks[e]
      invariant drop <==> exists f :: f in s.queues && f.element !in ahead && f.back != null
    {
      var it :| it in ahead;
      ahead := ahead - {it};
      var f := s.sinks[it];
      if f.back != null {
        assert g.Placed(f);
        var handled, more := FilterHandle(f.back, e, g);
        if handled {
          if heard != [] {
            assert heard[0] in heard;
            var f' :| Relays(f', s, e) && f'.element !in ahead && f'.element != it && heard[0] == f'.back.sinks[e];
            OneFilter(f, f', s, e, g);
          }
          assert Relays(f, s, e);
        }
        heard := heard + more;
        drop := true;
      }
    }
  }

  lemma OneFilter(f: Sink, f': Sink, s: Source, e: Element, g: Graph)
    requires g.Valid() && s in g.sources && Relays(f, s, e) && Relays(f', s, e)
    ensures f == f'
  {
    assert g.Listed(s) && g.Placed(f) && g.Placed(f') && g.Listed(f.back) && g.Listed(f'.back);
    assert g.Placed(f.back.sinks[e]) && g.Placed(f'.back.sinks[e]);
  }

  /** Bus dispatch: the source's own handlers run exactly when no sink or filter claimed the message. */
  method HandleBusMessage(s: Source, origin: Element?, ghost g: Graph) returns (own: bool, heard: seq<Sink>)
    requires g.Valid() && s in g.sources
    ensures |heard| <= 1 && (heard != [] ==> !own)
    ensures origin == null ==> heard == []
    ensures origin != null ==> forall k :: k in heard <==> Hears(k, s, origin, g)
    // A directly attached sink hears its own element's messages alone.
    ensures forall k <- s.queues | k.element == origin :: heard == [k] && !own
    // One attached filter, concerned or not, hides every element's message from the source's own handlers.
    ensures own <==> origin == null || (origin !in s.sinks && forall f <- s.queues :: f.back == null)
  {
    var drop;
    drop, heard := HandleSinkMessage(s, origin, g);
    own := !drop;
    assert g.Listed(s);
    if heard != [] {
      assert heard[0] in heard && Hears(heard[0], s, origin, g);
      if origin !in s.sinks {
        FilterListener(s, origin, g);
        var f :| Relays(f, s, origin) && heard[0] == f.back.sinks[origin];
      }
    }
  }
}
