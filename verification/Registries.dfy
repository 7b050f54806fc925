/**
 * What the laws of module Lifecycle mean between calls: when the registries
 * hold exactly the open objects, who has been told, and exactly what a
 * closing call closes.
 */
module Registries {
  import opened Lifecycle
  import opened Cascade

  // ---------------------------------------------------------------- events

  lemma {:induction false} ElementsOnce(s: seq<Obj>, d: set<Obj>)
    requires forall i, j :: 0 <= i < j < |s| ==> s[i] != s[j]
    requires forall x :: x in s <==> x in d
    ensures multiset(s) == multiset(d)
  {
    if s != [] {
      var x, rest := s[|s| - 1], s[..|s| - 1];
      assert s == rest + [x];
      forall y
        ensures y in rest <==> y in d - {x}
      {
        if y in rest {
          var i :| 0 <= i < |rest| && rest[i] == y;
          assert s[i] == y && s[|s| - 1] == x;
        }
      }
      ElementsOnce(rest, d - {x});
      assert multiset(d) == multiset(d - {x}) + multiset{x};
    } else {
      assert d == {};
    }
  }

  /** The observers of exactly the closed objects whose request did not fail have been told, once each. */
  lemma EmittedOnce(w: World)
    requires Laws(w, {})
    ensures multiset(w.emitted) == multiset(w.closed - w.failed)
  {
    LawsGive(w, {});
    hide Laws, Shape, EntryLaw;
    forall x
      ensures x in w.emitted <==> x in w.closed - w.failed
    {
      assert Done(w, x) <==> x in w.closed - w.failed;
    }
    ElementsOnce(w.emitted, w.closed - w.failed);
  }

  /** In every state an object's observer has been told after the observers of all that it owns. */
  lemma ToldBottomUp(w: World, i: nat, j: nat)
    requires Laws(w, {}) && i < |w.emitted| && j < |w.emitted| && Owns(w, w.emitted[i], w.emitted[j])
    ensures j < i
  {
    LawsGive(w, {});
    hide Laws, Shape, EntryLaw, EmitLaw;
    forall k | i <= k < |w.emitted|
      ensures w.emitted[k] in w.emitted[i..]
    {
      assert w.emitted[i..][k - i] == w.emitted[k];
    }
    assert OwnedBefore(w, i);
  }

  // ---------------------------------------------------------------- registries

  /** A transport's map is right about a producer unless its close request failed and the transport is still there. */
  lemma ListedByTransportIff(w: World, p: Obj)
    requires Laws(w, {}) && IsProducer(w, p)
    ensures (InTransportMap(w, p) <==> p !in w.closed) <==> !(p in w.failed && !Done(w, w.owner[p]))
  {
    LawsGive(w, {});
    LawsGiveAt(w, {}, p);
  }

  /** A router's map can also be wrong about an open producer: when its transport's close failed before the router's. */
  lemma ListedByRouterIff(w: World, p: Obj)
    requires Laws(w, {}) && IsProducer(w, p)
    ensures var t, r := w.owner[p], RouterOf(w, p);
            (InRouterMap(w, p) <==> p !in w.closed) <==>
            if p in w.closed then p !in w.failed || Done(w, t) || Done(w, r) else t !in w.failed || !Done(w, r)
  {
    LawsGive(w, {});
    LawsGiveAt(w, {}, p);
    LawsGiveAt(w, {}, w.owner[p]);
  }

  lemma ConsumerListedIff(w: World, c: Obj)
    requires Laws(w, {}) && IsConsumer(w, c)
    ensures (c in w.transportConsumers <==> c !in w.closed) <==> !(c in w.failed && !Done(w, w.owner[c]))
  {
    LawsGive(w, {});
    LawsGiveAt(w, {}, c);
  }

  lemma TransportListedIff(w: World, t: Obj)
    requires Laws(w, {}) && IsTransport(w, t)
    ensures (t in w.routerTransports <==> t !in w.closed) <==> !(t in w.failed && !Done(w, w.owner[t]))
  {
    LawsGive(w, {});
    LawsGiveAt(w, {}, t);
  }

  /** A failed request leaves the closed producer listed by both maps and its linked consumer as it was. */
  lemma FailedStaysListed(w: World, p: Obj)
    requires Laws(w, {}) && IsProducer(w, p) && p !in w.closed
    ensures var w' := CloseFailed(w, p);
            && Laws(w', {}) && p in w'.closed
            && InTransportMap(w', p)
            && (InRouterMap(w', p) <==> !Done(w, RouterOf(w, p)))
            && (p in w.partner ==> (w.partner[p] in w'.closed <==> w.partner[p] in w.closed))
  {
    CloseFailedLaws(w, p, {});
    LawsGiveAt(w, {}, p);
    assert p in w.partner ==> GoodLink(w, p);
  }

  /** With no failed request, every registry holds exactly the open objects. */
  ghost predicate Exact(w: World) {
    && (forall p :: IsProducer(w, p) ==> (InTransportMap(w, p) <==> p !in w.closed))
    && (forall p :: IsProducer(w, p) ==> (InRouterMap(w, p) <==> p !in w.closed))
    && (forall k :: k in w.transportProducers ==> w.transportProducers[k] !in w.closed)
    && (forall k :: k in w.routerProducers ==> w.routerProducers[k] !in w.closed)
    && (forall c :: c in w.transportConsumers <==> IsConsumer(w, c) && c !in w.closed)
    && (forall t :: t in w.routerTransports <==> IsTransport(w, t) && t !in w.closed)
  }

  lemma RegistriesExact(w: World)
    requires Laws(w, {}) && w.failed == {}
    ensures Exact(w)
  {
    LawsGive(w, {});
    hide Laws, Shape;
    forall p | IsProducer(w, p)
      ensures (InTransportMap(w, p) <==> p !in w.closed) && (InRouterMap(w, p) <==> p !in w.closed)
    {
      ListedByTransportIff(w, p);
      ListedByRouterIff(w, p);
    }
    forall c | IsConsumer(w, c)
      ensures c in w.transportConsumers <==> c !in w.closed
    {
      ConsumerListedIff(w, c);
    }
    forall t | IsTransport(w, t)
      ensures t in w.routerTransports <==> t !in w.closed
    {
      TransportListedIff(w, t);
    }
  }

  /** A router's producers map is the disjoint union of its transports' maps. */
  lemma RouterMapIsDisjointUnion(w: World, r: Obj, id: string, p: Obj)
    requires Laws(w, {}) && w.failed == {}
    ensures (Key(r, id) in w.routerProducers && w.routerProducers[Key(r, id)] == p) <==>
            exists t :: IsTransport(w, t) && w.owner[t] == r
                        && Key(t, id) in w.transportProducers && w.transportProducers[Key(t, id)] == p
    ensures forall t, t' ::
              (IsTransport(w, t) && IsTransport(w, t') && w.owner[t] == r && w.owner[t'] == r
               && Key(t, id) in w.transportProducers && Key(t', id) in w.transportProducers) ==> t == t'
  {
    RegistriesExact(w);
    LawsGive(w, {});
    hide Laws, Shape;
    if Key(r, id) in w.routerProducers && w.routerProducers[Key(r, id)] == p {
      assert InRouterMap(w, p);
      assert InTransportMap(w, p) && IsTransport(w, w.owner[p]);
    }
    forall t | IsTransport(w, t) && w.owner[t] == r && Key(t, id) in w.transportProducers
      ensures Key(r, id) in w.routerProducers && w.routerProducers[Key(r, id)] == w.transportProducers[Key(t, id)]
      ensures w.owner[w.transportProducers[Key(t, id)]] == t
    {
      var q := w.transportProducers[Key(t, id)];
      assert TransportKey(w, q) == Key(t, id) && InRouterMap(w, q);
    }
  }

  // ---------------------------------------------------------------- pipes

  /** With no failed request both ends of a link are open or both are closed. */
  lemma LinkedTogether(w: World, x: Obj)
    requires Laws(w, {}) && w.failed == {} && x in w.partner
    ensures x in w.closed <==> w.partner[x] in w.closed
  {
    LawsGive(w, {});
    assert GoodLink(w, x);
    LawsGiveAt(w, {}, x);
    LawsGiveAt(w, {}, w.partner[x]);
  }

  /** With no failed request a pair of pipe transports has its entry exactly while it is open. */
  lemma PairListedIff(w: World, t: Obj)
    requires Laws(w, {}) && w.failed == {} && t in w.pairKeys
    ensures InPair(w, t) <==> t !in w.closed
    ensures t in w.partner && (t !in w.closed <==> w.partner[t] !in w.closed)
  {
    LawsGive(w, {});
    assert GoodPairKey(w, t);
    LinkedTogether(w, t);
    LawsGiveAt(w, {}, t);
    LawsGiveAt(w, {}, w.partner[t]);
    LawsGivePair(w, {}, w.pairKeys[t]);
  }

  // ---------------------------------------------------------------- exactly what is closed

  /** Everything that ownership and links lead to from an object. */
  ghost function Cone(w: World, x: Obj): set<Obj> {
    set y | y in w.objs && forall s :: Sealed(w, s) && x in s ==> y in s
  }

  lemma ConeIsSealed(w: World, x: Obj)
    requires Shape(w) && x in w.objs
    ensures Sealed(w, Cone(w, x)) && x in Cone(w, x)
  {
    forall y | y in w.partner && y in Cone(w, x)
      ensures w.partner[y] in Cone(w, x)
    {
      assert GoodLink(w, y);
    }
  }

  /** With no failed request the closed objects are closed under ownership and links. */
  lemma ClosedIsSealed(w: World)
    requires Laws(w, {}) && w.failed == {}
    ensures Sealed(w, w.closed)
  {
    LawsGive(w, {});
    assert forall x :: x in w.objs && x in w.closed ==> Done(w, x);
    ClosedWithin(w, w.objs);
    assert w.objs * w.closed == w.closed;
  }

  /** Nor does it take more than that the requests of a sealed set have not failed: its closed objects are sealed. */
  lemma ClosedWithin(w: World, zone: set<Obj>)
    requires Laws(w, {}) && Sealed(w, zone) && forall x :: x in zone && x in w.closed ==> Done(w, x)
    ensures Sealed(w, zone * w.closed)
  {
    forall x | x in w.objs && !x.Router? && x in w.owner && w.owner[x] in zone * w.closed
      ensures x in zone * w.closed
    {
      LawsGiveAt(w, {}, x);
    }
    forall x | x in w.partner && x in zone * w.closed
      ensures w.partner[x] in zone * w.closed
    {
      LawsGiveAt(w, {}, x);
    }
  }

  /** Whatever call closed `x`: if no request for an object reachable from `x` has failed, it closed exactly those. */
  lemma CascadeIsExact(w: World, w': World, x: Obj)
    requires Laws(w, {}) && x in w.objs && Step(w, w', {}, Cone(w, x)) && x in w'.closed
    requires forall y :: y in Cone(w, x) ==> y !in w'.failed
    ensures w'.closed == w.closed + Cone(w, x)
  {
    hide Laws;
    LawsGive(w, {});
    ConeIsSealed(w, x);
    SealedLater(w, w', Cone(w, x));
    ClosedWithin(w', Cone(w, x));
    var reached := Cone(w, x) * w'.closed;
    assert Sealed(w, reached) && x in reached;
    assert Cone(w, x) <= reached;
  }

  /** Closing any of the four ends of a pipe reaches its consumer and producer, and a transport reaches the other. */
  lemma PipeClosesTogether(w: World, k: PairKey, ends: Pair, c: Obj, p: Obj, id: string, x: Obj)
    requires Laws(w, {}) && IsPiped(w, k, ends, c, p, id) && c.Consumer? && p.Producer?
    requires x in {c, p, ends.local, ends.remote}
    ensures {c, p} <= Cone(w, x)
    ensures x in {ends.local, ends.remote} ==> {ends.local, ends.remote} <= Cone(w, x)
  {
    hide Laws, Shape;
    LawsGive(w, {});
    assert GoodLink(w, ends.local) by {
      assert Shape(w);
      LinkIsGood(w, ends.local);
    }
    forall s | Sealed(w, s) && x in s
      ensures c in s && p in s
      ensures x in {ends.local, ends.remote} ==> ends.local in s && ends.remote in s
    {
    }
  }

  lemma LinkIsGood(w: World, x: Obj)
    requires Shape(w) && x in w.partner
    ensures GoodLink(w, x)
  {
  }

  /**
   * Close on any object. It fails exactly when the worker refuses its request.
   * If the worker grants the requests of all that is reachable from it, and no
   * earlier one of them has failed, exactly those objects close; and if no
   * earlier request at all has failed, the registries are exact again.
   */
  method CloseObject(s: Session, x: Obj) returns (err: bool)
    requires Laws(s.View(), {}) && s.Honest() && x in s.objs
    modifies s
    ensures Laws(s.View(), {}) && s.Honest() && Later(old(s.View()), s.View()) && x in s.closed
    ensures err <==> x !in old(s.closed) && !s.grants(Close(x))
    ensures err ==> s.View() == CloseFailed(old(s.View()), x)
    ensures x !in old(s.closed) && !err ==> Done(s.View(), x)
    ensures s.closed <= old(s.closed) + Cone(old(s.View()), x)
    ensures (forall y :: y in Cone(old(s.View()), x) ==> s.grants(Close(y)) && y !in old(s.failed)) ==>
              s.closed == old(s.closed) + Cone(old(s.View()), x) && s.failed == old(s.failed)
    ensures old(s.failed) == {} && (forall y :: y in Cone(old(s.View()), x) ==> s.grants(Close(y))) ==> Exact(s.View())
  {
    hide Laws, Later, Exact;
    ghost var w := s.View();
    ghost var zone := Cone(w, x);
    LawsGive(w, {});
    ConeIsSealed(w, x);
    assert GoodObject(w, x);
    match x {
      case Router(_) => err := s.CloseRouter(x, false, zone);
      case Transport(_) => err := s.CloseTransport(x, {}, zone);
      case Producer(_) => err := s.CloseProducer(x, {}, zone);
      case Consumer(_) => err := s.CloseConsumer(x, {}, zone);
    }
    if forall y :: y in zone ==> s.grants(Close(y)) && y !in w.failed {
      FailuresAreRefused(s, w, zone);
      CascadeIsExact(w, s.View(), x);
      if w.failed == {} {
        RegistriesExact(s.View());
      }
    }
  }

  /** If the worker grants every request of the zone, no request has failed meanwhile. */
  lemma FailuresAreRefused(s: Session, w: World, zone: set<Obj>)
    requires Step(w, s.View(), {}, zone) && s.Honest() && forall y :: y in zone ==> s.grants(Close(y))
    ensures s.failed == w.failed
  {
    LawsGive(s.View(), {});
    hide Laws;
    forall y | y in s.failed
      ensures y in w.failed
    {
      assert y in s.View().closed;
    }
  }
}
