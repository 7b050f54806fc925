/**
 * The calls and callbacks that change the objects of module Lifecycle: the
 * Close methods, the callbacks that run inside one another when an object
 * closes, the worker's notifications, and the calls that create and pipe
 * (mediasoup/router.go, transport.go, producer.go, consumer.go,
 * pipe_transport.go). Worker replies are an input of the session, except that
 * the worker refuses requests on objects it has closed and producer ids
 * already taken.
 */
module Cascade {
  import opened Lifecycle

  /** What the worker is asked: to close an object, to create one, to connect a pipe transport. */
  datatype Request = Close(x: Obj) | Create(x: Obj) | Connect(x: Obj)

  /** A set of objects that no ownership or link leads out of. */
  ghost predicate Sealed(w: World, zone: set<Obj>) {
    && (forall x :: x in w.objs && !x.Router? && x in w.owner && w.owner[x] in zone ==> x in zone)
    && (forall x :: x in w.partner && x in zone ==> w.partner[x] in zone)
  }

  /** What every closing call achieves: the laws hold, and nothing outside `zone` is closed. */
  ghost predicate Step(w: World, w': World, busy: set<Obj>, zone: set<Obj>) {
    && Laws(w', busy)
    && Later(w, w')
    && NewlyEmitted(w, w')
    && w'.closed <= w.closed + zone
  }

  lemma StepTransitive(w: World, w': World, w'': World, busy: set<Obj>, busy': set<Obj>, zone: set<Obj>)
    requires Step(w, w', busy, zone) && Step(w', w'', busy', zone)
    ensures Step(w, w'', busy', zone)
  {
    hide Laws;
  }

  lemma StepReflexive(w: World, busy: set<Obj>, zone: set<Obj>)
    requires Laws(w, busy)
    ensures Step(w, w, busy, zone)
  {
    hide Laws;
  }

  lemma SealedLater(w: World, w': World, zone: set<Obj>)
    requires Sealed(w, zone) && Later(w, w')
    ensures Sealed(w', zone)
  {
  }

  // ---------------------------------------------------------------- single changes, as steps

  lemma FailedStep(w: World, x: Obj, busy: set<Obj>, zone: set<Obj>)
    requires Laws(w, busy) && x in w.objs && x !in w.closed && x in zone
    ensures Step(w, CloseFailed(w, x), busy, zone)
  {
    CloseFailedLaws(w, x, busy);
    hide Laws, Later;
  }

  lemma ProducerGoneStep(w: World, p: Obj, busy: set<Obj>, zone: set<Obj>)
    requires Laws(w, busy) && IsProducer(w, p) && p !in w.closed && p in zone
    ensures Step(w, ProducerGone(w, p), busy + {p}, zone)
  {
    ProducerGoneLaws(w, p, busy);
    hide Laws, Later;
  }

  lemma ConsumerGoneStep(w: World, c: Obj, busy: set<Obj>, zone: set<Obj>)
    requires Laws(w, busy) && IsConsumer(w, c) && c !in w.closed && c in zone
    ensures Step(w, ConsumerGone(w, c), busy + {c}, zone)
  {
    ConsumerGoneLaws(w, c, busy);
    hide Laws, Later;
  }

  lemma OrphanedStep(w: World, x: Obj, busy: set<Obj>, zone: set<Obj>)
    requires Laws(w, busy) && IsLeaf(w, x) && x !in w.closed && w.owner[x] in busy && x in zone
    ensures Step(w, Orphaned(w, x), busy + {x}, zone)
  {
    OrphanedLaws(w, x, busy);
    hide Laws, Later;
  }

  lemma MarkedStep(w: World, x: Obj, busy: set<Obj>, zone: set<Obj>)
    requires Laws(w, busy) && (IsTransport(w, x) || IsRouter(w, x)) && x !in w.closed && x in zone
    ensures Step(w, Marked(w, x), busy + {x}, zone)
  {
    MarkedLaws(w, x, busy);
    hide Laws, Later;
  }

  /** The linked end of a producer is a consumer, and the other way round. */
  lemma LinkedLeaf(w: World, busy: set<Obj>, x: Obj)
    requires Laws(w, busy) && x in w.partner
    ensures x.Producer? ==> IsConsumer(w, w.partner[x])
    ensures x.Consumer? ==> IsProducer(w, w.partner[x])
    ensures x.Transport? ==> IsTransport(w, w.partner[x]) && x in w.pairKeys
  {
    assert GoodLink(w, x) && GoodObject(w, w.partner[x]);
  }

  /** A leaf that has been announced, and whose linked end has been closed, is settled. */
  lemma LeafSettles(w: World, w': World, w'': World, x: Obj, busy: set<Obj>, zone: set<Obj>)
    requires Laws(w, busy) && IsLeaf(w, x)
    requires Step(w, w', busy + {x}, zone) && x in w'.emitted
    requires Step(w', w'', busy + {x}, zone) && (x in w.partner ==> w.partner[x] in w''.closed)
    ensures Step(w, w'', busy, zone) && x in w''.emitted && x in w''.closed && x !in w''.failed
  {
    hide Laws;
    StepTransitive(w, w', w'', busy + {x}, busy + {x}, zone);
    assert x in w''.emitted;
    ReleaseLeaf(w'', x, busy);
    LawsGive(w'', busy);
  }

  lemma SameLinks(w: World, w': World, x: Obj)
    requires Later(w, w')
    ensures w'.partner == w.partner && (x in w.partner ==> w'.partner[x] == w.partner[x])
    ensures IsLeaf(w, x) ==> IsLeaf(w', x)
  {
  }

  lemma OpenShrinks(w: World, w': World)
    requires Later(w, w')
    ensures Open(w') <= Open(w)
  {
  }

  // ---------------------------------------------------------------- sweeping a transport

  /** A producer in the transport's map is the one the router's map has under its id, if any. */
  ghost predicate Unmixed(w: World, t: Obj) {
    forall p :: IsProducer(w, p) && w.owner[p] == t && InTransportMap(w, p) && RouterKey(w, p) in w.routerProducers ==>
                  InRouterMap(w, p)
  }

  lemma OpenIsUnmixed(w: World, busy: set<Obj>, t: Obj)
    requires Laws(w, busy) && IsTransport(w, t) && t !in w.closed
    ensures Unmixed(w, t)
  {
    hide LinkLaw, PairLaw, PairEntryLaw, TransportLaw, ConsumerLaw, EmitLaw, EntryLaw, Shape;
    assert t !in busy && ChildLaw(w, busy, t);
    forall p | IsProducer(w, p) && w.owner[p] == t && InTransportMap(w, p) && RouterKey(w, p) in w.routerProducers
      ensures InRouterMap(w, p)
    {
      assert ProducerLaw(w, busy, p);
    }
  }

  lemma UnmixedLater(w: World, w': World, t: Obj)
    requires Unmixed(w, t) && Later(w, w')
    ensures Unmixed(w', t)
  {
    forall p | IsProducer(w', p) && w'.owner[p] == t && InTransportMap(w', p) && RouterKey(w', p) in w'.routerProducers
      ensures InRouterMap(w', p)
    {
      assert IsProducer(w, p) && InTransportMap(w, p);
    }
  }

  /** All producers in the transport's map but those still to be visited are closed and off the router's map. */
  ghost predicate ProducersVisited(w: World, t: Obj, todo: set<Key>) {
    forall p :: IsProducer(w, p) && w.owner[p] == t && InTransportMap(w, p) ==>
                  TransportKey(w, p) in todo || (p in w.closed && RouterKey(w, p) !in w.routerProducers)
  }

  lemma VisitedOne(w: World, w': World, t: Obj, todo: set<Key>, k: Key)
    requires ProducersVisited(w, t, todo) && (w' == w || Later(w, w'))
    requires k in w.transportProducers ==>
               var p := w.transportProducers[k];
               IsProducer(w', p) && p in w'.closed && RouterKey(w', p) !in w'.routerProducers
    ensures ProducersVisited(w', t, todo - {k})
  {
    forall p | IsProducer(w', p) && w'.owner[p] == t && InTransportMap(w', p)
      ensures TransportKey(w', p) in todo - {k} || (p in w'.closed && RouterKey(w', p) !in w'.routerProducers)
    {
      assert IsProducer(w, p) && InTransportMap(w, p);
    }
  }

  /** With nobody left to visit, the transport's producers are closed and off the router's map. */
  lemma AllProducersVisited(w: World, busy: set<Obj>, t: Obj)
    requires Laws(w, busy) && ProducersVisited(w, t, {})
    ensures forall p :: IsProducer(w, p) && w.owner[p] == t ==> p in w.closed
    ensures forall k :: k in w.routerProducers ==> w.owner[w.routerProducers[k]] != t
  {
    hide LinkLaw, PairLaw, PairEntryLaw, TransportLaw, ConsumerLaw, EmitLaw, ChildLaw, Shape;
    forall p | IsProducer(w, p) && w.owner[p] == t
      ensures p in w.closed && !InRouterMap(w, p)
    {
      assert ProducerLaw(w, busy, p);
    }
  }

  ghost predicate ConsumersVisited(w: World, t: Obj, todo: set<Obj>) {
    forall c :: IsConsumer(w, c) && w.owner[c] == t && c in w.transportConsumers ==> c in todo || c in w.closed
  }

  lemma VisitedConsumer(w: World, w': World, t: Obj, todo: set<Obj>, c: Obj)
    requires ConsumersVisited(w, t, todo) && (w' == w || Later(w, w'))
    requires c in w.transportConsumers ==> c in w'.closed
    ensures ConsumersVisited(w', t, todo - {c})
  {
  }

  lemma ConsumersOwned(w: World)
    requires EntryLaw(w)
    ensures forall c :: c in w.transportConsumers ==> c in w.owner
  {
  }

  lemma AllConsumersVisited(w: World, busy: set<Obj>, t: Obj)
    requires Laws(w, busy) && ConsumersVisited(w, t, {})
    ensures forall c :: IsConsumer(w, c) && w.owner[c] == t ==> c in w.closed
  {
    forall c | IsConsumer(w, c) && w.owner[c] == t
      ensures c in w.closed
    {
      assert ConsumerLaw(w, busy, c);
    }
  }

  lemma SweptLater(w: World, w': World, t: Obj)
    requires EntryLaw(w) && EntryLaw(w') && Later(w, w')
    ensures ProducersSwept(w, t) ==> ProducersSwept(w', t)
    ensures ConsumersSwept(w, t) ==> ConsumersSwept(w', t)
  {
    assert forall p :: IsProducer(w', p) ==> IsProducer(w, p);
    assert forall c :: IsConsumer(w', c) ==> IsConsumer(w, c);
  }

  lemma ForgetStep(w: World, w': World, p: Obj, busy: set<Obj>, zone: set<Obj>)
    requires IsProducer(w, p) && Unmixed(w, w.owner[p]) && InTransportMap(w, p) && w.owner[p] in busy
    requires Step(w, w', busy, zone) && p in w'.closed
    ensures IsProducer(w', p) && Step(w, RouterForgets(w', p), busy, zone)
  {
    hide Laws;
    RouterForgetsLaws(w', p, busy);
  }

  lemma NobodyVisited(w: World, t: Obj)
    ensures ProducersVisited(w, t, set k | k in w.transportProducers && k.of == t)
    ensures ConsumersVisited(w, t, set c | c in w.transportConsumers && c in w.owner && w.owner[c] == t)
  {
  }

  lemma EntryMeaning(w: World, busy: set<Obj>, k: Key)
    requires Laws(w, busy) && k in w.transportProducers
    ensures var p := w.transportProducers[k]; IsProducer(w, p) && w.owner[p] == k.of && InTransportMap(w, p)
  {
  }

  lemma ConsumerEntryMeaning(w: World, w': World, busy: set<Obj>, c: Obj)
    requires Later(w, w') && Laws(w', busy) && c in w'.transportConsumers
    ensures IsConsumer(w', c) && w'.owner == w.owner
  {
  }

  lemma InZone(w: World, x: Obj, zone: set<Obj>)
    requires Sealed(w, zone) && IsLeaf(w, x) && w.owner[x] in zone
    ensures x in zone
  {
  }

  lemma ProducersClearedStep(w: World, t: Obj, busy: set<Obj>, zone: set<Obj>)
    requires Laws(w, busy) && t in busy && ProducersVisited(w, t, {})
    ensures var w' := ProducersCleared(w, t); Step(w, w', busy, zone) && EntryLaw(w') && ProducersSwept(w', t)
  {
    hide Laws, Later;
    AllProducersVisited(w, busy, t);
    ProducersClearedLaws(w, t, busy);
    LawsGive(ProducersCleared(w, t), busy);
  }

  lemma ConsumersClearedStep(w: World, t: Obj, busy: set<Obj>, zone: set<Obj>)
    requires Laws(w, busy) && t in busy && ConsumersVisited(w, t, {})
    ensures EntryLaw(w)
    ensures var w' := ConsumersCleared(w, t); Step(w, w', busy, zone) && EntryLaw(w') && ConsumersSwept(w', t)
  {
    hide Laws, Later;
    LawsGive(w, busy);
    AllConsumersVisited(w, busy, t);
    ConsumersClearedLaws(w, t, busy);
    LawsGive(ConsumersCleared(w, t), busy);
  }

  // ---------------------------------------------------------------- the end of a transport

  /** Whoever is under the pair's entry, if anyone, includes this transport. */
  ghost predicate PairKnown(w: World, t: Obj) {
    t in w.pairKeys && w.pairKeys[t] in w.pairs ==> InPair(w, t)
  }

  /** What holds of a transport from just before its flag is set until it is announced. */
  ghost predicate Closing(w: World, t: Obj) {
    IsTransport(w, t) && Unmixed(w, t) && PairKnown(w, t) && t !in w.emitted && w.owner[t] !in w.emitted
  }

  lemma OpenIsClosing(w: World, busy: set<Obj>, t: Obj)
    requires Laws(w, busy) && IsTransport(w, t) && t !in w.closed
    ensures t !in busy && Closing(Marked(w, t), t)
  {
    OpenIsUnmixed(w, busy, t);
    assert Unmixed(Marked(w, t), t) by {
      hide Laws;
      assert forall p :: IsProducer(Marked(w, t), p) ==> IsProducer(w, p);
    }
    LawsGiveAt(w, busy, t);
    OpenOwner(w, t);
    assert t in w.pairKeys ==> GoodPairKey(w, t);
  }

  /** The objects of a zone that are not routers: closing a transport closes no router. */
  function BelowRouters(zone: set<Obj>): set<Obj> {
    set x | x in zone && !x.Router?
  }

  lemma BelowIsSealed(w: World, busy: set<Obj>, zone: set<Obj>)
    requires Laws(w, busy) && Sealed(w, zone)
    ensures Sealed(w, BelowRouters(zone))
  {
    LawsGive(w, busy);
    hide Laws;
    forall x | x in w.partner && x in BelowRouters(zone)
      ensures w.partner[x] in BelowRouters(zone)
    {
      assert GoodLink(w, x);
    }
  }

  lemma StepWider(w: World, w': World, busy: set<Obj>, zone: set<Obj>)
    requires Step(w, w', busy, BelowRouters(zone))
    ensures Step(w, w', busy, zone)
  {
    hide Laws, Later;
  }

  lemma ClosingLater(w: World, w': World, t: Obj, busy: set<Obj>, zone: set<Obj>)
    requires Closing(w, t) && t in w.closed && Step(w, w', busy, BelowRouters(zone))
    ensures Closing(w', t)
  {
    UnmixedLater(w, w', t);
    LawsGive(w', busy);
    hide Laws;
    assert w.owner[t] in w'.emitted ==> Done(w', w.owner[t]);
  }

  /** A swept transport owns nothing open. */
  lemma SweptOwnsNothing(w: World, busy: set<Obj>, t: Obj)
    requires Laws(w, busy) && EntryLaw(w) && ProducersSwept(w, t) && ConsumersSwept(w, t) && t.Transport?
    ensures forall y :: Owns(w, t, y) ==> y in w.closed
  {
    LawsGive(w, busy);
    hide Laws;
    forall y | Owns(w, t, y)
      ensures y in w.closed
    {
      assert GoodObject(w, y);
    }
  }

  /** `w0` is the state before the transport's flag was set. */
  lemma TransportGoneStep(w0: World, w: World, t: Obj, byRouter: bool, busy: set<Obj>, zone: set<Obj>)
    requires t !in w0.closed && Step(w0, w, busy, zone) && t in busy && Closing(w, t)
    requires forall y :: Owns(w, t, y) ==> y in w.closed
    ensures Step(w0, TransportGone(w, t, byRouter), busy, zone)
  {
    hide Laws;
    TransportGoneLaws(w, t, byRouter, busy);
  }

  lemma PairDeletedStep(w: World, w': World, t: Obj, busy: set<Obj>, zone: set<Obj>)
    requires PairKnown(w, t) && t in w.pairKeys && t in busy && Step(w, w', busy, zone)
    ensures t in w'.pairKeys && Step(w, PairDeleted(w', t), busy, zone)
  {
    hide Laws;
    PairDeletedLaws(w', t, busy);
  }

  /** All that a transport's closing must achieve, but for its link. */
  ghost predicate Announced(w: World, t: Obj, byRouter: bool) {
    && EntryLaw(w)
    && t in w.emitted
    && ProducersSwept(w, t)
    && ConsumersSwept(w, t)
    && (byRouter || t !in w.routerTransports)
  }

  lemma AnnouncedLater(w: World, w': World, t: Obj, byRouter: bool)
    requires Announced(w, t, byRouter) && Later(w, w') && EntryLaw(w')
    ensures Announced(w', t, byRouter)
  {
    SweptLater(w, w', t);
  }

  lemma GoneIsAnnounced(w: World, t: Obj, byRouter: bool)
    requires EntryLaw(w) && ProducersSwept(w, t) && ConsumersSwept(w, t)
    ensures Announced(TransportGone(w, t, byRouter), t, byRouter)
    ensures PairKnown(w, t) ==> PairKnown(TransportGone(w, t, byRouter), t)
  {
    var w' := TransportGone(w, t, byRouter);
    assert w'.emitted[|w.emitted|] == t;
    assert forall p :: IsProducer(w', p) ==> IsProducer(w, p);
    assert forall c :: IsConsumer(w', c) ==> IsConsumer(w, c);
    assert forall p :: IsProducer(w, p) ==> IsProducer(w', p);
    assert forall c :: IsConsumer(w, c) ==> IsConsumer(w', c);
    assert forall t :: IsTransport(w, t) ==> IsTransport(w', t);
  }

  lemma TransportReturns(w0: World, w: World, t: Obj, byRouter: bool, busy: set<Obj>, zone: set<Obj>)
    requires Step(w0, w, busy + {t}, zone) && IsTransport(w0, t) && Announced(w, t, byRouter)
    requires byRouter ==> w0.owner[t] in busy
    requires t in w.partner ==> w.partner[t] in w.closed && t in w.pairKeys && w.pairKeys[t] !in w.pairs
    ensures Step(w0, w, busy, zone) && Done(w, t)
  {
    hide Laws, ProducersSwept, ConsumersSwept, EntryLaw;
    BusyIsClosed(w, busy + {t}, t);
    ReleaseTransport(w, t, busy);
  }

  lemma ZoneLinks(w: World, x: Obj, zone: set<Obj>)
    requires Sealed(w, zone) && x in zone
    ensures x in w.partner ==> w.partner[x] in zone
  {
  }

  lemma BusyIsClosed(w: World, busy: set<Obj>, t: Obj)
    requires Laws(w, busy) && t in busy
    ensures Done(w, t)
  {
  }

  // ---------------------------------------------------------------- the end of a router

  ghost predicate TransportsVisited(w: World, r: Obj, todo: set<Obj>) {
    forall t :: t in w.routerTransports && t in w.owner && w.owner[t] == r ==> t in todo || t in w.closed
  }

  lemma NoTransportVisited(w: World, r: Obj)
    ensures TransportsVisited(w, r, set t | t in w.routerTransports && t in w.owner && w.owner[t] == r)
  {
  }

  lemma VisitedTransport(w: World, w': World, r: Obj, todo: set<Obj>, t: Obj)
    requires TransportsVisited(w, r, todo) && (w' == w || Later(w, w'))
    requires t in w.routerTransports ==> t in w'.closed
    ensures TransportsVisited(w', r, todo - {t})
  {
  }

  lemma TransportEntryMeaning(w: World, w': World, busy: set<Obj>, t: Obj)
    requires Later(w, w') && Laws(w', busy) && t in w'.routerTransports
    ensures IsTransport(w', t) && w'.owner == w.owner
  {
  }

  lemma TransportInZone(w: World, t: Obj, zone: set<Obj>)
    requires Sealed(w, zone) && IsTransport(w, t) && w.owner[t] in zone
    ensures t in zone
  {
  }

  lemma OpenIsUnannounced(w: World, busy: set<Obj>, x: Obj)
    requires Laws(w, busy) && x !in w.closed
    ensures x !in w.emitted
  {
  }

  lemma RouterMarked(w: World, r: Obj, zone: set<Obj>)
    requires Laws(w, {}) && IsRouter(w, r) && r !in w.closed && Sealed(w, zone) && r in zone
    ensures r !in w.emitted && Step(w, Marked(w, r), {r}, zone)
    ensures Laws(Marked(w, r), {r}) && Sealed(Marked(w, r), zone)
  {
    hide Laws;
    assert {} + {r} == {r};
    MarkedStep(w, r, {}, zone);
    SealedLater(w, Marked(w, r), zone);
    OpenIsUnannounced(w, {}, r);
  }

  lemma AllTransportsVisited(w: World, r: Obj)
    requires Laws(w, {r}) && TransportsVisited(w, r, {})
    ensures forall t :: IsTransport(w, t) && w.owner[t] == r ==> t in w.closed
  {
    forall t | IsTransport(w, t) && w.owner[t] == r
      ensures t in w.closed
    {
      assert TransportLaw(w, {r}, t);
    }
  }

  /** From the state before the flag, through the flag and the loop, to the end of the router's closing. */
  lemma RouterReturns(w0: World, w1: World, w2: World, r: Obj, zone: set<Obj>)
    requires IsRouter(w0, r) && r !in w0.closed && r !in w0.emitted && w1 == Marked(w0, r)
    requires Step(w0, w1, {r}, zone) && Step(w1, w2, {r}, zone) && TransportsVisited(w2, r, {})
    ensures forall t :: t in w2.routerTransports ==> t in w2.owner
    ensures Step(w0, RouterGone(w2, r), {}, zone) && Done(RouterGone(w2, r), r)
  {
    hide Laws, TransportsVisited;
    AllTransportsVisited(w2, r);
    LawsGive(w2, {r});
    assert {} + {r} == {r};
    RouterGoneLaws(w2, r, {});
  }

  // ---------------------------------------------------------------- creating and piping

  /** The worker has the transport and no producer with that id, in it or in its router. */
  predicate Accepts(w: World, t: Obj, id: string)
    requires IsTransport(w, t)
  {
    Alive(w, t) && Key(t, id) !in w.transportProducers && Key(w.owner[t], id) !in w.routerProducers
  }

  /** Both ends of the pair are there, and the far one can take a producer with that id. */
  predicate CanCarry(w: World, ends: Pair, id: string) {
    && IsTransport(w, ends.local) && Alive(w, ends.local)
    && IsTransport(w, ends.remote) && Accepts(w, ends.remote, id)
  }

  lemma NothingIsSealed(w: World)
    ensures Sealed(w, {})
  {
  }

  lemma SealedGrown(w: World, w': World, x: Obj, o: Obj, zone: set<Obj>)
    requires Shape(w) && Sealed(w, zone) && x !in w.objs
    requires w'.objs == w.objs + {x} && w'.owner == w.owner[x := o] && w'.partner == w.partner
    ensures Sealed(w', zone + {x})
  {
    forall y | y in w'.objs && !y.Router? && y in w'.owner && w'.owner[y] in zone + {x}
      ensures y in zone + {x}
    {
      assert y in w.objs ==> GoodObject(w, y);
    }
    forall y | y in w'.partner && y in zone + {x}
      ensures w'.partner[y] in zone + {x}
    {
      assert GoodLink(w, y);
    }
  }

  lemma FreshIsUnlinked(w: World, x: Obj)
    requires Shape(w) && x !in w.objs
    ensures x !in w.partner && x !in w.closed && x !in w.pairKeys
  {
    assert x in w.partner ==> GoodLink(w, x);
    assert x in w.pairKeys ==> GoodPairKey(w, x);
  }

  /** Whatever a call created it has closed again, and it has closed nothing else but `zone`. */
  ghost predicate Undone(w: World, w': World, zone: set<Obj>) {
    && w.objs <= w'.objs
    && w'.objs - w.objs <= w'.closed
    && w.closed <= w'.closed <= w.closed + zone
    && (forall x :: x in w.partner ==> x in w'.partner && w'.partner[x] == w.partner[x])
  }

  lemma NothingUndone(w: World, zone: set<Obj>)
    ensures Undone(w, w, zone)
  {
  }

  lemma UndoneOne(w: World, r: Obj, t: Obj, w2: World, zone: set<Obj>)
    requires Step(WithTransport(w, r, t), w2, {}, {t}) && t in w2.closed && t in zone
    ensures Undone(w, w2, zone) && Laws(w2, {})
  {
    hide Laws;
  }

  lemma UndoneTwo(w: World, r: Obj, r': Obj, t: Obj, t': Obj, w2: World)
    requires Step(WithTransport(WithTransport(w, r, t), r', t'), w2, {}, {t, t'}) && t in w2.closed && t' in w2.closed
    ensures Undone(w, w2, {t, t'}) && Laws(w2, {})
  {
    hide Laws;
  }

  lemma FreshZone(w: World, r: Obj, t: Obj)
    requires Laws(w, {}) && t !in w.objs
    ensures Sealed(WithTransport(w, r, t), {t})
    ensures IsRouter(w, r) && t.Transport? ==> IsTransport(WithTransport(w, r, t), t)
  {
    hide Laws, Sealed;
    NothingIsSealed(w);
    LawsGive(w, {});
    SealedGrown(w, WithTransport(w, r, t), t, r, {});
    assert {} + {t} == {t};
  }

  lemma FreshZones(w: World, r: Obj, r': Obj, t: Obj, t': Obj)
    requires Laws(w, {}) && t !in w.objs && t' !in w.objs && t != t' && Laws(WithTransport(w, r, t), {})
    ensures Sealed(WithTransport(WithTransport(w, r, t), r', t'), {t, t'})
    ensures var w' := WithTransport(WithTransport(w, r, t), r', t');
            IsRouter(w, r) && IsRouter(w, r') && t.Transport? && t'.Transport? ==>
              IsTransport(w', t) && IsTransport(w', t')
  {
    hide Laws, Sealed;
    FreshZone(w, r, t);
    var w' := WithTransport(w, r, t);
    LawsGive(w', {});
    SealedGrown(w', WithTransport(w', r', t'), t', r', {t});
    assert {t} + {t'} == {t, t'};
  }

  /** Two new transports, one in each router, paired under the first router's entry for the second. */
  function WithPipe(w: World, r: Obj, r': Obj, t: Obj, t': Obj): World {
    var w' := WithTransport(WithTransport(w, r, t), r', t');
    var k := PairKey(r, r');
    w'.(partner := w.partner[t := t'][t' := t],
        pairKeys := w.pairKeys[t := k][t' := k],
        pairs := w.pairs[k := Pair(t, t')])
  }

  lemma WithPipeLaws(w: World, r: Obj, r': Obj, t: Obj, t': Obj)
    requires Laws(w, {}) && IsRouter(w, r) && IsRouter(w, r') && t.Transport? && t'.Transport?
    requires t != t' && t !in w.objs && t' !in w.objs && PairKey(r, r') !in w.pairs
    requires Laws(WithTransport(WithTransport(w, r, t), r', t'), {})
    ensures Laws(WithPipe(w, r, r', t, t'), {})
  {
    hide Laws;
    var w' := WithTransport(WithTransport(w, r, t), r', t');
    LawsGive(w, {});
    FreshIsUnlinked(w, t);
    FreshIsUnlinked(w, t');
    WithPairingLaws(w', t, t');
    assert WithPipe(w, r, r', t, t') == WithPairing(w', t, t');
  }

  /** A consumer on `t` feeding a producer on `t'`, filed under `id` there and in the router, each closing the other. */
  function WithPiped(w: World, t: Obj, t': Obj, c: Obj, p: Obj, id: string): World
    requires IsTransport(w, t')
  {
    w.(objs := w.objs + {c} + {p}, owner := w.owner[c := t][p := t'], ids := w.ids[p := id],
       partner := w.partner[c := p][p := c],
       transportConsumers := w.transportConsumers + {c},
       transportProducers := w.transportProducers[Key(t', id) := p],
       routerProducers := w.routerProducers[Key(w.owner[t'], id) := p])
  }

  lemma WithPipedLaws(w: World, t: Obj, t': Obj, c: Obj, p: Obj, id: string)
    requires Laws(w, {}) && IsTransport(w, t) && IsTransport(w, t')
    requires c.Consumer? && p.Producer? && c !in w.objs && p !in w.objs
    requires IsTransport(WithConsumer(w, t, c), t') && Laws(WithProducer(WithConsumer(w, t, c), t', p, id), {})
    ensures WithPiped(w, t, t', c, p, id) == WithLink(WithProducer(WithConsumer(w, t, c), t', p, id), c, p)
    ensures Laws(WithPiped(w, t, t', c, p, id), {})
  {
    hide Laws;
    LawsGive(w, {});
    FreshIsUnlinked(w, c);
    FreshIsUnlinked(w, p);
    var w' := WithProducer(WithConsumer(w, t, c), t', p, id);
    WithLinkLaws(w', c, p);
    assert WithPiped(w, t, t', c, p, id) == WithLink(w', c, p);
  }

  lemma ConsumerZone(w: World, t: Obj, c: Obj, zone: set<Obj>)
    requires Laws(w, {}) && IsTransport(w, t) && c.Consumer? && c !in w.objs && Sealed(w, zone)
    ensures Sealed(WithConsumer(w, t, c), zone + {c})
    ensures IsConsumer(WithConsumer(w, t, c), c)
    ensures forall y :: IsTransport(w, y) ==>
                          IsTransport(WithConsumer(w, t, c), y) && WithConsumer(w, t, c).owner[y] == w.owner[y]
  {
    hide Laws, Sealed;
    LawsGive(w, {});
    SealedGrown(w, WithConsumer(w, t, c), c, t, zone);
  }

  lemma UndoneStep(w: World, w2: World, zone: set<Obj>, zone': set<Obj>)
    requires Step(w, w2, {}, zone) && zone <= zone'
    ensures Undone(w, w2, zone') && Laws(w2, {})
  {
    hide Laws;
  }

  lemma UndoneConsumer(w: World, t: Obj, c: Obj, w2: World, zone: set<Obj>)
    requires Step(WithConsumer(w, t, c), w2, {}, zone) && c in w2.closed
    ensures Undone(w, w2, zone) && Laws(w2, {})
  {
    hide Laws;
  }

  lemma TransportsLater(w: World, w': World)
    requires Later(w, w')
    ensures forall y :: IsTransport(w, y) ==> IsTransport(w', y)
  {
  }

  lemma SealedLinked(w: World, w': World, x: Obj, y: Obj, zone: set<Obj>)
    requires Sealed(w, zone) && x in zone && y in zone
    requires w'.objs == w.objs && w'.owner == w.owner && w'.partner == w.partner[x := y][y := x]
    ensures Sealed(w', zone)
  {
  }

  lemma PipeZone(w: World, r: Obj, r': Obj, t: Obj, t': Obj, zone: set<Obj>)
    requires Laws(w, {}) && IsRouter(w, r) && IsRouter(w, r') && t.Transport? && t'.Transport?
    requires t != t' && t !in w.objs && t' !in w.objs && Sealed(w, zone)
    ensures var w' := WithPipe(w, r, r', t, t');
            && Sealed(w', zone + {t, t'})
            && IsTransport(w', t) && IsTransport(w', t') && w'.owner[t] == r && w'.owner[t'] == r'
  {
    hide Laws, Sealed, Shape;
    LawsGive(w, {});
    var w1 := WithTransport(w, r, t);
    var w2 := WithTransport(w1, r', t');
    SealedGrown(w, w1, t, r, zone);
    GrownShape(w, w1, t);
    SealedGrown(w1, w2, t', r', zone + {t});
    assert zone + {t} + {t'} == zone + {t, t'};
    SealedLinked(w2, WithPipe(w, r, r', t, t'), t, t', zone + {t, t'});
  }

  lemma PipeKeeps(w: World, r: Obj, r': Obj, t: Obj, t': Obj)
    ensures var w' := WithPipe(w, r, r', t, t');
            && w'.objs == w.objs + {t} + {t'} && w'.routerProducers == w.routerProducers
            && PairKey(r, r') in w'.pairs && w'.pairs[PairKey(r, r')] == Pair(t, t')
  {
  }

  lemma ExistingPair(w: World, k: PairKey, zone: set<Obj>)
    requires Laws(w, {}) && k in w.pairs && Sealed(w, zone) && w.pairs[k].local in zone
    ensures var t, t' := w.pairs[k].local, w.pairs[k].remote;
            IsTransport(w, t) && IsTransport(w, t') && w.owner[t] == k.from && w.owner[t'] == k.to && t' in zone
  {
    hide Laws;
    LawsGivePair(w, {}, k);
  }

  lemma UndonePipe(w: World, r: Obj, r': Obj, t: Obj, t': Obj, w2: World, zone: set<Obj>)
    requires Shape(w) && t !in w.objs && t' !in w.objs
    requires Undone(WithPipe(w, r, r', t, t'), w2, zone) && t in w2.closed && t' in w2.closed
    ensures Undone(w, w2, zone)
  {
    FreshIsUnlinked(w, t);
    FreshIsUnlinked(w, t');
  }

  lemma UndoneWider(w: World, w2: World, zone: set<Obj>, zone': set<Obj>)
    requires Undone(w, w2, zone) && zone <= zone'
    ensures Undone(w, w2, zone')
  {
  }

  /** The pair PipeToRouter uses: the one it finds, or the one it creates. */
  function Ends(w: World, r: Obj, r': Obj, t: Obj, t': Obj): Pair {
    if PairKey(r, r') in w.pairs then w.pairs[PairKey(r, r')] else Pair(t, t')
  }

  function Connected(w: World, r: Obj, r': Obj, t: Obj, t': Obj): World {
    if PairKey(r, r') in w.pairs then w else WithPipe(w, r, r', t, t')
  }

  /** A consumer and a producer joined through the pair of entry `k`: each end is found and closed from the other. */
  predicate IsPiped(w: World, k: PairKey, ends: Pair, c: Obj, p: Obj, id: string) {
    && c in w.objs && c !in w.closed && c in w.owner && w.owner[c] == ends.local
    && p in w.objs && p !in w.closed && p in w.owner && w.owner[p] == ends.remote
    && c in w.partner && w.partner[c] == p && p in w.partner && w.partner[p] == c
    && c in w.transportConsumers
    && Key(ends.remote, id) in w.transportProducers && w.transportProducers[Key(ends.remote, id)] == p
    && Key(k.to, id) in w.routerProducers && w.routerProducers[Key(k.to, id)] == p
    && k in w.pairs && w.pairs[k] == ends
    && ends.local in w.partner && w.partner[ends.local] == ends.remote
    && ends.remote in w.partner && w.partner[ends.remote] == ends.local
  }

  lemma PipedMeaning(w: World, k: PairKey, ends: Pair, c: Obj, p: Obj, id: string)
    requires Laws(w, {}) && k in w.pairs && w.pairs[k] == ends
    requires c.Consumer? && p.Producer? && c !in w.objs && p !in w.objs
    requires IsTransport(w, ends.remote) && w.owner[ends.remote] == k.to
    ensures IsPiped(WithPiped(w, ends.local, ends.remote, c, p, id), k, ends, c, p, id)
  {
    hide Laws;
    LawsGive(w, {});
    LawsGivePair(w, {}, k);
    FreshIsUnlinked(w, c);
    FreshIsUnlinked(w, p);
  }

  class Session {
    var objs: set<Obj>
    var closed: set<Obj>
    var failed: set<Obj>
    ghost var emitted: seq<Obj>
    var owner: map<Obj, Obj>
    var ids: map<Obj, string>
    var partner: map<Obj, Obj>
    var pairKeys: map<Obj, PairKey>
    var routerTransports: set<Obj>
    var routerProducers: map<Key, Obj>
    var transportProducers: map<Key, Obj>
    var transportConsumers: set<Obj>
    var pairs: map<PairKey, Pair>

    /** Whether the worker grants a request; what it answers to requests it must refuse does not matter. */
    const grants: Request -> bool

    /** Only a refused request makes a closing fail. */
    ghost predicate Honest()
      reads this
    {
      forall x :: x in failed ==> !grants(Close(x))
    }

    /** The four requests that PipeToRouter makes for a new pair. */
    predicate ConnectGranted(t: Obj, t': Obj) {
      grants(Create(t)) && grants(Create(t')) && grants(Connect(t)) && grants(Connect(t'))
    }

    ghost function View(): World
      reads this
    {
      World(objs, closed, failed, emitted, owner, ids, partner, pairKeys,
            routerTransports, routerProducers, transportProducers, transportConsumers, pairs)
    }

    /** Producer.Close: `busy` holds the objects whose closing this call runs inside. */
    method CloseProducer(p: Obj, ghost busy: set<Obj>, ghost zone: set<Obj>) returns (err: bool)
      requires Laws(View(), busy) && IsProducer(View(), p) && Sealed(View(), zone) && p in zone
      requires Honest()
      modifies this
      ensures Honest()
      ensures Step(old(View()), View(), busy, zone)
      ensures p in old(closed) ==> !err && View() == old(View())
      ensures p !in old(closed) ==> (err <==> !grants(Close(p)))
      ensures p !in old(closed) && err ==> View() == CloseFailed(old(View()), p)
      ensures p !in old(closed) && !err ==> Done(View(), p)
      decreases Open(View()), 1
    {
      hide Laws, Later, Sealed, Step;
      if p in closed {
        StepReflexive(View(), busy, zone);
        return false;
      }
      if !grants(Close(p)) {
        FailedStep(View(), p, busy, zone);
        closed := closed + {p};
        failed := failed + {p};
        return true;
      }
      ProducerLeaves(p, busy, zone);
      return false;
    }

    /** A producer's closing from the request's reply on: off both maps, observer told, linked consumer closed. */
    method ProducerLeaves(p: Obj, ghost busy: set<Obj>, ghost zone: set<Obj>)
      requires Laws(View(), busy) && IsProducer(View(), p) && Sealed(View(), zone) && p in zone && p !in closed
      requires Honest()
      modifies this
      ensures Honest()
      ensures Step(old(View()), View(), busy, zone) && Done(View(), p)
      decreases Open(View()), 0
    {
      hide Laws, Later, Sealed;
      ghost var w := View();
      ProducerGoneStep(w, p, busy, zone);
      closed := closed + {p};
      transportProducers := transportProducers - {Key(owner[p], ids[p])};
      routerProducers := routerProducers - {Key(owner[owner[p]], ids[p])};
      emitted := emitted + [p];
      assert View() == ProducerGone(w, p);
      TellLinked(p, w, busy, zone);
    }

    /** Consumer.Close. */
    method CloseConsumer(c: Obj, ghost busy: set<Obj>, ghost zone: set<Obj>) returns (err: bool)
      requires Laws(View(), busy) && IsConsumer(View(), c) && Sealed(View(), zone) && c in zone
      requires Honest()
      modifies this
      ensures Honest()
      ensures Step(old(View()), View(), busy, zone)
      ensures c in old(closed) ==> !err && View() == old(View())
      ensures c !in old(closed) ==> (err <==> !grants(Close(c)))
      ensures c !in old(closed) && err ==> View() == CloseFailed(old(View()), c)
      ensures c !in old(closed) && !err ==> Done(View(), c)
      decreases Open(View()), 1
    {
      hide Laws, Later, Sealed, Step;
      if c in closed {
        StepReflexive(View(), busy, zone);
        return false;
      }
      if !grants(Close(c)) {
        FailedStep(View(), c, busy, zone);
        closed := closed + {c};
        failed := failed + {c};
        return true;
      }
      ConsumerLeaves(c, busy, zone);
      return false;
    }

    /** The worker's "producerclose" notification to a consumer: like Close, with no request. */
    method ProducerCloseNotified(c: Obj, ghost busy: set<Obj>, ghost zone: set<Obj>)
      requires Laws(View(), busy) && IsConsumer(View(), c) && Sealed(View(), zone) && c in zone
      requires Honest()
      modifies this
      ensures Honest()
      ensures Step(old(View()), View(), busy, zone)
      ensures c in old(closed) ==> View() == old(View())
      ensures c !in old(closed) ==> Done(View(), c)
    {
      if c in closed {
        StepReflexive(View(), busy, zone);
      } else {
        ConsumerLeaves(c, busy, zone);
      }
    }

    /** What Close and the notification share: off the transport's map, observer told, linked producer closed. */
    method ConsumerLeaves(c: Obj, ghost busy: set<Obj>, ghost zone: set<Obj>)
      requires Laws(View(), busy) && IsConsumer(View(), c) && Sealed(View(), zone) && c in zone && c !in closed
      requires Honest()
      modifies this
      ensures Honest()
      ensures Step(old(View()), View(), busy, zone) && Done(View(), c)
      decreases Open(View()), 0
    {
      hide Laws, Later, Sealed;
      ghost var w := View();
      closed := closed + {c};
      transportConsumers := transportConsumers - {c};
      emitted := emitted + [c];
      ghost var w' := View();
      assert w' == ConsumerGone(w, c);
      ConsumerGoneStep(w, c, busy, zone);
      TellLinked(c, w, busy, zone);
    }

    /** TransportClosed on a producer or a consumer: the transport itself clears the maps. */
    method TransportClosed(x: Obj, ghost busy: set<Obj>, ghost zone: set<Obj>)
      requires Laws(View(), busy) && IsLeaf(View(), x) && owner[x] in busy && Sealed(View(), zone) && x in zone
      requires Honest()
      modifies this
      ensures Honest()
      ensures Step(old(View()), View(), busy, zone) && x in closed
      ensures x in old(closed) ==> View() == old(View())
      ensures x !in old(closed) ==> Done(View(), x)
      decreases Open(View()), 0
    {
      hide Laws, Later, Sealed;
      ghost var w := View();
      if x in closed {
        StepReflexive(w, busy, zone);
        return;
      }
      OrphanedStep(w, x, busy, zone);
      closed := closed + {x};
      emitted := emitted + [x];
      assert View() == Orphaned(w, x);
      TellLinked(x, w, busy, zone);
    }

    /** The observer "close" listeners of a pipe consumer or pipe producer: close the other end. */
    method TellLinked(x: Obj, ghost w: World, ghost busy: set<Obj>, ghost zone: set<Obj>)
      requires Laws(w, busy) && IsLeaf(w, x) && Sealed(w, zone) && x in zone
      requires Step(w, View(), busy + {x}, zone) && x in emitted
      requires Honest()
      modifies this
      ensures Honest()
      ensures Step(w, View(), busy, zone) && Done(View(), x)
      decreases Open(View()), 2
    {
      hide Laws, Later, Sealed;
      ghost var w' := View();
      SameLinks(w, w', x);
      if x in partner {
        LinkedLeaf(w', busy + {x}, x);
        SealedLater(w, w', zone);
        if x.Producer? {
          var err := CloseConsumer(partner[x], busy + {x}, zone);
        } else {
          var err := CloseProducer(partner[x], busy + {x}, zone);
        }
      } else {
        StepReflexive(w', busy + {x}, zone);
      }
      LeafSettles(w, w', View(), x, busy, zone);
    }

    /** One turn of the producers loop: TransportClosed, then the router's listener drops the entry. */
    method CloseOwnedProducer(p: Obj, ghost busy: set<Obj>, ghost zone: set<Obj>)
      requires Laws(View(), busy) && IsProducer(View(), p) && owner[p] in busy && Sealed(View(), zone) && p in zone
      requires Unmixed(View(), owner[p]) && InTransportMap(View(), p)
      requires Honest()
      modifies this
      ensures Honest()
      ensures Step(old(View()), View(), busy, zone) && IsProducer(View(), p)
      ensures p in closed && RouterKey(View(), p) !in routerProducers
      decreases Open(View()), 1
    {
      hide Laws, Later, Sealed, Unmixed, InTransportMap;
      ghost var w := View();
      TransportClosed(p, busy, zone);
      ForgetStep(w, View(), p, busy, zone);
      routerProducers := routerProducers - {Key(owner[owner[p]], ids[p])};
    }

    /** The first loop of Close and of routerClosed, in whatever order the map is walked. */
    method CloseProducers(t: Obj, ghost busy: set<Obj>, ghost zone: set<Obj>)
      requires Laws(View(), busy) && t in busy && Unmixed(View(), t) && Sealed(View(), zone) && t in zone
      requires Honest()
      modifies this
      ensures Honest()
      ensures Step(old(View()), View(), busy, zone) && EntryLaw(View()) && ProducersSwept(View(), t)
      decreases Open(View()), 2
    {
      hide Laws, Later, Sealed, Unmixed, ProducersVisited, ConsumersVisited, ProducersSwept, EntryLaw;
      ghost var w := View();
      var todo := set k | k in transportProducers && k.of == t;
      StepReflexive(w, busy, zone);
      NobodyVisited(w, t);
      while todo != {}
        invariant Step(w, View(), busy, zone) && ProducersVisited(View(), t, todo)
        invariant Honest()
        invariant forall k :: k in todo ==> k.of == t
        decreases todo
      {
        var k :| k in todo;
        ghost var w1 := View();
        if k in transportProducers {
          SealedLater(w, w1, zone);
          UnmixedLater(w, w1, t);
          EntryMeaning(w1, busy, k);
          InZone(w1, transportProducers[k], zone);
          CloseOwnedProducer(transportProducers[k], busy, zone);
          VisitedOne(w1, View(), t, todo, k);
          StepTransitive(w, w1, View(), busy, busy, zone);
        } else {
          VisitedOne(w1, w1, t, todo, k);
        }
        todo := todo - {k};
      }
      ghost var w2 := View();
      ProducersClearedStep(w2, t, busy, zone);
      transportProducers := map k | k in transportProducers && k.of != t :: transportProducers[k];
      assert View() == ProducersCleared(w2, t);
      StepTransitive(w, w2, View(), busy, busy, zone);
    }

    /** The second loop of Close and of routerClosed. */
    method CloseConsumers(t: Obj, ghost busy: set<Obj>, ghost zone: set<Obj>)
      requires Laws(View(), busy) && t in busy && Sealed(View(), zone) && t in zone
      requires Honest()
      modifies this
      ensures Honest()
      ensures Step(old(View()), View(), busy, zone) && EntryLaw(View()) && ConsumersSwept(View(), t)
      decreases Open(View()), 2
    {
      hide Laws, Later, Sealed, ProducersVisited, ConsumersVisited, ConsumersSwept, EntryLaw;
      ghost var w := View();
      var todo := set c | c in transportConsumers && c in owner && owner[c] == t;
      StepReflexive(w, busy, zone);
      NobodyVisited(w, t);
      while todo != {}
        invariant Step(w, View(), busy, zone) && ConsumersVisited(View(), t, todo)
        invariant Honest()
        invariant forall c :: c in todo ==> c in w.owner && w.owner[c] == t
        decreases todo
      {
        var c :| c in todo;
        ghost var w1 := View();
        if c in transportConsumers {
          ConsumerEntryMeaning(w, w1, busy, c);
          SealedLater(w, w1, zone);
          InZone(w1, c, zone);
          TransportClosed(c, busy, zone);
          StepTransitive(w, w1, View(), busy, busy, zone);
        }
        VisitedConsumer(w1, View(), t, todo, c);
        todo := todo - {c};
      }
      ghost var w2 := View();
      ConsumersClearedStep(w2, t, busy, zone);
      ConsumersOwned(w2);
      transportConsumers := set c | c in transportConsumers && owner[c] != t;
      assert View() == ConsumersCleared(w2, t);
      StepTransitive(w, w2, View(), busy, busy, zone);
    }

    /** Transport.Close. */
    method CloseTransport(t: Obj, ghost busy: set<Obj>, ghost zone: set<Obj>) returns (err: bool)
      requires Laws(View(), busy) && IsTransport(View(), t) && Sealed(View(), zone) && t in zone
      requires Honest()
      modifies this
      ensures Honest()
      ensures Step(old(View()), View(), busy, zone) && t in closed
      ensures t in old(closed) ==> !err && View() == old(View())
      ensures t !in old(closed) ==> (err <==> !grants(Close(t)))
      ensures t !in old(closed) && err ==> View() == CloseFailed(old(View()), t)
      ensures t !in old(closed) && !err ==> Done(View(), t)
      decreases Open(View()), 3
    {
      hide Laws, Later, Sealed;
      ghost var w := View();
      if t in closed {
        StepReflexive(w, busy, zone);
        return false;
      }
      closed := closed + {t};
      if !grants(Close(t)) {
        failed := failed + {t};
        FailedStep(w, t, busy, zone);
        return true;
      }
      EndTransport(t, false, w, busy, zone);
      return false;
    }

    /** Transport.routerClosed: no request, and the router clears its own map. */
    method RouterClosed(t: Obj, ghost busy: set<Obj>, ghost zone: set<Obj>)
      requires Laws(View(), busy) && IsTransport(View(), t) && Sealed(View(), zone) && t in zone && owner[t] in busy
      requires Honest()
      modifies this
      ensures Honest()
      ensures Step(old(View()), View(), busy, zone) && t in closed
      ensures t in old(closed) ==> View() == old(View())
      ensures t !in old(closed) ==> Done(View(), t)
      decreases Open(View()), 3
    {
      hide Laws, Later, Sealed;
      ghost var w := View();
      if t in closed {
        StepReflexive(w, busy, zone);
        return;
      }
      closed := closed + {t};
      EndTransport(t, true, w, busy, zone);
    }

    /** What Close and routerClosed share, from the flag being set to the last observer listener. */
    method EndTransport(t: Obj, byRouter: bool, ghost w0: World, ghost busy: set<Obj>, ghost zone: set<Obj>)
      requires Laws(w0, busy) && IsTransport(w0, t) && t !in w0.closed && Sealed(w0, zone) && t in zone
      requires View() == Marked(w0, t) && (byRouter ==> owner[t] in busy)
      requires Honest()
      modifies this
      ensures Honest()
      ensures Step(w0, View(), busy, zone) && Done(View(), t)
      decreases Open(View()), 5
    {
      hide Laws, Later, Sealed, EntryLaw, ProducersSwept, ConsumersSwept, Unmixed, PairKnown, Announced;
      ghost var w := View();
      ghost var busy' := busy + {t};
      MarkedStep(w0, t, busy, zone);
      OpenIsClosing(w0, busy, t);
      SealedLater(w0, w, zone);
      BelowIsSealed(w, busy', zone);
      CloseProducers(t, busy', BelowRouters(zone));
      ghost var w1 := View();
      SealedLater(w, w1, BelowRouters(zone));
      CloseConsumers(t, busy', BelowRouters(zone));
      ghost var w2 := View();
      SweptLater(w1, w2, t);
      StepTransitive(w, w1, w2, busy', busy', BelowRouters(zone));
      ClosingLater(w, w2, t, busy', zone);
      StepWider(w, w2, busy', zone);
      SweptOwnsNothing(w2, busy', t);
      StepTransitive(w0, w, w2, busy', busy', zone);
      if !byRouter {
        routerTransports := routerTransports - {t};
      }
      emitted := emitted + [t];
      ghost var w3 := View();
      assert w3 == TransportGone(w2, t, byRouter);
      TransportGoneStep(w0, w2, t, byRouter, busy', zone);
      GoneIsAnnounced(w2, t, byRouter);
      SealedLater(w0, w3, zone);
      OpenShrinks(w, w2);
      TellPairedTransport(t, busy, zone);
      LawsGive(View(), busy');
      AnnouncedLater(w3, View(), t, byRouter);
      StepTransitive(w0, w3, View(), busy', busy', zone);
      TransportReturns(w0, View(), t, byRouter, busy, zone);
    }

    /** The observer "close" listener of a pipe transport: close the other end, then drop the pair's entry. */
    method TellPairedTransport(t: Obj, ghost busy: set<Obj>, ghost zone: set<Obj>)
      requires Laws(View(), busy + {t}) && PairKnown(View(), t) && Sealed(View(), zone) && t in zone && t.Transport?
      requires Honest()
      modifies this
      ensures Honest()
      ensures Step(old(View()), View(), busy + {t}, zone)
      ensures t in partner ==> partner[t] in closed && t in pairKeys && pairKeys[t] !in pairs
      decreases Open(View()), 4
    {
      hide Laws, Later, Sealed, PairKnown;
      ghost var w := View();
      ghost var busy' := busy + {t};
      if t in partner {
        LinkedLeaf(w, busy', t);
        ZoneLinks(w, t, zone);
        var err := CloseTransport(partner[t], busy', zone);
        ghost var w' := View();
        PairDeletedStep(w, w', t, busy', zone);
        SameLinks(w, w', t);
        pairs := pairs - {pairKeys[t]};
        assert View() == PairDeleted(w', t);
      } else {
        StepReflexive(w, busy', zone);
      }
    }

    /** Router.Close, and workerClosed when the worker has gone: the latter sends no request. */
    method CloseRouter(r: Obj, byWorker: bool, ghost zone: set<Obj>) returns (err: bool)
      requires Laws(View(), {}) && IsRouter(View(), r) && Sealed(View(), zone) && r in zone
      requires Honest()
      modifies this
      ensures Honest()
      ensures Step(old(View()), View(), {}, zone)
      ensures r in old(closed) ==> !err && View() == old(View())
      ensures r !in old(closed) ==> (err <==> !byWorker && !grants(Close(r)))
      ensures r !in old(closed) && err ==> View() == CloseFailed(old(View()), r)
      ensures r !in old(closed) && !err ==> Done(View(), r)
    {
      hide Laws, Later, Sealed;
      ghost var w0 := View();
      if r in closed {
        StepReflexive(w0, {}, zone);
        return false;
      }
      closed := closed + {r};
      if !byWorker {
        if !grants(Close(r)) {
          failed := failed + {r};
          FailedStep(w0, r, {}, zone);
          return true;
        }
      }
      EndRouter(r, w0, zone);
      return false;
    }

    /** From the router's flag being set to its observer being told. */
    method EndRouter(r: Obj, ghost w0: World, ghost zone: set<Obj>)
      requires Laws(w0, {}) && IsRouter(w0, r) && r !in w0.closed && Sealed(w0, zone) && r in zone
      requires View() == Marked(w0, r)
      requires Honest()
      modifies this
      ensures Honest()
      ensures Step(w0, View(), {}, zone) && Done(View(), r)
    {
      hide Laws, Later, Sealed, Step, TransportsVisited;
      ghost var w1 := View();
      RouterMarked(w0, r, zone);
      CloseTransports(r, zone);
      ghost var w2 := View();
      RouterReturns(w0, w1, w2, r, zone);
      routerTransports := set t | t in routerTransports && owner[t] != r;
      routerProducers := map k | k in routerProducers && k.of != r :: routerProducers[k];
      pairs := map k | k in pairs && k.from != r :: pairs[k];
      emitted := emitted + [r];
      assert View() == RouterGone(w2, r);
    }

    /** The loop over the router's transports, in whatever order the map is walked. */
    method CloseTransports(r: Obj, ghost zone: set<Obj>)
      requires Laws(View(), {r}) && Sealed(View(), zone) && r in zone
      requires Honest()
      modifies this
      ensures Honest()
      ensures Step(old(View()), View(), {r}, zone) && TransportsVisited(View(), r, {})
    {
      hide Laws, Later, Sealed, TransportsVisited;
      ghost var w := View();
      var todo := set t | t in routerTransports && t in owner && owner[t] == r;
      StepReflexive(w, {r}, zone);
      NoTransportVisited(w, r);
      while todo != {}
        invariant Step(w, View(), {r}, zone) && TransportsVisited(View(), r, todo)
        invariant Honest()
        invariant forall t :: t in todo ==> t in w.owner && w.owner[t] == r
        decreases todo
      {
        var t :| t in todo;
        ghost var w1 := View();
        if t in routerTransports {
          TransportEntryMeaning(w, w1, {r}, t);
          SealedLater(w, w1, zone);
          TransportInZone(w1, t, zone);
          RouterClosed(t, {r}, zone);
          StepTransitive(w, w1, View(), {r}, {r}, zone);
        }
        VisitedTransport(w1, View(), r, todo, t);
        todo := todo - {t};
      }
    }

    // -------------------------------------------------------------- creation

    constructor (grants: Request -> bool)
      ensures View() == EMPTY && Laws(View(), {}) && Honest() && this.grants == grants
    {
      this.grants := grants;
      objs, closed, failed, emitted := {}, {}, {}, [];
      owner, ids, partner, pairKeys := map[], map[], map[], map[];
      routerTransports, routerProducers, transportProducers := {}, map[], map[];
      transportConsumers, pairs := {}, map[];
    }

    method CreateRouter(r: Obj)
      requires Laws(View(), {}) && r.Router? && r !in objs
      requires Honest()
      modifies this
      ensures Honest()
      ensures Laws(View(), {}) && View() == WithRouter(old(View()), r)
    {
      WithRouterLaws(View(), r);
      hide Laws;
      objs := objs + {r};
    }

    /** CreateWebRtcTransport, CreatePlainRtpTransport and CreatePipeTransport. */
    method CreateTransport(r: Obj, t: Obj) returns (ok: bool)
      requires Laws(View(), {}) && IsRouter(View(), r) && t.Transport? && t !in objs
      requires Honest()
      modifies this
      ensures Honest()
      ensures Laws(View(), {})
      ensures ok <==> !Done(old(View()), r) && grants(Create(t))
      ensures View() == if ok then WithTransport(old(View()), r, t) else old(View())
    {
      hide Laws;
      ok := r !in closed - failed && grants(Create(t));
      if ok {
        WithTransportLaws(View(), r, t);
        objs, owner, routerTransports := objs + {t}, owner[t := r], routerTransports + {t};
      }
    }

    /** Transport.Produce, from the request on. */
    method Produce(t: Obj, p: Obj, id: string) returns (ok: bool)
      requires Laws(View(), {}) && IsTransport(View(), t) && p.Producer? && p !in objs
      requires Honest()
      modifies this
      ensures Honest()
      ensures Laws(View(), {})
      ensures ok <==> Accepts(old(View()), t, id) && grants(Create(p))
      ensures View() == if ok then WithProducer(old(View()), t, p, id) else old(View())
    {
      hide Laws;
      ok := t !in closed - failed && owner[t] !in closed - failed
            && Key(t, id) !in transportProducers && Key(owner[t], id) !in routerProducers
            && grants(Create(p));
      if ok {
        WithProducerLaws(View(), t, p, id);
        objs, owner, ids := objs + {p}, owner[p := t], ids[p := id];
        transportProducers := transportProducers[Key(t, id) := p];
        routerProducers := routerProducers[Key(owner[t], id) := p];
      }
    }

    /** Transport.Consume. */
    method Consume(t: Obj, c: Obj, id: string) returns (ok: bool)
      requires Laws(View(), {}) && IsTransport(View(), t) && c.Consumer? && c !in objs
      requires Honest()
      modifies this
      ensures Honest()
      ensures Laws(View(), {})
      ensures ok <==> Alive(old(View()), t) && Key(old(owner[t]), id) in old(routerProducers) && grants(Create(c))
      ensures View() == if ok then WithConsumer(old(View()), t, c) else old(View())
    {
      hide Laws;
      ok := Key(owner[t], id) in routerProducers && t !in closed - failed && owner[t] !in closed - failed
            && grants(Create(c));
      if ok {
        WithConsumerLaws(View(), t, c);
        objs, owner, transportConsumers := objs + {c}, owner[c := t], transportConsumers + {c};
      }
    }

    /** PipeTransport.Consume: it goes on with a nil producer, and panics, when the router does not know the id. */
    method PipeConsume(t: Obj, c: Obj, id: string) returns (ok: bool, panicked: bool)
      requires Laws(View(), {}) && IsTransport(View(), t) && c.Consumer? && c !in objs
      requires Honest()
      modifies this
      ensures Honest()
      ensures Laws(View(), {})
      ensures panicked <==> Key(old(owner[t]), id) !in old(routerProducers)
      ensures ok <==> !panicked && Alive(old(View()), t) && grants(Create(c))
      ensures View() == if ok then WithConsumer(old(View()), t, c) else old(View())
    {
      hide Laws;
      ok, panicked := false, Key(owner[t], id) !in routerProducers;
      if !panicked {
        ok := Consume(t, c, id);
      }
    }

    /** The deferred clean-up of PipeToRouter. */
    method CloseBoth(t: Obj, t': Obj, ghost zone: set<Obj>)
      requires Laws(View(), {}) && IsTransport(View(), t) && IsTransport(View(), t')
      requires Sealed(View(), zone) && t in zone && t' in zone
      requires Honest()
      modifies this
      ensures Honest()
      ensures Step(old(View()), View(), {}, zone) && t in closed && t' in closed
    {
      hide Laws, Sealed;
      ghost var w := View();
      var err := CloseTransport(t, {}, zone);
      ghost var w' := View();
      SealedLater(w, w', zone);
      err := CloseTransport(t', {}, zone);
      StepTransitive(w, w', View(), {}, {}, zone);
    }

    /** The part of PipeToRouter that creates and connects two pipe transports. */
    method CreateConnected(r: Obj, r': Obj, t: Obj, t': Obj) returns (ok: bool)
      requires Laws(View(), {}) && IsRouter(View(), r) && IsRouter(View(), r')
      requires t.Transport? && t'.Transport? && t != t' && t !in objs && t' !in objs
      requires Honest()
      modifies this
      ensures Honest()
      ensures Laws(View(), {})
      ensures ok <==> !Done(old(View()), r) && !Done(old(View()), r') && ConnectGranted(t, t')
      ensures ok ==> View() == WithTransport(WithTransport(old(View()), r, t), r', t')
      ensures !ok ==> Undone(old(View()), View(), {t, t'})
    {
      hide Laws, Sealed, Undone;
      NothingUndone(View(), {t, t'});
      ok := CreateTransport(r, t);
      if ok {
        ok := ConnectSecond(r, r', t, t', old(View()));
      }
    }

    method ConnectSecond(r: Obj, r': Obj, t: Obj, t': Obj, ghost w: World) returns (ok: bool)
      requires Laws(w, {}) && IsRouter(w, r) && IsRouter(w, r')
      requires t.Transport? && t'.Transport? && t != t' && t !in w.objs && t' !in w.objs
      requires Laws(View(), {}) && View() == WithTransport(w, r, t) && IsRouter(View(), r') && t' !in objs
      requires closed == w.closed && failed == w.failed
      requires Honest()
      modifies this
      ensures Honest()
      ensures Laws(View(), {})
      ensures ok <==> !Done(w, r') && grants(Create(t')) && grants(Connect(t)) && grants(Connect(t'))
      ensures ok ==> View() == WithTransport(WithTransport(w, r, t), r', t')
      ensures !ok ==> Undone(w, View(), {t, t'})
    {
      hide Laws, Sealed, Step, Undone, WithTransport, IsTransport, CloseFailed;
      ok := CreateTransport(r', t');
      if !ok {
        FreshZone(w, r, t);
        var err := CloseTransport(t, {}, {t});
        UndoneOne(w, r, t, View(), {t, t'});
        return;
      }
      ok := grants(Connect(t)) && grants(Connect(t'));
      if !ok {
        FreshZones(w, r, r', t, t');
        CloseBoth(t, t', {t, t'});
        UndoneTwo(w, r, r', t, t', View());
      }
    }

    /** The pairing of the two, on both sides. */
    method CreatePair(r: Obj, r': Obj, t: Obj, t': Obj) returns (ok: bool)
      requires Laws(View(), {}) && IsRouter(View(), r) && IsRouter(View(), r')
      requires t.Transport? && t'.Transport? && t != t' && t !in objs && t' !in objs
      requires PairKey(r, r') !in pairs
      requires Honest()
      modifies this
      ensures Honest()
      ensures Laws(View(), {})
      ensures ok <==> !Done(old(View()), r) && !Done(old(View()), r') && ConnectGranted(t, t')
      ensures ok ==> View() == WithPipe(old(View()), r, r', t, t')
      ensures !ok ==> Undone(old(View()), View(), {t, t'})
    {
      hide Laws, Undone;
      ghost var w := View();
      ok := CreateConnected(r, r', t, t');
      if ok {
        WithPipeLaws(w, r, r', t, t');
        var k := PairKey(r, r');
        partner, pairKeys, pairs := partner[t := t'][t' := t], pairKeys[t := k][t' := k], pairs[k := Pair(t, t')];
      }
    }

    /** The part of PipeToRouter that consumes on one end of a pair, produces on the other and links the two. */
    method PipeThrough(t: Obj, t': Obj, c: Obj, p: Obj, id: string, ghost zone: set<Obj>) returns (ok: bool)
      requires Laws(View(), {}) && IsTransport(View(), t) && IsTransport(View(), t')
      requires c.Consumer? && p.Producer? && c !in objs && p !in objs
      requires Key(owner[t], id) in routerProducers
      requires Sealed(View(), zone) && t in zone && t' in zone
      requires Honest()
      modifies this
      ensures Honest()
      ensures Laws(View(), {})
      ensures ok <==> Alive(old(View()), t) && Accepts(old(View()), t', id) && grants(Create(c)) && grants(Create(p))
      ensures ok ==> View() == WithPiped(old(View()), t, t', c, p, id)
      ensures !ok ==> Undone(old(View()), View(), zone + {c}) && t in closed && t' in closed
    {
      hide Laws, Sealed, Step, Undone, IsTransport;
      ghost var w := View();
      ConsumerZone(w, t, c, zone);
      var panicked;
      ok, panicked := PipeConsume(t, c, id);
      assert !panicked;
      if !ok {
        CloseBoth(t, t', zone);
        UndoneStep(w, View(), zone, zone + {c});
        return;
      }
      ok := Produce(t', p, id);
      if !ok {
        UndoPipe(t, t', c, zone + {c});
        UndoneConsumer(w, t, c, View(), zone + {c});
        return;
      }
      WithPipedLaws(w, t, t', c, p, id);
      partner := partner[c := p][p := c];
    }

    /** Both deferred clean-ups of PipeToRouter. */
    method UndoPipe(t: Obj, t': Obj, c: Obj, ghost zone: set<Obj>)
      requires Laws(View(), {}) && IsTransport(View(), t) && IsTransport(View(), t') && IsConsumer(View(), c)
      requires Sealed(View(), zone) && t in zone && t' in zone && c in zone
      requires Honest()
      modifies this
      ensures Honest()
      ensures Step(old(View()), View(), {}, zone) && c in closed && t in closed && t' in closed
    {
      hide Laws, Sealed, IsTransport;
      ghost var w := View();
      var err := CloseConsumer(c, {}, zone);
      ghost var w' := View();
      TransportsLater(w, w');
      SealedLater(w, w', zone);
      CloseBoth(t, t', zone);
      StepTransitive(w, w', View(), {}, {}, zone);
    }

    /**
     * PipeToRouter. The new objects are parameters; `t` and `t'` are only used
     * when the router has no pair for the destination yet.
     */
    method PipeToRouter(r: Obj, r': Obj, id: string, t: Obj, t': Obj, c: Obj, p: Obj, ghost zone: set<Obj>)
      returns (ok: bool)
      requires Laws(View(), {}) && IsRouter(View(), r) && IsRouter(View(), r')
      requires t.Transport? && t'.Transport? && t != t' && t !in objs && t' !in objs
      requires c.Consumer? && p.Producer? && c !in objs && p !in objs
      requires Sealed(View(), zone) && (PairKey(r, r') in pairs ==> pairs[PairKey(r, r')].local in zone)
      requires Honest()
      modifies this
      ensures Honest()
      ensures Laws(View(), {})
      ensures id == "" || r == r' || Key(r, id) !in old(routerProducers) ==> !ok && View() == old(View())
      ensures Key(r', id) in old(routerProducers) ==> !ok
      ensures ok <==>
                && id != "" && r != r' && Key(r, id) in old(routerProducers)
                && (PairKey(r, r') !in old(pairs) ==>
                      !Done(old(View()), r) && !Done(old(View()), r') && ConnectGranted(t, t'))
                && CanCarry(Connected(old(View()), r, r', t, t'), Ends(old(View()), r, r', t, t'), id)
                && grants(Create(c)) && grants(Create(p))
      ensures ok ==>
                var w, ends := Connected(old(View()), r, r', t, t'), Ends(old(View()), r, r', t, t');
                IsTransport(w, ends.remote) && View() == WithPiped(w, ends.local, ends.remote, c, p, id)
      ensures ok ==> IsPiped(View(), PairKey(r, r'), Ends(old(View()), r, r', t, t'), c, p, id)
      ensures !ok ==> Undone(old(View()), View(), zone + {t, t'} + {c})
      ensures !ok && id != "" && r != r' && Key(r, id) in old(routerProducers) && PairKey(r, r') in old(pairs) ==>
                old(pairs[PairKey(r, r')]).local in closed && old(pairs[PairKey(r, r')]).remote in closed
    {
      hide Laws, Sealed, Undone, IsTransport, WithPipe, WithPiped, IsPiped;
      ghost var w := View();
      NothingUndone(w, zone + {t, t'} + {c});
      var k := PairKey(r, r');
      if id == "" || r == r' || Key(r, id) !in routerProducers {
        return false;
      }
      if k in pairs {
        ExistingPair(w, k, zone);
        ok := PipeThrough(pairs[k].local, pairs[k].remote, c, p, id, zone);
        if ok {
          PipedMeaning(w, k, w.pairs[k], c, p, id);
        } else {
          UndoneWider(w, View(), zone + {c}, zone + {t, t'} + {c});
        }
        return;
      }
      ok := CreatePair(r, r', t, t');
      if !ok {
        UndoneWider(w, View(), {t, t'}, zone + {t, t'} + {c});
        return;
      }
      PipeZone(w, r, r', t, t', zone);
      PipeKeeps(w, r, r', t, t');
      ghost var w' := View();
      ok := PipeThrough(t, t', c, p, id, zone + {t, t'});
      if ok {
        PipedMeaning(w', k, Pair(t, t'), c, p, id);
      } else {
        LawsGive(w, {});
        UndonePipe(w, r, r', t, t', View(), zone + {t, t'} + {c});
      }
    }
  }
}
