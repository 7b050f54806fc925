/**
 * Routers, transports, producers and consumers as a forest of objects with
 * registries, and the close cascade that runs through their callbacks
 * (mediasoup/router.go, transport.go, producer.go, consumer.go,
 * pipe_transport.go). This module holds the state as a value, the laws that
 * relate the registries to the open and closed objects, and what each
 * elementary change does to those laws.
 */
module Lifecycle {

  /** Object identities. */
  datatype Obj =
    | Router(n: nat)
    | Transport(n: nat)
    | Producer(n: nat)
    | Consumer(n: nat)

  /** An entry of a producers map: whose map it is, and the producer's id. */
  datatype Key = Key(of: Obj, id: string)

  /** A router's entry for the pipe to another router. */
  datatype PairKey = PairKey(from: Obj, to: Obj)
  datatype Pair = Pair(local: Obj, remote: Obj)

  datatype World = World(
    objs: set<Obj>,
    closed: set<Obj>,                      // the closed flags
    failed: set<Obj>,                      // objects whose close request failed
    emitted: seq<Obj>,                     // observer "close" events, in order
    owner: map<Obj, Obj>,                  // transport to router, producer and consumer to transport
    ids: map<Obj, string>,                 // producer ids
    partner: map<Obj, Obj>,                // pipe links, in both directions
    pairKeys: map<Obj, PairKey>,           // the entry a pipe transport's close listener deletes
    routerTransports: set<Obj>,
    routerProducers: map<Key, Obj>,
    transportProducers: map<Key, Obj>,
    transportConsumers: set<Obj>,
    pairs: map<PairKey, Pair>)

  const EMPTY := World({}, {}, {}, [], map[], map[], map[], map[], {}, map[], map[], {}, map[])

  // ---------------------------------------------------------------- structure

  predicate IsRouter(w: World, x: Obj) {
    x in w.objs && x.Router?
  }

  predicate IsTransport(w: World, x: Obj) {
    x in w.objs && x.Transport? && x in w.owner && w.owner[x] in w.objs && w.owner[x].Router?
  }

  predicate IsLeaf(w: World, x: Obj) {
    x in w.objs && (x.Producer? || x.Consumer?) && x in w.owner && IsTransport(w, w.owner[x])
  }

  predicate IsProducer(w: World, x: Obj) {
    IsLeaf(w, x) && x.Producer? && x in w.ids
  }

  predicate IsConsumer(w: World, x: Obj) {
    IsLeaf(w, x) && x.Consumer?
  }

  predicate GoodObject(w: World, x: Obj) {
    match x
    case Router(_) => IsRouter(w, x)
    case Transport(_) => IsTransport(w, x)
    case Producer(_) => IsProducer(w, x)
    case Consumer(_) => IsConsumer(w, x)
  }

  /** Links join a consumer to a producer, or two transports of different routers, in both directions. */
  predicate GoodLink(w: World, x: Obj) {
    && x in w.partner
    && x in w.objs
    && w.partner[x] in w.objs
    && w.partner[x] in w.partner
    && w.partner[w.partner[x]] == x
    && match x
       case Router(_) => false
       case Transport(_) => w.partner[x].Transport? && x in w.pairKeys
       case Producer(_) => w.partner[x].Consumer?
       case Consumer(_) => w.partner[x].Producer?
  }

  /** Both ends of a transport pair know the entry that stands for it. */
  predicate GoodPairKey(w: World, t: Obj) {
    && t in w.pairKeys
    && t.Transport?
    && GoodLink(w, t)
    && IsTransport(w, t)
    && IsTransport(w, w.partner[t])
    && w.partner[t] in w.pairKeys
    && w.pairKeys[w.partner[t]] == w.pairKeys[t]
    && (w.pairKeys[t] == PairKey(w.owner[t], w.owner[w.partner[t]])
        || w.pairKeys[t] == PairKey(w.owner[w.partner[t]], w.owner[t]))
  }

  ghost predicate Shape(w: World) {
    && w.closed <= w.objs
    && w.failed <= w.closed
    && (forall x :: x in w.objs ==> GoodObject(w, x))
    && (forall x :: x in w.partner ==> GoodLink(w, x))
    && (forall t :: t in w.pairKeys ==> GoodPairKey(w, t))
  }

  function RouterOf(w: World, x: Obj): Obj
    requires IsLeaf(w, x)
  {
    w.owner[w.owner[x]]
  }

  function TransportKey(w: World, p: Obj): Key
    requires IsProducer(w, p)
  {
    Key(w.owner[p], w.ids[p])
  }

  function RouterKey(w: World, p: Obj): Key
    requires IsProducer(w, p)
  {
    Key(RouterOf(w, p), w.ids[p])
  }

  /** Closed, and the close request did not fail. */
  predicate Done(w: World, x: Obj) {
    x in w.closed && x !in w.failed
  }

  // ---------------------------------------------------------------- laws

  /**
   * The laws hold of every state in which no call is under way, with `busy`
   * empty. While calls are under way, `busy` holds the objects that are closed
   * but whose Close or close callback has not returned yet.
   */

  /** The router's maps have not been reset. */
  predicate RouterUp(w: World, busy: set<Obj>, r: Obj) {
    !Done(w, r) || r in busy
  }

  predicate InTransportMap(w: World, p: Obj)
    requires IsProducer(w, p)
  {
    TransportKey(w, p) in w.transportProducers && w.transportProducers[TransportKey(w, p)] == p
  }

  predicate InRouterMap(w: World, p: Obj)
    requires IsProducer(w, p)
  {
    RouterKey(w, p) in w.routerProducers && w.routerProducers[RouterKey(w, p)] == p
  }

  /** A producer is in its transport's and its router's map until it, or the transport, is done. */
  ghost predicate ProducerLaw(w: World, busy: set<Obj>, p: Obj) {
    IsProducer(w, p) ==>
      var t := w.owner[p];
      && (t !in busy ==>
            && (InTransportMap(w, p) <==> !Done(w, t) && !Done(w, p))
            && (InRouterMap(w, p) <==> !Done(w, t) && !Done(w, p) && RouterUp(w, busy, RouterOf(w, p))))
      // An open producer is always in its transport's map, and nobody else is filed under its id.
      && (p !in w.closed ==> InTransportMap(w, p) && (RouterKey(w, p) in w.routerProducers ==> InRouterMap(w, p)))
      && (InRouterMap(w, p) ==> InTransportMap(w, p))
  }

  ghost predicate ConsumerLaw(w: World, busy: set<Obj>, c: Obj) {
    IsConsumer(w, c) ==>
      && (w.owner[c] !in busy ==> (c in w.transportConsumers <==> !Done(w, w.owner[c]) && !Done(w, c)))
      && (c !in w.closed ==> c in w.transportConsumers)
  }

  ghost predicate TransportLaw(w: World, busy: set<Obj>, t: Obj) {
    IsTransport(w, t) ==>
      if w.owner[t] in busy then !Done(w, t) ==> t in w.routerTransports
      else t !in busy ==> (t in w.routerTransports <==> !Done(w, t) && !Done(w, w.owner[t]))
  }

  /** Closing an object has closed what it owns. */
  ghost predicate ChildLaw(w: World, busy: set<Obj>, x: Obj) {
    x in w.objs && !x.Router? && x in w.owner && w.owner[x] !in busy && Done(w, w.owner[x]) ==> x in w.closed
  }

  /** Closing one end of a link has closed the other. */
  ghost predicate LinkLaw(w: World, busy: set<Obj>, x: Obj) {
    x in w.partner && x !in busy && Done(w, x) ==> w.partner[x] in w.closed
  }

  ghost predicate PairEntryLaw(w: World, busy: set<Obj>, k: PairKey) {
    k in w.pairs ==>
      var t, t' := w.pairs[k].local, w.pairs[k].remote;
      && t in w.pairKeys && w.pairKeys[t] == k
      && t in w.partner && w.partner[t] == t'
      && t in w.owner && w.owner[t] == k.from
      && t' in w.owner && w.owner[t'] == k.to
      && (t !in busy ==> !Done(w, t))
      && (t' !in busy ==> !Done(w, t'))
  }

  predicate InPair(w: World, t: Obj)
    requires t in w.pairKeys
  {
    w.pairKeys[t] in w.pairs && var pair := w.pairs[w.pairKeys[t]]; pair.local == t || pair.remote == t
  }

  /** The entry of a pipe transport pair stays until one of the two is done. */
  ghost predicate PairLaw(w: World, busy: set<Obj>, t: Obj) {
    t in w.pairKeys && t in w.partner ==>
      && (!Done(w, t) && !Done(w, w.partner[t]) && RouterUp(w, busy, w.pairKeys[t].from) ==> InPair(w, t))
      && (t !in w.closed && w.pairKeys[t] in w.pairs ==> InPair(w, t))
  }

  ghost predicate EmitLaw(w: World, busy: set<Obj>) {
    && (forall i, j :: 0 <= i < j < |w.emitted| ==> w.emitted[i] != w.emitted[j])
    && (forall x :: x in w.emitted ==> Done(w, x))
    && (forall x :: Done(w, x) && x !in busy ==> x in w.emitted)
  }

  predicate Owns(w: World, x: Obj, y: Obj) {
    y in w.objs && !y.Router? && y in w.owner && w.owner[y] == x
  }

  /** What the announced object owns is closed by then, and not announced later. */
  ghost predicate OwnedBefore(w: World, i: nat)
    requires i < |w.emitted|
  {
    forall y :: Owns(w, w.emitted[i], y) ==> y in w.closed && y !in w.emitted[i..]
  }

  /** Observers are told from the bottom up. */
  ghost predicate OrderLaw(w: World) {
    forall i :: 0 <= i < |w.emitted| ==> OwnedBefore(w, i)
  }

  /** Registry entries are what they say they are. */
  ghost predicate EntryLaw(w: World) {
    && (forall k :: k in w.transportProducers ==>
          IsProducer(w, w.transportProducers[k]) && TransportKey(w, w.transportProducers[k]) == k)
    && (forall k :: k in w.routerProducers ==>
          IsProducer(w, w.routerProducers[k]) && RouterKey(w, w.routerProducers[k]) == k)
    && (forall t :: t in w.routerTransports ==> IsTransport(w, t))
    && (forall c :: c in w.transportConsumers ==> IsConsumer(w, c))
  }

  ghost predicate Laws(w: World, busy: set<Obj>) {
    && Shape(w)
    && (forall x :: x in busy ==> Done(w, x))
    && EntryLaw(w)
    && EmitLaw(w, busy)
    && OrderLaw(w)
    && (forall p :: ProducerLaw(w, busy, p))
    && (forall c :: ConsumerLaw(w, busy, c))
    && (forall t :: TransportLaw(w, busy, t))
    && (forall x :: ChildLaw(w, busy, x))
    && (forall x :: LinkLaw(w, busy, x))
    && (forall k :: PairEntryLaw(w, busy, k))
    && (forall t :: PairLaw(w, busy, t))
  }

  /** What every call keeps: nothing is created or reopened, registries only shrink, failures are new. */
  ghost predicate Later(w: World, w': World) {
    && w'.objs == w.objs && w'.owner == w.owner && w'.ids == w.ids
    && w'.partner == w.partner && w'.pairKeys == w.pairKeys
    && w.closed <= w'.closed
    && w.failed <= w'.failed
    && (forall x :: x in w'.failed && x in w.closed ==> x in w.failed)
    && w.emitted <= w'.emitted
    && w'.routerTransports <= w.routerTransports
    && w'.transportConsumers <= w.transportConsumers
    && (forall k :: k in w'.transportProducers ==>
          k in w.transportProducers && w'.transportProducers[k] == w.transportProducers[k])
    && (forall k :: k in w'.routerProducers ==> k in w.routerProducers && w'.routerProducers[k] == w.routerProducers[k])
    && (forall k :: k in w'.pairs ==> k in w.pairs && w'.pairs[k] == w.pairs[k])
  }

  /** Only objects that were open have been announced as closed since. */
  ghost predicate NewlyEmitted(w: World, w': World) {
    forall x :: x in w'.emitted && x in w.closed ==> x in w.emitted
  }

  /** The objects not yet closed: the measure of every cascade. */
  function Open(w: World): set<Obj> {
    w.objs - w.closed
  }

  // ---------------------------------------------------------------- elementary changes

  /** A close request fails: the flag stays set and nothing else happens. */
  function CloseFailed(w: World, x: Obj): World {
    w.(closed := w.closed + {x}, failed := w.failed + {x})
  }

  /** Producer.Close after its request: off both maps, then the observer is told. */
  function ProducerGone(w: World, p: Obj): World
    requires IsProducer(w, p)
  {
    w.(closed := w.closed + {p},
       transportProducers := w.transportProducers - {TransportKey(w, p)},
       routerProducers := w.routerProducers - {RouterKey(w, p)},
       emitted := w.emitted + [p])
  }

  /** Consumer.Close after its request, or the worker's producerclose. */
  function ConsumerGone(w: World, c: Obj): World {
    w.(closed := w.closed + {c},
       transportConsumers := w.transportConsumers - {c},
       emitted := w.emitted + [c])
  }

  /** TransportClosed on a producer or consumer: the transport clears the maps. */
  function Orphaned(w: World, x: Obj): World {
    w.(closed := w.closed + {x}, emitted := w.emitted + [x])
  }

  function Marked(w: World, x: Obj): World {
    w.(closed := w.closed + {x})
  }

  /** Nothing but flags, registries and events differs. */
  predicate SameStructure(w: World, w': World) {
    && w'.objs == w.objs && w'.owner == w.owner && w'.ids == w.ids
    && w'.partner == w.partner && w'.pairKeys == w.pairKeys
  }

  lemma SameShape(w: World, w': World)
    requires Shape(w) && SameStructure(w, w') && w'.closed <= w'.objs && w'.failed <= w'.closed
    ensures Shape(w')
  {
    assert forall x :: GoodObject(w, x) ==> GoodObject(w', x);
    assert forall x :: GoodLink(w, x) ==> GoodLink(w', x);
    assert forall x :: GoodPairKey(w, x) ==> GoodPairKey(w', x);
  }

  /** The laws that concern one object. */
  ghost predicate LawsAt(w: World, busy: set<Obj>, x: Obj) {
    && ProducerLaw(w, busy, x)
    && ConsumerLaw(w, busy, x)
    && TransportLaw(w, busy, x)
    && ChildLaw(w, busy, x)
    && LinkLaw(w, busy, x)
    && PairLaw(w, busy, x)
  }

  /** The laws that are not about single objects. */
  ghost predicate Frame(w: World, busy: set<Obj>) {
    && Shape(w)
    && EntryLaw(w)
    && EmitLaw(w, busy)
    && OrderLaw(w)
    && forall x :: x in busy ==> Done(w, x)
  }

  lemma LawsGive(w: World, busy: set<Obj>)
    requires Laws(w, busy)
    ensures Frame(w, busy)
  {
  }

  lemma LawsGiveAt(w: World, busy: set<Obj>, x: Obj)
    requires Laws(w, busy)
    ensures LawsAt(w, busy, x)
  {
  }

  lemma LawsGivePair(w: World, busy: set<Obj>, k: PairKey)
    requires Laws(w, busy)
    ensures PairEntryLaw(w, busy, k)
    ensures k in w.pairs ==> GoodPairKey(w, w.pairs[k].local)
  {
    assert PairEntryLaw(w, busy, k);
  }

  lemma LawsFromAt(w: World, busy: set<Obj>)
    requires Frame(w, busy)
    requires forall x :: LawsAt(w, busy, x)
    requires forall k :: PairEntryLaw(w, busy, k)
    ensures Laws(w, busy)
  {
    forall x
      ensures ProducerLaw(w, busy, x) && ConsumerLaw(w, busy, x) && TransportLaw(w, busy, x)
      ensures ChildLaw(w, busy, x) && LinkLaw(w, busy, x) && PairLaw(w, busy, x)
    {
      assert LawsAt(w, busy, x);
    }
  }

  /** No object has become done that is not busy, and no pair has changed: the entries are as they were. */
  lemma PairEntriesKept(w: World, busy: set<Obj>, w': World, busy': set<Obj>, k: PairKey)
    requires PairEntryLaw(w, busy, k) && SameStructure(w, w')
    requires k in w'.pairs ==> k in w.pairs && w'.pairs[k] == w.pairs[k]
    requires forall x :: Done(w', x) && x !in busy' ==> Done(w, x) && x !in busy
    ensures PairEntryLaw(w', busy', k)
  {
  }

  /** Marking one object closed, and busy, keeps the laws about owners, links and pairs. */
  lemma MarkingKeeps(w: World, busy: set<Obj>, w': World, x: Obj, y: Obj)
    requires LawsAt(w, busy, y) && SameStructure(w, w') && x !in w.closed
    requires w'.closed == w.closed + {x} && w'.failed == w.failed && w'.pairs == w.pairs && w.failed <= w.closed
    ensures ChildLaw(w', busy + {x}, y) && LinkLaw(w', busy + {x}, y) && PairLaw(w', busy + {x}, y)
  {
  }

  lemma EmitAdds(w: World, busy: set<Obj>, w': World, busy': set<Obj>, x: Obj)
    requires EmitLaw(w, busy) && x !in w.emitted && w'.emitted == w.emitted + [x] && Done(w', x)
    requires forall y :: y != x ==> (Done(w', y) <==> Done(w, y))
    requires forall y :: y != x && y !in busy' ==> y !in busy
    ensures EmitLaw(w', busy')
  {
    forall y | Done(w', y) && y !in busy'
      ensures y in w'.emitted
    {
      if y == x {
        assert w'.emitted[|w.emitted|] == x;
      } else {
        assert y in w.emitted;
      }
    }
  }

  lemma OrderKept(w: World, w': World)
    requires OrderLaw(w) && w'.objs == w.objs && w'.owner == w.owner && w'.emitted == w.emitted && w.closed <= w'.closed
    ensures OrderLaw(w')
  {
    forall i | 0 <= i < |w'.emitted|
      ensures OwnedBefore(w', i)
    {
      assert OwnedBefore(w, i);
    }
  }

  /** Announcing an object that has closed all it owns, and whose owner is yet to be announced. */
  lemma OrderAdds(w: World, w': World, x: Obj)
    requires OrderLaw(w) && w'.objs == w.objs && w'.owner == w.owner && w'.emitted == w.emitted + [x]
    requires w.closed <= w'.closed && forall y :: Owns(w, x, y) ==> y in w'.closed && y != x
    requires forall o :: Owns(w, o, x) ==> o !in w.emitted
    ensures OrderLaw(w')
  {
    forall i | 0 <= i < |w'.emitted|
      ensures OwnedBefore(w', i)
    {
      if i < |w.emitted| {
        assert OwnedBefore(w, i);
        assert w'.emitted[i..] == w.emitted[i..] + [x];
        assert w.emitted[i] in w.emitted;
      } else {
        assert w'.emitted[i..] == [x];
      }
    }
  }

  /** Something still open has its owner yet to be announced, and a producer or consumer owns nothing. */
  lemma LeafIsAnnounced(w: World, w': World, x: Obj)
    requires Shape(w) && OrderLaw(w) && IsLeaf(w, x) && x !in w.closed
    requires w'.objs == w.objs && w'.owner == w.owner && w'.emitted == w.emitted + [x] && w.closed <= w'.closed
    ensures OrderLaw(w')
  {
    forall y
      ensures !Owns(w, x, y)
    {
      assert y in w.objs ==> GoodObject(w, y);
    }
    forall o | Owns(w, o, x)
      ensures o !in w.emitted
    {
      OpenOwner(w, x);
    }
    OrderAdds(w, w', x);
  }

  lemma OpenOwner(w: World, x: Obj)
    requires OrderLaw(w) && x in w.objs && !x.Router? && x in w.owner && x !in w.closed
    ensures w.owner[x] !in w.emitted
  {
    forall i | 0 <= i < |w.emitted|
      ensures w.emitted[i] != w.owner[x]
    {
      assert OwnedBefore(w, i);
    }
  }

  // ---------------------------------------------------------------- a failed request

  lemma CloseFailedAt(w: World, x: Obj, busy: set<Obj>, y: Obj)
    requires Laws(w, busy) && x !in w.closed
    ensures LawsAt(CloseFailed(w, x), busy, y)
  {
    hide Laws;
    LawsGive(w, busy);
    LawsGiveAt(w, busy, y);
  }

  lemma CloseFailedLaws(w: World, x: Obj, busy: set<Obj>)
    requires Laws(w, busy) && x in w.objs && x !in w.closed
    ensures Laws(CloseFailed(w, x), busy) && Later(w, CloseFailed(w, x))
  {
    hide Laws, PairEntryLaw, LawsAt, GoodObject, GoodLink, GoodPairKey;
    var w' := CloseFailed(w, x);
    LawsGive(w, busy);
    SameShape(w, w');
    OrderKept(w, w');
    forall y
      ensures LawsAt(w', busy, y)
    {
      CloseFailedAt(w, x, busy, y);
    }
    forall k
      ensures PairEntryLaw(w', busy, k)
    {
      LawsGivePair(w, busy, k);
      PairEntriesKept(w, busy, w', busy, k);
    }
    LawsFromAt(w', busy);
  }

  // ---------------------------------------------------------------- producers and consumers

  lemma ProducerGoneAt(w: World, p: Obj, busy: set<Obj>, y: Obj)
    requires Laws(w, busy) && IsProducer(w, p) && p !in w.closed
    ensures LawsAt(ProducerGone(w, p), busy + {p}, y)
  {
    hide Laws;
    LawsGive(w, busy);
    LawsGiveAt(w, busy, y);
    LawsGiveAt(w, busy, p);
    MarkingKeeps(w, busy, ProducerGone(w, p), p, y);
  }

  lemma ProducerGoneLaws(w: World, p: Obj, busy: set<Obj>)
    requires Laws(w, busy) && IsProducer(w, p) && p !in w.closed
    ensures Laws(ProducerGone(w, p), busy + {p}) && Later(w, ProducerGone(w, p))
  {
    hide Laws, PairEntryLaw, LawsAt, GoodObject, GoodLink, GoodPairKey;
    var w', busy' := ProducerGone(w, p), busy + {p};
    LawsGive(w, busy);
    SameShape(w, w');
    LeafIsAnnounced(w, w', p);
    EmitAdds(w, busy, w', busy', p);
    forall y
      ensures LawsAt(w', busy', y)
    {
      ProducerGoneAt(w, p, busy, y);
    }
    forall k
      ensures PairEntryLaw(w', busy', k)
    {
      LawsGivePair(w, busy, k);
      PairEntriesKept(w, busy, w', busy', k);
    }
    LawsFromAt(w', busy');
  }

  lemma ConsumerGoneAt(w: World, c: Obj, busy: set<Obj>, y: Obj)
    requires Laws(w, busy) && IsConsumer(w, c) && c !in w.closed
    ensures LawsAt(ConsumerGone(w, c), busy + {c}, y)
  {
    hide Laws;
    LawsGive(w, busy);
    LawsGiveAt(w, busy, y);
    MarkingKeeps(w, busy, ConsumerGone(w, c), c, y);
  }

  lemma ConsumerGoneLaws(w: World, c: Obj, busy: set<Obj>)
    requires Laws(w, busy) && IsConsumer(w, c) && c !in w.closed
    ensures Laws(ConsumerGone(w, c), busy + {c}) && Later(w, ConsumerGone(w, c))
  {
    hide Laws, PairEntryLaw, LawsAt, GoodObject, GoodLink, GoodPairKey;
    var w', busy' := ConsumerGone(w, c), busy + {c};
    LawsGive(w, busy);
    SameShape(w, w');
    LeafIsAnnounced(w, w', c);
    EmitAdds(w, busy, w', busy', c);
    forall y
      ensures LawsAt(w', busy', y)
    {
      ConsumerGoneAt(w, c, busy, y);
    }
    forall k
      ensures PairEntryLaw(w', busy', k)
    {
      LawsGivePair(w, busy, k);
      PairEntriesKept(w, busy, w', busy', k);
    }
    LawsFromAt(w', busy');
  }

  lemma OrphanedAt(w: World, x: Obj, busy: set<Obj>, y: Obj)
    requires Laws(w, busy) && IsLeaf(w, x) && x !in w.closed && w.owner[x] in busy
    ensures LawsAt(Orphaned(w, x), busy + {x}, y)
  {
    hide Laws;
    LawsGive(w, busy);
    LawsGiveAt(w, busy, y);
    MarkingKeeps(w, busy, Orphaned(w, x), x, y);
  }

  lemma OrphanedLaws(w: World, x: Obj, busy: set<Obj>)
    requires Laws(w, busy) && IsLeaf(w, x) && x !in w.closed && w.owner[x] in busy
    ensures Laws(Orphaned(w, x), busy + {x}) && Later(w, Orphaned(w, x))
  {
    hide Laws, PairEntryLaw, LawsAt, GoodObject, GoodLink, GoodPairKey;
    var w', busy' := Orphaned(w, x), busy + {x};
    LawsGive(w, busy);
    SameShape(w, w');
    LeafIsAnnounced(w, w', x);
    EmitAdds(w, busy, w', busy', x);
    forall y
      ensures LawsAt(w', busy', y)
    {
      OrphanedAt(w, x, busy, y);
    }
    forall k
      ensures PairEntryLaw(w', busy', k)
    {
      LawsGivePair(w, busy, k);
      PairEntriesKept(w, busy, w', busy', k);
    }
    LawsFromAt(w', busy');
  }

  lemma ReleaseLeafAt(w: World, x: Obj, busy: set<Obj>, y: Obj)
    requires Laws(w, busy + {x}) && IsLeaf(w, x) && (x in w.partner ==> w.partner[x] in w.closed)
    ensures LawsAt(w, busy, y)
  {
    LawsGiveAt(w, busy + {x}, y);
    if y in w.pairKeys {
      assert GoodPairKey(w, y);
    }
    if y in w.objs {
      assert GoodObject(w, y);
    }
  }

  /** A producer or consumer whose linked end is closed as well is no longer busy. */
  lemma ReleaseLeaf(w: World, x: Obj, busy: set<Obj>)
    requires Laws(w, busy + {x}) && IsLeaf(w, x) && x in w.emitted
    requires x in w.partner ==> w.partner[x] in w.closed
    ensures Laws(w, busy)
  {
    hide Laws, LawsAt;
    LawsGive(w, busy + {x});
    forall y
      ensures LawsAt(w, busy, y)
    {
      ReleaseLeafAt(w, x, busy, y);
    }
    forall k
      ensures PairEntryLaw(w, busy, k)
    {
      LawsGivePair(w, busy + {x}, k);
    }
    LawsFromAt(w, busy);
  }

  // ---------------------------------------------------------------- transports

  lemma MarkedAt(w: World, t: Obj, busy: set<Obj>, y: Obj)
    requires Laws(w, busy) && t !in w.closed && (IsTransport(w, t) || IsRouter(w, t))
    ensures LawsAt(Marked(w, t), busy + {t}, y)
  {
    hide Laws;
    LawsGive(w, busy);
    LawsGiveAt(w, busy, y);
    MarkingKeeps(w, busy, Marked(w, t), t, y);
  }

  /** A transport or router sets its flag and starts closing what it owns. */
  lemma MarkedLaws(w: World, t: Obj, busy: set<Obj>)
    requires Laws(w, busy) && t !in w.closed && (IsTransport(w, t) || IsRouter(w, t))
    ensures Laws(Marked(w, t), busy + {t}) && Later(w, Marked(w, t))
  {
    hide Laws, PairEntryLaw, LawsAt, GoodObject, GoodLink, GoodPairKey;
    var w', busy' := Marked(w, t), busy + {t};
    LawsGive(w, busy);
    SameShape(w, w');
    OrderKept(w, w');
    forall y
      ensures LawsAt(w', busy', y)
    {
      MarkedAt(w, t, busy, y);
    }
    forall k
      ensures PairEntryLaw(w', busy', k)
    {
      LawsGivePair(w, busy, k);
      PairEntriesKept(w, busy, w', busy', k);
    }
    LawsFromAt(w', busy');
  }

  /** The router's listener for a producer of a closing transport. */
  function RouterForgets(w: World, p: Obj): World
    requires IsProducer(w, p)
  {
    w.(routerProducers := w.routerProducers - {RouterKey(w, p)})
  }

  lemma RouterForgetsAt(w: World, p: Obj, busy: set<Obj>, y: Obj)
    requires Laws(w, busy) && IsProducer(w, p) && p in w.closed && w.owner[p] in busy
    requires RouterKey(w, p) in w.routerProducers ==> InRouterMap(w, p)
    ensures LawsAt(RouterForgets(w, p), busy, y)
  {
    hide Laws;
    LawsGiveAt(w, busy, y);
  }

  lemma RouterForgetsLaws(w: World, p: Obj, busy: set<Obj>)
    requires Laws(w, busy) && IsProducer(w, p) && p in w.closed && w.owner[p] in busy
    requires RouterKey(w, p) in w.routerProducers ==> InRouterMap(w, p)
    ensures Laws(RouterForgets(w, p), busy) && Later(w, RouterForgets(w, p))
  {
    hide Laws, PairEntryLaw, LawsAt, GoodObject, GoodLink, GoodPairKey;
    var w' := RouterForgets(w, p);
    LawsGive(w, busy);
    SameShape(w, w');
    OrderKept(w, w');
    forall y
      ensures LawsAt(w', busy, y)
    {
      RouterForgetsAt(w, p, busy, y);
    }
    forall k
      ensures PairEntryLaw(w', busy, k)
    {
      LawsGivePair(w, busy, k);
      PairEntriesKept(w, busy, w', busy, k);
    }
    LawsFromAt(w', busy);
  }

  /** The transport's own maps are replaced by empty ones. */
  function ProducersCleared(w: World, t: Obj): World {
    w.(transportProducers := map k | k in w.transportProducers && k.of != t :: w.transportProducers[k])
  }

  function ConsumersCleared(w: World, t: Obj): World
    requires forall c :: c in w.transportConsumers ==> c in w.owner
  {
    w.(transportConsumers := set c | c in w.transportConsumers && w.owner[c] != t)
  }

  /** Every producer of the transport is closed and off the maps. */
  ghost predicate ProducersSwept(w: World, t: Obj)
    requires EntryLaw(w)
  {
    && (forall p :: IsProducer(w, p) && w.owner[p] == t ==> p in w.closed)
    && (forall k :: k in w.transportProducers ==> k.of != t)
    && (forall k :: k in w.routerProducers ==> w.owner[w.routerProducers[k]] != t)
  }

  ghost predicate ConsumersSwept(w: World, t: Obj)
    requires EntryLaw(w)
  {
    && (forall c :: IsConsumer(w, c) && w.owner[c] == t ==> c in w.closed)
    && (forall c :: c in w.transportConsumers ==> w.owner[c] != t)
  }

  lemma ProducersClearedAt(w: World, t: Obj, busy: set<Obj>, y: Obj)
    requires Laws(w, busy) && t in busy
    requires forall p :: IsProducer(w, p) && w.owner[p] == t ==> p in w.closed
    requires forall k :: k in w.routerProducers ==> w.owner[w.routerProducers[k]] != t
    ensures LawsAt(ProducersCleared(w, t), busy, y)
  {
    hide Laws;
    LawsGiveAt(w, busy, y);
  }

  lemma ProducersClearedFrame(w: World, t: Obj, busy: set<Obj>)
    requires Frame(w, busy)
    ensures EntryLaw(w) && Frame(ProducersCleared(w, t), busy)
  {
    hide GoodObject, GoodLink, GoodPairKey;
    SameShape(w, ProducersCleared(w, t));
    OrderKept(w, ProducersCleared(w, t));
  }

  lemma ProducersClearedLaws(w: World, t: Obj, busy: set<Obj>)
    requires Laws(w, busy) && t in busy
    requires forall p :: IsProducer(w, p) && w.owner[p] == t ==> p in w.closed
    requires forall k :: k in w.routerProducers ==> w.owner[w.routerProducers[k]] != t
    ensures var w' := ProducersCleared(w, t); Laws(w', busy) && Later(w, w') && ProducersSwept(w', t)
  {
    hide Laws, PairEntryLaw, LawsAt, Frame;
    var w' := ProducersCleared(w, t);
    LawsGive(w, busy);
    ProducersClearedFrame(w, t, busy);
    forall y
      ensures LawsAt(w', busy, y)
    {
      ProducersClearedAt(w, t, busy, y);
    }
    forall k
      ensures PairEntryLaw(w', busy, k)
    {
      LawsGivePair(w, busy, k);
      PairEntriesKept(w, busy, w', busy, k);
    }
    LawsFromAt(w', busy);
  }

  lemma ConsumersClearedAt(w: World, t: Obj, busy: set<Obj>, y: Obj)
    requires Laws(w, busy) && t in busy
    requires forall c :: IsConsumer(w, c) && w.owner[c] == t ==> c in w.closed
    ensures LawsAt(ConsumersCleared(w, t), busy, y)
  {
    LawsGiveAt(w, busy, y);
  }

  lemma ConsumersClearedLaws(w: World, t: Obj, busy: set<Obj>)
    requires Laws(w, busy) && t in busy
    requires forall c :: IsConsumer(w, c) && w.owner[c] == t ==> c in w.closed
    ensures var w' := ConsumersCleared(w, t); Laws(w', busy) && Later(w, w') && ConsumersSwept(w', t)
  {
    hide PairEntryLaw, LawsAt, ProducerLaw, ConsumerLaw, TransportLaw, ChildLaw, LinkLaw, PairLaw,
      GoodObject, GoodLink, GoodPairKey;
    var w' := ConsumersCleared(w, t);
    LawsGive(w, busy);
    SameShape(w, w');
    OrderKept(w, w');
    forall y
      ensures LawsAt(w', busy, y)
    {
      ConsumersClearedAt(w, t, busy, y);
    }
    forall k
      ensures PairEntryLaw(w', busy, k)
    {
      LawsGivePair(w, busy, k);
      PairEntriesKept(w, busy, w', busy, k);
    }
    LawsFromAt(w', busy);
  }

  /** The end of a transport's own closing: off the router's map unless the router is closing it, observer told. */
  function TransportGone(w: World, t: Obj, byRouter: bool): World {
    w.(routerTransports := if byRouter then w.routerTransports else w.routerTransports - {t},
       emitted := w.emitted + [t])
  }

  lemma TransportGoneAt(w: World, t: Obj, byRouter: bool, busy: set<Obj>, y: Obj)
    requires Laws(w, busy) && t in busy
    ensures LawsAt(TransportGone(w, t, byRouter), busy, y)
  {
    hide Laws;
    LawsGive(w, busy);
    LawsGiveAt(w, busy, y);
  }

  lemma TransportGoneLaws(w: World, t: Obj, byRouter: bool, busy: set<Obj>)
    requires Laws(w, busy) && t in busy && t !in w.emitted && IsTransport(w, t) && w.owner[t] !in w.emitted
    requires forall y :: Owns(w, t, y) ==> y in w.closed
    ensures Laws(TransportGone(w, t, byRouter), busy) && Later(w, TransportGone(w, t, byRouter))
  {
    hide Laws, PairEntryLaw, LawsAt, GoodObject, GoodLink, GoodPairKey;
    var w' := TransportGone(w, t, byRouter);
    LawsGive(w, busy);
    SameShape(w, w');
    OrderAdds(w, w', t);
    EmitAdds(w, busy, w', busy, t);
    forall y
      ensures LawsAt(w', busy, y)
    {
      TransportGoneAt(w, t, byRouter, busy, y);
    }
    forall k
      ensures PairEntryLaw(w', busy, k)
    {
      LawsGivePair(w, busy, k);
      PairEntriesKept(w, busy, w', busy, k);
    }
    LawsFromAt(w', busy);
  }

  /** The close listener of a pipe transport deletes the pair's entry. */
  function PairDeleted(w: World, t: Obj): World
    requires t in w.pairKeys
  {
    w.(pairs := w.pairs - {w.pairKeys[t]})
  }

  lemma PairDeletedAt(w: World, t: Obj, busy: set<Obj>, y: Obj)
    requires Laws(w, busy) && t in busy && t in w.pairKeys
    requires w.pairKeys[t] in w.pairs ==> InPair(w, t)
    ensures LawsAt(PairDeleted(w, t), busy, y)
  {
    hide Laws;
    LawsGiveAt(w, busy, y);
    assert PairLaw(PairDeleted(w, t), busy, y) by {
      SharedPair(w, t, busy, y);
    }
  }

  /** Whoever else is in the pair's entry is the other end, which a done end no longer needs. */
  lemma SharedPair(w: World, t: Obj, busy: set<Obj>, y: Obj)
    requires Laws(w, busy) && t in busy && t in w.pairKeys
    requires w.pairKeys[t] in w.pairs ==> InPair(w, t)
    ensures PairLaw(PairDeleted(w, t), busy, y)
  {
    hide ProducerLaw, ConsumerLaw, TransportLaw, ChildLaw, LinkLaw, EntryLaw, EmitLaw;
    assert PairLaw(w, busy, y) && Done(w, t);
    if y in w.pairKeys && InPair(w, y) && w.pairKeys[y] == w.pairKeys[t] {
      LawsGivePair(w, busy, w.pairKeys[t]);
      assert GoodPairKey(w, t) && GoodPairKey(w, y);
      assert y == t || y == w.partner[t];
    }
  }

  lemma PairDeletedLaws(w: World, t: Obj, busy: set<Obj>)
    requires Laws(w, busy) && t in busy && t in w.pairKeys
    requires w.pairKeys[t] in w.pairs ==> InPair(w, t)
    ensures Laws(PairDeleted(w, t), busy) && Later(w, PairDeleted(w, t))
  {
    hide Laws, PairEntryLaw, LawsAt, GoodObject, GoodLink, GoodPairKey;
    var w' := PairDeleted(w, t);
    LawsGive(w, busy);
    SameShape(w, w');
    OrderKept(w, w');
    forall y
      ensures LawsAt(w', busy, y)
    {
      PairDeletedAt(w, t, busy, y);
    }
    forall k
      ensures PairEntryLaw(w', busy, k)
    {
      LawsGivePair(w, busy, k);
      PairEntriesKept(w, busy, w', busy, k);
    }
    LawsFromAt(w', busy);
  }

  /** What a transport's closing must have achieved before it returns. */
  ghost predicate TransportSettled(w: World, t: Obj, byRouter: bool)
    requires EntryLaw(w)
  {
    && t in w.emitted
    && ProducersSwept(w, t)
    && ConsumersSwept(w, t)
    && (byRouter || t !in w.routerTransports)
    && (t in w.partner ==> w.partner[t] in w.closed && t in w.pairKeys && w.pairKeys[t] !in w.pairs)
  }

  lemma ReleaseTransportAt(w: World, t: Obj, busy: set<Obj>, y: Obj)
    requires Laws(w, busy + {t}) && IsTransport(w, t) && TransportSettled(w, t, w.owner[t] in busy)
    ensures LawsAt(w, busy, y)
  {
    LawsGiveAt(w, busy + {t}, y);
    if y in w.pairKeys {
      assert GoodPairKey(w, y);
    }
    if y in w.objs {
      assert GoodObject(w, y);
    }
  }

  /** A transport that has been swept, announced and unlinked is no longer busy. */
  lemma ReleaseTransport(w: World, t: Obj, busy: set<Obj>)
    requires Laws(w, busy + {t}) && IsTransport(w, t) && TransportSettled(w, t, w.owner[t] in busy)
    ensures Laws(w, busy)
  {
    hide LawsAt, ProducerLaw, ConsumerLaw, TransportLaw, ChildLaw, LinkLaw, PairLaw, ProducersSwept, ConsumersSwept;
    LawsGive(w, busy + {t});
    forall y
      ensures LawsAt(w, busy, y)
    {
      ReleaseTransportAt(w, t, busy, y);
    }
    forall k
      ensures PairEntryLaw(w, busy, k)
    {
      LawsGivePair(w, busy + {t}, k);
    }
    LawsFromAt(w, busy);
  }

  // ---------------------------------------------------------------- routers

  /** The router's own maps are replaced by empty ones, and its observer is told. */
  function RouterGone(w: World, r: Obj): World
    requires forall t :: t in w.routerTransports ==> t in w.owner
  {
    w.(routerTransports := (set t | t in w.routerTransports && w.owner[t] != r),
       routerProducers := (map k | k in w.routerProducers && k.of != r :: w.routerProducers[k]),
       pairs := (map k | k in w.pairs && k.from != r :: w.pairs[k]),
       emitted := w.emitted + [r])
  }

  lemma RouterGoneProducer(w: World, r: Obj, busy: set<Obj>, y: Obj)
    requires ProducerLaw(w, busy + {r}, y) && TransportLaw(w, busy + {r}, y)
    requires IsRouter(w, r) && r !in busy && Done(w, r) && (y in w.objs ==> GoodObject(w, y))
    requires forall t :: t in w.routerTransports ==> t in w.owner
    ensures ProducerLaw(RouterGone(w, r), busy, y)
  {
    if IsProducer(w, y) {
      var w' := RouterGone(w, r);
      assert InTransportMap(w', y) == InTransportMap(w, y);
      assert InRouterMap(w', y) == (InRouterMap(w, y) && RouterOf(w, y) != r);
    }
  }

  lemma RouterGoneLinks(w: World, r: Obj, busy: set<Obj>, y: Obj)
    requires LinkLaw(w, busy + {r}, y) && PairLaw(w, busy + {r}, y)
    requires IsRouter(w, r) && r !in busy && Done(w, r)
    requires (y in w.partner ==> GoodLink(w, y)) && (y in w.pairKeys ==> GoodPairKey(w, y))
    requires forall t :: t in w.routerTransports ==> t in w.owner
    ensures LinkLaw(RouterGone(w, r), busy, y) && PairLaw(RouterGone(w, r), busy, y)
  {
  }

  lemma RouterGoneAt(w: World, r: Obj, busy: set<Obj>, y: Obj)
    requires Laws(w, busy + {r}) && IsRouter(w, r) && r !in busy && r in w.closed && r !in w.failed
    requires forall t :: IsTransport(w, t) && w.owner[t] == r ==> t in w.closed
    requires forall t :: t in w.routerTransports ==> t in w.owner
    ensures LawsAt(RouterGone(w, r), busy, y)
  {
    hide Laws, ProducerLaw, LinkLaw, PairLaw, GoodLink, GoodPairKey, EmitLaw;
    LawsGiveAt(w, busy + {r}, y);
    LawsGive(w, busy + {r});
    RouterGoneProducer(w, r, busy, y);
    RouterGoneLinks(w, r, busy, y);
  }

  lemma RouterGoneFrame(w: World, r: Obj, busy: set<Obj>)
    requires Frame(w, busy + {r}) && IsRouter(w, r) && r !in busy && r !in w.emitted
    requires forall y :: Owns(w, r, y) ==> y in w.closed
    ensures Frame(RouterGone(w, r), busy) && Later(w, RouterGone(w, r))
  {
    hide GoodObject, GoodLink, GoodPairKey;
    SameShape(w, RouterGone(w, r));
    OrderAdds(w, RouterGone(w, r), r);
    EmitAdds(w, busy + {r}, RouterGone(w, r), busy, r);
  }

  lemma RouterGonePair(w: World, r: Obj, busy: set<Obj>, k: PairKey)
    requires Laws(w, busy + {r}) && IsRouter(w, r)
    ensures PairEntryLaw(RouterGone(w, r), busy, k)
  {
    LawsGivePair(w, busy + {r}, k);
  }

  lemma RouterOwnsTransports(w: World, r: Obj)
    requires Shape(w) && IsRouter(w, r)
    ensures forall y :: Owns(w, r, y) ==> IsTransport(w, y)
  {
    forall y | Owns(w, r, y)
      ensures IsTransport(w, y)
    {
      assert GoodObject(w, y);
    }
  }

  lemma RouterGoneLaws(w: World, r: Obj, busy: set<Obj>)
    requires Laws(w, busy + {r}) && IsRouter(w, r) && r !in busy && r !in w.emitted
    requires forall t :: IsTransport(w, t) && w.owner[t] == r ==> t in w.closed
    ensures Laws(RouterGone(w, r), busy) && Later(w, RouterGone(w, r))
  {
    hide LawsAt, ProducerLaw, ConsumerLaw, TransportLaw, ChildLaw, LinkLaw, PairLaw, PairEntryLaw,
      GoodObject, GoodLink, GoodPairKey, EmitLaw;
    var w' := RouterGone(w, r);
    LawsGive(w, busy + {r});
    RouterOwnsTransports(w, r);
    RouterGoneFrame(w, r, busy);
    forall y
      ensures LawsAt(w', busy, y)
    {
      RouterGoneAt(w, r, busy, y);
    }
    forall k
      ensures PairEntryLaw(w', busy, k)
    {
      RouterGonePair(w, r, busy, k);
    }
    LawsFromAt(w', busy);
  }

  // ---------------------------------------------------------------- creation

  /** The worker still has the transport: neither it nor its router has been closed there. */
  predicate Alive(w: World, t: Obj)
    requires IsTransport(w, t)
  {
    !Done(w, t) && !Done(w, w.owner[t])
  }

  function WithRouter(w: World, r: Obj): World {
    w.(objs := w.objs + {r})
  }

  function WithTransport(w: World, r: Obj, t: Obj): World {
    w.(objs := w.objs + {t}, owner := w.owner[t := r], routerTransports := w.routerTransports + {t})
  }

  function WithProducer(w: World, t: Obj, p: Obj, id: string): World
    requires IsTransport(w, t)
  {
    w.(objs := w.objs + {p}, owner := w.owner[p := t], ids := w.ids[p := id],
       transportProducers := w.transportProducers[Key(t, id) := p],
       routerProducers := w.routerProducers[Key(w.owner[t], id) := p])
  }

  function WithConsumer(w: World, t: Obj, c: Obj): World {
    w.(objs := w.objs + {c}, owner := w.owner[c := t], transportConsumers := w.transportConsumers + {c})
  }

  function WithLink(w: World, c: Obj, p: Obj): World {
    w.(partner := w.partner[c := p][p := c])
  }

  function WithPairing(w: World, t: Obj, t': Obj): World
    requires IsTransport(w, t) && IsTransport(w, t')
  {
    var k := PairKey(w.owner[t], w.owner[t']);
    w.(partner := w.partner[t := t'][t' := t],
       pairKeys := w.pairKeys[t := k][t' := k],
       pairs := w.pairs[k := Pair(t, t')])
  }

  /** `w'` has one more object, with the given owner and id, and no link. */
  predicate Grown(w: World, w': World, x: Obj) {
    && x !in w.objs
    && w'.objs == w.objs + {x}
    && (forall y :: y in w.owner && y != x ==> y in w'.owner && w'.owner[y] == w.owner[y])
    && (forall y :: y in w.ids && y != x ==> y in w'.ids && w'.ids[y] == w.ids[y])
    && w'.partner == w.partner && w'.pairKeys == w.pairKeys && w'.pairs == w.pairs
    && w'.closed == w.closed && w'.failed == w.failed && w'.emitted == w.emitted
  }

  lemma GrownKeeps(w: World, w': World, x: Obj, y: Obj)
    requires Shape(w) && Grown(w, w', x) && y in w.objs
    ensures GoodObject(w', y)
    ensures y.Transport? ==> IsTransport(w, y) && w'.owner[y] == w.owner[y]
    ensures y.Producer? ==>
              IsProducer(w, y) && TransportKey(w', y) == TransportKey(w, y) && RouterKey(w', y) == RouterKey(w, y)
    ensures y.Consumer? ==> IsConsumer(w, y) && w'.owner[y] == w.owner[y]
    ensures y in w.pairKeys ==> GoodPairKey(w', y)
  {
    assert GoodObject(w, y);
    if y in w.pairKeys {
      assert GoodPairKey(w, y);
    }
  }

  lemma GrownShape(w: World, w': World, x: Obj)
    requires Shape(w) && Grown(w, w', x) && GoodObject(w', x)
    ensures Shape(w')
  {
    forall y | y in w'.objs
      ensures GoodObject(w', y)
    {
      if y != x {
        GrownKeeps(w, w', x, y);
      }
    }
    forall y | y in w'.partner
      ensures GoodLink(w', y)
    {
      assert GoodLink(w, y);
    }
    forall t | t in w'.pairKeys
      ensures GoodPairKey(w', t)
    {
      assert GoodPairKey(w, t);
      GrownKeeps(w, w', x, t);
    }
  }

  /** A new object's owner, if it has one, has not been announced. */
  lemma GrownOrder(w: World, w': World, x: Obj)
    requires Shape(w) && Grown(w, w', x) && OrderLaw(w)
    requires forall o :: Owns(w', o, x) ==> o !in w.emitted
    ensures OrderLaw(w')
  {
    forall i | 0 <= i < |w'.emitted|
      ensures OwnedBefore(w', i)
    {
      assert OwnedBefore(w, i) && w.emitted[i] in w.emitted;
      forall y | Owns(w', w'.emitted[i], y)
        ensures y in w'.closed && y !in w'.emitted[i..]
      {
        if y != x {
          GrownKeeps(w, w', x, y);
          assert Owns(w, w.emitted[i], y);
        }
      }
    }
  }

  lemma GrownLinks(w: World, w': World, x: Obj, y: Obj)
    requires Shape(w) && Grown(w, w', x) && LawsAt(w, {}, y)
    ensures LinkLaw(w', {}, y) && PairLaw(w', {}, y)
  {
  }

  lemma WithRouterAt(w: World, r: Obj, y: Obj)
    requires Laws(w, {}) && r.Router? && r !in w.objs
    ensures LawsAt(WithRouter(w, r), {}, y)
  {
    hide Laws, PairEntryLaw, GoodLink, GoodPairKey;
    LawsGive(w, {});
    LawsGiveAt(w, {}, y);
    GrownLinks(w, WithRouter(w, r), r, y);
    if y in w.objs {
      GrownKeeps(w, WithRouter(w, r), r, y);
    }
  }

  lemma WithRouterLaws(w: World, r: Obj)
    requires Laws(w, {}) && r.Router? && r !in w.objs
    ensures Laws(WithRouter(w, r), {})
  {
    hide Laws, PairEntryLaw, GoodLink, GoodPairKey, LawsAt;
    var w' := WithRouter(w, r);
    LawsGive(w, {});
    GrownShape(w, w', r);
    GrownOrder(w, w', r);
    forall y
      ensures LawsAt(w', {}, y)
    {
      WithRouterAt(w, r, y);
    }
    forall k
      ensures PairEntryLaw(w', {}, k)
    {
      LawsGivePair(w, {}, k);
      GrownPairs(w, w', r, k);
    }
    LawsFromAt(w', {});
  }

  lemma GrownPairs(w: World, w': World, x: Obj, k: PairKey)
    requires Shape(w) && Grown(w, w', x) && PairEntryLaw(w, {}, k)
    ensures PairEntryLaw(w', {}, k)
  {
  }

  lemma WithTransportAt(w: World, r: Obj, t: Obj, y: Obj)
    requires Laws(w, {}) && IsRouter(w, r) && !Done(w, r) && t.Transport? && t !in w.objs
    ensures LawsAt(WithTransport(w, r, t), {}, y)
  {
    hide Laws, PairEntryLaw, GoodLink, GoodPairKey, EmitLaw, EntryLaw, PairLaw, LinkLaw;
    LawsGive(w, {});
    LawsGiveAt(w, {}, y);
    GrownLinks(w, WithTransport(w, r, t), t, y);
    if y in w.objs {
      GrownKeeps(w, WithTransport(w, r, t), t, y);
    }
  }

  lemma WithTransportLaws(w: World, r: Obj, t: Obj)
    requires Laws(w, {}) && IsRouter(w, r) && !Done(w, r) && t.Transport? && t !in w.objs
    ensures Laws(WithTransport(w, r, t), {})
  {
    hide Laws, PairEntryLaw, GoodLink, GoodPairKey, LawsAt;
    var w' := WithTransport(w, r, t);
    LawsGive(w, {});
    GrownShape(w, w', t);
    GrownOrder(w, w', t);
    forall y
      ensures LawsAt(w', {}, y)
    {
      WithTransportAt(w, r, t, y);
    }
    forall k
      ensures PairEntryLaw(w', {}, k)
    {
      LawsGivePair(w, {}, k);
      GrownPairs(w, w', t, k);
    }
    LawsFromAt(w', {});
  }

  lemma WithConsumerAt(w: World, t: Obj, c: Obj, y: Obj)
    requires Laws(w, {}) && IsTransport(w, t) && Alive(w, t) && c.Consumer? && c !in w.objs
    ensures LawsAt(WithConsumer(w, t, c), {}, y)
  {
    hide Laws, PairEntryLaw, GoodLink, GoodPairKey;
    LawsGive(w, {});
    LawsGiveAt(w, {}, y);
    GrownLinks(w, WithConsumer(w, t, c), c, y);
    if y in w.objs {
      GrownKeeps(w, WithConsumer(w, t, c), c, y);
    }
  }

  lemma WithConsumerLaws(w: World, t: Obj, c: Obj)
    requires Laws(w, {}) && IsTransport(w, t) && Alive(w, t) && c.Consumer? && c !in w.objs
    ensures Laws(WithConsumer(w, t, c), {})
  {
    hide Laws, PairEntryLaw, GoodLink, GoodPairKey, LawsAt;
    var w' := WithConsumer(w, t, c);
    LawsGive(w, {});
    GrownShape(w, w', c);
    GrownOrder(w, w', c);
    forall y
      ensures LawsAt(w', {}, y)
    {
      WithConsumerAt(w, t, c, y);
    }
    forall k
      ensures PairEntryLaw(w', {}, k)
    {
      LawsGivePair(w, {}, k);
      GrownPairs(w, w', c, k);
    }
    LawsFromAt(w', {});
  }

  /** Every producer that is still filed anywhere holds its key, so a free key has no open holder. */
  lemma FreeKeyHasNoHolder(w: World, t: Obj, id: string, y: Obj)
    requires Laws(w, {}) && IsTransport(w, t) && Alive(w, t) && IsProducer(w, y)
    requires Key(t, id) !in w.transportProducers && Key(w.owner[t], id) !in w.routerProducers
    ensures TransportKey(w, y) == Key(t, id) ==> Done(w, y)
    ensures RouterKey(w, y) == Key(w.owner[t], id) ==> Done(w, y) || Done(w, w.owner[y])
  {
    LawsGiveAt(w, {}, y);
    LawsGiveAt(w, {}, t);
  }

  lemma WithProducerOther(w: World, t: Obj, p: Obj, id: string, y: Obj)
    requires Laws(w, {}) && IsTransport(w, t) && Alive(w, t) && p.Producer? && p !in w.objs
    requires Key(t, id) !in w.transportProducers && Key(w.owner[t], id) !in w.routerProducers
    requires y in w.objs && y.Producer?
    ensures ProducerLaw(WithProducer(w, t, p, id), {}, y)
  {
    hide Laws, ConsumerLaw, TransportLaw, LinkLaw, PairLaw, GoodLink, GoodPairKey, EmitLaw, EntryLaw;
    LawsGive(w, {});
    LawsGiveAt(w, {}, y);
    GrownKeeps(w, WithProducer(w, t, p, id), p, y);
    FreeKeyHasNoHolder(w, t, id, y);
  }

  lemma WithProducerItself(w: World, t: Obj, p: Obj, id: string)
    requires Laws(w, {}) && IsTransport(w, t) && Alive(w, t) && p.Producer? && p !in w.objs
    ensures var w' := WithProducer(w, t, p, id);
            ProducerLaw(w', {}, p) && ConsumerLaw(w', {}, p) && TransportLaw(w', {}, p) && ChildLaw(w', {}, p)
  {
    LawsGive(w, {});
    hide Laws;
    assert p !in w.closed && p !in w.failed;
  }

  /** What an object that is not a producer has to do with a new one: nothing. */
  lemma WithProducerElse(w: World, t: Obj, p: Obj, id: string, y: Obj)
    requires Laws(w, {}) && IsTransport(w, t) && p.Producer? && p !in w.objs && y != p
    ensures var w' := WithProducer(w, t, p, id);
            ConsumerLaw(w', {}, y) && TransportLaw(w', {}, y) && ChildLaw(w', {}, y)
  {
    hide Laws, ProducerLaw, PairLaw, LinkLaw, Shape;
    LawsGive(w, {});
    LawsGiveAt(w, {}, y);
    if y in w.objs {
      GrownKeeps(w, WithProducer(w, t, p, id), p, y);
    }
  }

  lemma WithProducerAt(w: World, t: Obj, p: Obj, id: string, y: Obj)
    requires Laws(w, {}) && IsTransport(w, t) && Alive(w, t) && p.Producer? && p !in w.objs
    requires Key(t, id) !in w.transportProducers && Key(w.owner[t], id) !in w.routerProducers
    ensures LawsAt(WithProducer(w, t, p, id), {}, y)
  {
    hide Laws, Shape, ConsumerLaw, TransportLaw, ChildLaw, PairLaw, LinkLaw;
    LawsGive(w, {});
    LawsGiveAt(w, {}, y);
    GrownLinks(w, WithProducer(w, t, p, id), p, y);
    if y == p {
      WithProducerItself(w, t, p, id);
    } else {
      WithProducerElse(w, t, p, id, y);
      if y in w.objs && y.Producer? {
        WithProducerOther(w, t, p, id, y);
      }
    }
  }

  lemma WithProducerEntries(w: World, t: Obj, p: Obj, id: string)
    requires Shape(w) && EntryLaw(w) && IsTransport(w, t) && p.Producer? && p !in w.objs
    ensures EntryLaw(WithProducer(w, t, p, id))
  {
    hide GoodLink, GoodPairKey;
    var w' := WithProducer(w, t, p, id);
    forall k | k in w'.transportProducers
      ensures IsProducer(w', w'.transportProducers[k]) && TransportKey(w', w'.transportProducers[k]) == k
    {
      if k != Key(t, id) {
        GrownKeeps(w, w', p, w.transportProducers[k]);
      }
    }
    forall k | k in w'.routerProducers
      ensures IsProducer(w', w'.routerProducers[k]) && RouterKey(w', w'.routerProducers[k]) == k
    {
      if k != Key(w.owner[t], id) {
        GrownKeeps(w, w', p, w.routerProducers[k]);
      }
    }
  }

  lemma WithProducerLaws(w: World, t: Obj, p: Obj, id: string)
    requires Laws(w, {}) && IsTransport(w, t) && Alive(w, t) && p.Producer? && p !in w.objs
    requires Key(t, id) !in w.transportProducers && Key(w.owner[t], id) !in w.routerProducers
    ensures Laws(WithProducer(w, t, p, id), {})
  {
    hide Laws, PairEntryLaw, GoodLink, GoodPairKey, LawsAt, OrderLaw, EntryLaw;
    var w' := WithProducer(w, t, p, id);
    LawsGive(w, {});
    GrownShape(w, w', p);
    GrownOrder(w, w', p);
    forall y
      ensures LawsAt(w', {}, y)
    {
      WithProducerAt(w, t, p, id, y);
    }
    forall k
      ensures PairEntryLaw(w', {}, k)
    {
      LawsGivePair(w, {}, k);
      GrownPairs(w, w', p, k);
    }
    WithProducerEntries(w, t, p, id);
    LawsFromAt(w', {});
  }

  lemma WithLinkShape(w: World, c: Obj, p: Obj)
    requires Shape(w) && IsConsumer(w, c) && IsProducer(w, p) && c !in w.partner && p !in w.partner
    ensures Shape(WithLink(w, c, p))
  {
    var w' := WithLink(w, c, p);
    forall y | y in w'.objs
      ensures GoodObject(w', y)
    {
      assert GoodObject(w, y);
    }
    forall y | y in w'.partner
      ensures GoodLink(w', y)
    {
      assert y in w.partner ==> GoodLink(w, y);
    }
    forall y | y in w'.pairKeys
      ensures GoodPairKey(w', y)
    {
      assert GoodPairKey(w, y);
    }
  }

  lemma WithLinkAt(w: World, c: Obj, p: Obj, y: Obj)
    requires Laws(w, {}) && IsConsumer(w, c) && IsProducer(w, p) && c !in w.closed && p !in w.closed
    requires c !in w.partner && p !in w.partner
    ensures LawsAt(WithLink(w, c, p), {}, y)
  {
    hide Laws, Shape, Frame;
    LawsGiveAt(w, {}, y);
    PairKeyIsGood(w, {}, y);
  }

  lemma WithLinkLaws(w: World, c: Obj, p: Obj)
    requires Laws(w, {}) && IsConsumer(w, c) && IsProducer(w, p) && c !in w.closed && p !in w.closed
    requires c !in w.partner && p !in w.partner
    ensures Laws(WithLink(w, c, p), {})
  {
    hide Laws, LawsAt, GoodObject, GoodLink, GoodPairKey;
    var w' := WithLink(w, c, p);
    LawsGive(w, {});
    WithLinkShape(w, c, p);
    OrderKept(w, w');
    forall y
      ensures LawsAt(w', {}, y)
    {
      WithLinkAt(w, c, p, y);
    }
    forall k
      ensures PairEntryLaw(w', {}, k)
    {
      LawsGivePair(w, {}, k);
    }
    LawsFromAt(w', {});
  }

  lemma WithPairingShape(w: World, t: Obj, t': Obj)
    requires Shape(w) && IsTransport(w, t) && IsTransport(w, t') && t != t'
    requires t !in w.partner && t' !in w.partner
    ensures Shape(WithPairing(w, t, t'))
  {
    var w' := WithPairing(w, t, t');
    forall y | y in w'.objs
      ensures GoodObject(w', y)
    {
      assert GoodObject(w, y);
    }
    forall y | y in w'.partner
      ensures GoodLink(w', y)
    {
      assert y in w.partner ==> GoodLink(w, y);
    }
    forall y | y in w'.pairKeys
      ensures GoodPairKey(w', y)
    {
      assert y in w.pairKeys ==> GoodPairKey(w, y);
    }
  }

  /** No open transport, and no pair without a done end, stands for a free entry. */
  lemma FreeEntryHasNoHolder(w: World, t: Obj, t': Obj, y: Obj)
    requires Laws(w, {}) && IsTransport(w, t) && IsTransport(w, t') && t !in w.closed
    requires PairKey(w.owner[t], w.owner[t']) !in w.pairs
    requires y in w.pairKeys && w.pairKeys[y] == PairKey(w.owner[t], w.owner[t'])
    ensures GoodPairKey(w, y) && y in w.closed && (Done(w, y) || Done(w, w.partner[y]))
  {
    hide Laws, EmitLaw, EntryLaw, ProducerLaw, ConsumerLaw, TransportLaw;
    LawsGive(w, {});
    LawsGiveAt(w, {}, t);
    LawsGiveAt(w, {}, y);
    assert GoodPairKey(w, y);
    LawsGiveAt(w, {}, w.partner[y]);
  }

  lemma WithPairingPair(w: World, t: Obj, t': Obj, y: Obj)
    requires Laws(w, {}) && IsTransport(w, t) && IsTransport(w, t')
    requires t !in w.closed && t' !in w.closed && t !in w.partner && t' !in w.partner
    requires PairKey(w.owner[t], w.owner[t']) !in w.pairs
    ensures PairLaw(WithPairing(w, t, t'), {}, y)
  {
    hide Laws, ProducerLaw, ConsumerLaw, TransportLaw, ChildLaw, LinkLaw;
    LawsGiveAt(w, {}, y);
    PairKeyIsGood(w, {}, y);
    if y in w.pairKeys && w.pairKeys[y] == PairKey(w.owner[t], w.owner[t']) {
      FreeEntryHasNoHolder(w, t, t', y);
    }
  }

  lemma PairKeyIsGood(w: World, busy: set<Obj>, y: Obj)
    requires Laws(w, busy)
    ensures y in w.pairKeys ==> GoodPairKey(w, y)
  {
    LawsGive(w, busy);
  }

  lemma WithPairingAt(w: World, t: Obj, t': Obj, y: Obj)
    requires Laws(w, {}) && IsTransport(w, t) && IsTransport(w, t')
    requires t !in w.closed && t' !in w.closed && t !in w.partner && t' !in w.partner
    requires PairKey(w.owner[t], w.owner[t']) !in w.pairs
    ensures LawsAt(WithPairing(w, t, t'), {}, y)
  {
    hide Laws, EmitLaw, EntryLaw, PairLaw, GoodPairKey, GoodObject;
    LawsGive(w, {});
    LawsGiveAt(w, {}, y);
    WithPairingPair(w, t, t', y);
  }

  lemma WithPairingEntry(w: World, t: Obj, t': Obj, k: PairKey)
    requires Laws(w, {}) && IsTransport(w, t) && IsTransport(w, t') && t != t'
    requires t !in w.closed && t' !in w.closed && t !in w.partner && t' !in w.partner
    ensures PairEntryLaw(WithPairing(w, t, t'), {}, k)
  {
    hide Laws;
    LawsGivePair(w, {}, k);
  }

  lemma WithPairingFrame(w: World, t: Obj, t': Obj)
    requires Frame(w, {}) && IsTransport(w, t) && IsTransport(w, t') && t != t'
    requires t !in w.partner && t' !in w.partner
    ensures Frame(WithPairing(w, t, t'), {})
  {
    hide GoodObject, GoodLink, GoodPairKey;
    WithPairingShape(w, t, t');
    OrderKept(w, WithPairing(w, t, t'));
  }

  lemma WithPairingLaws(w: World, t: Obj, t': Obj)
    requires Laws(w, {}) && IsTransport(w, t) && IsTransport(w, t') && t != t'
    requires t !in w.closed && t' !in w.closed && t !in w.partner && t' !in w.partner
    requires PairKey(w.owner[t], w.owner[t']) !in w.pairs
    ensures Laws(WithPairing(w, t, t'), {})
  {
    hide Laws, LawsAt, Frame, PairEntryLaw;
    var w' := WithPairing(w, t, t');
    LawsGive(w, {});
    WithPairingFrame(w, t, t');
    forall y
      ensures LawsAt(w', {}, y)
    {
      WithPairingAt(w, t, t', y);
    }
    forall k
      ensures PairEntryLaw(w', {}, k)
    {
      WithPairingEntry(w, t, t', k);
    }
    LawsFromAt(w', {});
  }
}
