/**
 * The request/response protocol of mediasoup/channel.go: wrapping request ids,
 * the table of pending requests, responses, timeouts and closing, as atomic
 * steps. A request is named by its serial number, which stands for its
 * response channel.
 */
module Channel {

  const MAX_ID := 4294967295

  /** The id the k-th request is given. */
  function IdOf(serial: int): (id: int)
    ensures 1 <= id <= MAX_ID
  {
    (serial - 1) % MAX_ID + 1
  }

  datatype Kind = Accepted | Rejected | TimedOut | ChannelClosed | TooBig | WriteFailed

  /** What a call of Request returned, with the id of the message that caused it. */
  datatype Outcome = Outcome(serial: nat, id: int, kind: Kind)

  datatype Send = Sent | Refused(kind: Kind)

  datatype Reply = Accept | Error | Neither

  datatype Event =
    | Issue(send: Send)
    | Message(id: int, reply: Reply)
    | Timeout(serial: nat)
    | SeeClosed(serial: nat)
    | Close
    | ReadFails

  datatype State = State(
    nextId: int,
    sents: map<int, nat>,
    closed: bool,
    signalled: bool,
    issued: nat,
    waiting: set<nat>,
    outcomes: seq<Outcome>)

  const INITIAL := State(0, map[], false, false, 0, {}, [])

  function NextId(nextId: int): int {
    if nextId < MAX_ID then nextId + 1 else 1
  }

  /** A waiting request returns: its deferred delete clears the entry under its id, whoever holds it by now. */
  function Finish(s: State, serial: nat, id: int, kind: Kind): State {
    s.(sents := s.sents - {id}, waiting := s.waiting - {serial}, outcomes := s.outcomes + [Outcome(serial, id, kind)])
  }

  function Apply(s: State, e: Event): State {
    match e
    case Issue(send) =>
      var id, serial := NextId(s.nextId), s.issued + 1;
      var s1 := s.(nextId := id, issued := serial);
      if s.closed then s1.(outcomes := s.outcomes + [Outcome(serial, id, ChannelClosed)])
      else if send.Refused? then Finish(s1, serial, id, send.kind)
      else s1.(sents := s.sents[id := serial], waiting := s.waiting + {serial})
    case Message(id, reply) =>
      if id <= 0 || id !in s.sents || reply.Neither? then s
      else Finish(s, s.sents[id], id, if reply.Accept? then Accepted else Rejected)
    case Timeout(serial) =>
      if serial in s.waiting then Finish(s, serial, IdOf(serial), TimedOut) else s
    case SeeClosed(serial) =>
      if serial in s.waiting && s.signalled then Finish(s, serial, IdOf(serial), ChannelClosed) else s
    case Close =>
      s.(closed := true)
    case ReadFails =>
      s.(closed := true, signalled := true)
  }

  function Run(events: seq<Event>): State {
    if events == [] then INITIAL else Apply(Run(events[..|events| - 1]), events[|events| - 1])
  }

  // ---------------------------------------------------------------- the channel object

  class Connection {
    var nextId: int
    var sents: map<int, nat>
    var closed: bool
    var signalled: bool
    ghost var issued: nat
    ghost var waiting: set<nat>
    ghost var outcomes: seq<Outcome>

    ghost function View(): State
      reads this
    {
      State(nextId, sents, closed, signalled, issued, waiting, outcomes)
    }

    constructor ()
      ensures View() == INITIAL
    {
      nextId, sents, closed, signalled := 0, map[], false, false;
      issued, waiting, outcomes := 0, {}, [];
    }

    /** The deferred delete and the return of a request. */
    method Return(ghost serial: nat, id: int, ghost kind: Kind)
      modifies this
      ensures View() == Finish(old(View()), serial, id, kind)
    {
      sents := sents - {id};
      waiting, outcomes := waiting - {serial}, outcomes + [Outcome(serial, id, kind)];
    }

    /** Request up to its select: allocate an id, register, and try to send. */
    method StartRequest(send: Send, serial: nat) returns (id: int, pending: bool)
      requires serial == issued + 1
      modifies this
      ensures View() == Apply(old(View()), Issue(send))
      ensures id == nextId && (pending <==> !old(closed) && send.Sent?)
    {
      if nextId < MAX_ID {
        nextId := nextId + 1;
      } else {
        nextId := 1;
      }
      id, pending := nextId, false;
      issued := serial;
      if closed {
        outcomes := outcomes + [Outcome(serial, id, ChannelClosed)];
        return;
      }
      ghost var before := sents;
      sents := sents[id := serial];
      if send.Refused? {
        assert sents - {id} == before - {id};
        Return(serial, id, send.kind);
        return;
      }
      waiting := waiting + {serial};
      pending := true;
    }

    /** processMessage on a response. */
    method ProcessResponse(id: int, reply: Reply)
      modifies this
      ensures View() == Apply(old(View()), Message(id, reply))
    {
      if id <= 0 || id !in sents {
        return;
      }
      if reply.Accept? {
        Return(sents[id], id, Accepted);
      } else if reply.Error? {
        Return(sents[id], id, Rejected);
      }
    }

    /** The two other ways out of the select of a waiting request. */
    method GiveUp(serial: nat, timedOut: bool)
      requires serial in waiting && (timedOut || signalled)
      modifies this
      ensures View() == Apply(old(View()), if timedOut then Timeout(serial) else SeeClosed(serial))
    {
      if timedOut {
        Return(serial, IdOf(serial), TimedOut);
      } else {
        Return(serial, IdOf(serial), ChannelClosed);
      }
    }

    method CloseSocket(readFailed: bool)
      modifies this
      ensures View() == Apply(old(View()), if readFailed then ReadFails else Close)
    {
      closed := true;
      if readFailed {
        signalled := true;
      }
    }
  }

  // ---------------------------------------------------------------- every run

  ghost predicate HasOutcome(s: State, serial: nat) {
    exists i :: 0 <= i < |s.outcomes| && s.outcomes[i].serial == serial
  }

  /** What every run keeps: ids, and the account of every request ever issued. */
  ghost predicate Inv(s: State) {
    && s.nextId == (if s.issued == 0 then 0 else IdOf(s.issued))
    && (forall k :: k in s.waiting ==> 1 <= k <= s.issued)
    && (forall id :: id in s.sents ==> s.sents[id] in s.waiting && IdOf(s.sents[id]) == id)
    && (forall i :: 0 <= i < |s.outcomes| ==>
          && 1 <= s.outcomes[i].serial <= s.issued
          && s.outcomes[i].id == IdOf(s.outcomes[i].serial)
          && s.outcomes[i].serial !in s.waiting)
    && (forall i, j :: 0 <= i < j < |s.outcomes| ==> s.outcomes[i].serial != s.outcomes[j].serial)
    && (forall k: nat :: 1 <= k <= s.issued && k !in s.waiting ==> HasOutcome(s, k))
  }

  lemma NextIdIsIdOf(issued: nat)
    ensures NextId(if issued == 0 then 0 else IdOf(issued)) == IdOf(issued + 1)
  {
  }

  lemma OutcomesGrow(s: State, s': State, o: Outcome, k: nat)
    requires s'.outcomes == s.outcomes + [o]
    ensures HasOutcome(s', k) <==> HasOutcome(s, k) || o.serial == k
  {
    if HasOutcome(s, k) {
      var i :| 0 <= i < |s.outcomes| && s.outcomes[i].serial == k;
      assert s'.outcomes[i].serial == k;
    }
    if o.serial == k {
      assert s'.outcomes[|s.outcomes|].serial == k;
    }
  }

  lemma FinishKeepsInv(s: State, serial: nat, kind: Kind)
    requires Inv(s) && serial in s.waiting
    ensures Inv(Finish(s, serial, IdOf(serial), kind))
  {
    var s' := Finish(s, serial, IdOf(serial), kind);
    forall k: nat | 1 <= k <= s'.issued && k !in s'.waiting
      ensures HasOutcome(s', k)
    {
      OutcomesGrow(s, s', Outcome(serial, IdOf(serial), kind), k);
    }
  }

  /** A request that fails before it waits gets its outcome at once. */
  lemma ImmediateKeepsInv(s: State, sents: map<int, nat>, kind: Kind)
    requires Inv(s)
    requires forall id :: id in sents ==> id in s.sents && sents[id] == s.sents[id]
    ensures var serial := s.issued + 1;
            Inv(s.(nextId := NextId(s.nextId), issued := serial, sents := sents,
                   outcomes := s.outcomes + [Outcome(serial, NextId(s.nextId), kind)]))
  {
    NextIdIsIdOf(s.issued);
    var serial := s.issued + 1;
    var o := Outcome(serial, NextId(s.nextId), kind);
    var s' := s.(nextId := NextId(s.nextId), issued := serial, sents := sents, outcomes := s.outcomes + [o]);
    forall k: nat | 1 <= k <= s'.issued && k !in s'.waiting
      ensures HasOutcome(s', k)
    {
      OutcomesGrow(s, s', o, k);
    }
  }

  lemma SentKeepsInv(s: State)
    requires Inv(s) && !s.closed
    ensures Inv(Apply(s, Issue(Sent)))
  {
    NextIdIsIdOf(s.issued);
    var s' := Apply(s, Issue(Sent));
    forall k: nat | 1 <= k <= s'.issued && k !in s'.waiting
      ensures HasOutcome(s', k)
    {
      assert k != s'.issued && HasOutcome(s, k);
      var i :| 0 <= i < |s.outcomes| && s.outcomes[i].serial == k;
      assert s'.outcomes[i].serial == k;
    }
  }

  lemma ApplyKeepsInv(s: State, e: Event)
    requires Inv(s)
    ensures Inv(Apply(s, e))
  {
    hide Inv, HasOutcome;
    match e
    case Issue(send) =>
      if s.closed {
        ImmediateKeepsInv(s, s.sents, ChannelClosed);
      } else if send.Refused? {
        ImmediateKeepsInv(s, s.sents - {NextId(s.nextId)}, send.kind);
        NewIsNotWaiting(s);
      } else {
        SentKeepsInv(s);
      }
    case Message(id, reply) =>
      if id in s.sents {
        SentIsWaiting(s, id);
        FinishKeepsInv(s, s.sents[id], if reply.Accept? then Accepted else Rejected);
      }
    case Timeout(serial) =>
      if serial in s.waiting {
        FinishKeepsInv(s, serial, TimedOut);
      }
    case SeeClosed(serial) =>
      if serial in s.waiting {
        FinishKeepsInv(s, serial, ChannelClosed);
      }
    case Close =>
      FlagsKeepInv(s, Apply(s, e));
    case ReadFails =>
      FlagsKeepInv(s, Apply(s, e));
  }

  lemma NewIsNotWaiting(s: State)
    requires Inv(s)
    ensures s.waiting - {s.issued + 1} == s.waiting
  {
  }

  lemma SentIsWaiting(s: State, id: int)
    requires Inv(s) && id in s.sents
    ensures s.sents[id] in s.waiting && IdOf(s.sents[id]) == id
  {
  }

  lemma FlagsKeepInv(s: State, s': State)
    requires Inv(s) && s' == s.(closed := s'.closed, signalled := s'.signalled)
    ensures Inv(s')
  {
    assert forall k: nat :: HasOutcome(s, k) ==> HasOutcome(s', k);
  }

  /**
   * Over every run: the k-th request has id ((k-1) mod 4294967295)+1, and each
   * request issued is either still waiting or has exactly one outcome, which
   * carries its own id.
   */
  lemma {:induction false} EveryRun(events: seq<Event>)
    ensures Inv(Run(events))
  {
    if events != [] {
      EveryRun(events[..|events| - 1]);
      ApplyKeepsInv(Run(events[..|events| - 1]), events[|events| - 1]);
    }
  }

  // ---------------------------------------------------------------- matching

  /** Every waiting request can still be reached through its id. */
  ghost predicate Matched(s: State) {
    forall k :: k in s.waiting ==> IdOf(k) in s.sents && s.sents[IdOf(k)] == k
  }

  /** The next request would take the id of one that is still waiting. */
  ghost predicate Collides(s: State, e: Event) {
    e.Issue? && !s.closed && exists k :: k in s.waiting && IdOf(k) == IdOf(s.issued + 1)
  }

  /** Ids coincide exactly when the serial numbers are a multiple of 4294967295 apart. */
  lemma SameIdIff(j: int, k: int)
    ensures IdOf(j) == IdOf(k) <==> (k - j) % MAX_ID == 0
  {
  }

  /** A step keeps every waiting request reachable exactly when it does not reuse the id of a waiting one. */
  lemma MatchedKeptIff(s: State, e: Event)
    requires Inv(s) && Matched(s)
    ensures Matched(Apply(s, e)) <==> !Collides(s, e)
  {
    NextIdIsIdOf(s.issued);
    var s' := Apply(s, e);
    match e
    case Issue(send) =>
      if Collides(s, e) {
        var k :| k in s.waiting && IdOf(k) == IdOf(s.issued + 1);
        assert k in s'.waiting && (IdOf(k) !in s'.sents || s'.sents[IdOf(k)] != k);
      } else if !s.closed {
        assert forall k :: k in s.waiting ==> IdOf(k) != IdOf(s.issued + 1);
      }
    case _ =>
  }

  /** No step of the run reuses the id of a waiting request. */
  ghost predicate CollisionFree(events: seq<Event>) {
    forall n :: 0 <= n < |events| ==> !Collides(Run(events[..n]), events[n])
  }

  lemma {:induction false} CollisionFreeIsMatched(events: seq<Event>)
    requires CollisionFree(events)
    ensures Matched(Run(events))
  {
    if events != [] {
      var n := |events| - 1;
      var before := events[..n];
      forall m | 0 <= m < |before|
        ensures !Collides(Run(before[..m]), before[m])
      {
        assert before[..m] == events[..m];
      }
      CollisionFreeIsMatched(before);
      EveryRun(before);
      MatchedKeptIff(Run(before), events[n]);
    }
  }

  /** Requests that wait for fewer than 4294967295 others never collide. */
  lemma RecentNeverCollides(s: State, e: Event)
    requires Inv(s)
    requires forall k :: k in s.waiting ==> s.issued + 1 - k < MAX_ID
    ensures !Collides(s, e)
  {
    forall k | k in s.waiting
      ensures IdOf(k) != IdOf(s.issued + 1)
    {
      SameIdIff(k, s.issued + 1);
    }
  }

  /** The oldest request still within reach of a collision: 4294967295 requests ago. */
  lemma CollidesAtWrap(s: State, k: nat)
    requires Inv(s) && !s.closed && k in s.waiting && s.issued + 1 - k == MAX_ID
    ensures Collides(s, Issue(Sent))
  {
    SameIdIff(k, s.issued + 1);
  }

  /** In a collision-free run a response to a waiting request ends that request, and no other. */
  lemma ResponseReachesItsRequest(events: seq<Event>, serial: nat, reply: Reply)
    requires CollisionFree(events) && serial in Run(events).waiting && !reply.Neither?
    ensures var s, s' := Run(events), Run(events + [Message(IdOf(serial), reply)]);
            && s'.waiting == s.waiting - {serial}
            && s'.outcomes == s.outcomes + [Outcome(serial, IdOf(serial), if reply.Accept? then Accepted else Rejected)]
  {
    CollisionFreeIsMatched(events);
    var longer := events + [Message(IdOf(serial), reply)];
    assert longer[..|events|] == events;
  }

  /** In every run a response whose id no waiting request has changes nothing. */
  lemma StrayResponseIsIgnored(events: seq<Event>, id: int, reply: Reply)
    requires forall k :: k in Run(events).waiting ==> IdOf(k) != id
    ensures Run(events + [Message(id, reply)]) == Run(events)
  {
    EveryRun(events);
    var longer := events + [Message(id, reply)];
    assert longer[..|events|] == events;
  }

  // ---------------------------------------------------------------- how requests end

  /** Some step so far has closed the channel, or failed to read from it. */
  ghost predicate HasClosed(events: seq<Event>) {
    exists i :: 0 <= i < |events| && (events[i].Close? || events[i].ReadFails?)
  }

  ghost predicate HasSignalled(events: seq<Event>) {
    exists i :: 0 <= i < |events| && events[i].ReadFails?
  }

  /** The flag is set exactly by closing, and waiting requests are signalled exactly by a failed read. */
  lemma {:induction false} ClosedIff(events: seq<Event>)
    ensures Run(events).closed <==> HasClosed(events)
    ensures Run(events).signalled <==> HasSignalled(events)
  {
    if events != [] {
      var n := |events| - 1;
      var before := events[..n];
      ClosedIff(before);
      assert forall i :: 0 <= i < n ==> before[i] == events[i];
    }
  }

  /** What one more step does to a run. */
  lemma RunSnoc(events: seq<Event>, e: Event)
    ensures Run(events + [e]) == Apply(Run(events), e)
  {
    assert (events + [e])[..|events|] == events;
  }

  /** A request after closing ends at once as closed; one that cannot be sent ends at once with that reason. */
  lemma ImmediateOutcome(events: seq<Event>, send: Send)
    requires HasClosed(events) || send.Refused?
    ensures var s, s' := Run(events), Run(events + [Issue(send)]);
            && s'.issued == s.issued + 1 && s'.waiting == s.waiting
            && s'.outcomes == s.outcomes + [Outcome(
                 s'.issued, IdOf(s'.issued), if HasClosed(events) then ChannelClosed else send.kind)]
  {
    EveryRun(events);
    ClosedIff(events);
    RunSnoc(events, Issue(send));
    NextIdIsIdOf(Run(events).issued);
    assert Run(events).waiting - {Run(events).issued + 1} == Run(events).waiting;
  }

  /** Any other request waits, under the next id. */
  lemma SentWaits(events: seq<Event>)
    requires !HasClosed(events)
    ensures var s, s' := Run(events), Run(events + [Issue(Sent)]);
            && s'.issued == s.issued + 1 && s'.waiting == s.waiting + {s'.issued} && s'.outcomes == s.outcomes
            && IdOf(s'.issued) in s'.sents && s'.sents[IdOf(s'.issued)] == s'.issued
  {
    EveryRun(events);
    ClosedIff(events);
    RunSnoc(events, Issue(Sent));
    NextIdIsIdOf(Run(events).issued);
  }

  /** A waiting request that times out ends as timed out; one that sees the signal of a failed read, as closed. */
  lemma GivingUpEnds(events: seq<Event>, serial: nat, timedOut: bool)
    requires serial in Run(events).waiting && (timedOut || HasSignalled(events))
    ensures var s, s' := Run(events), Run(events + [if timedOut then Timeout(serial) else SeeClosed(serial)]);
            && s'.waiting == s.waiting - {serial}
            && s'.outcomes == s.outcomes + [Outcome(serial, IdOf(serial), if timedOut then TimedOut else ChannelClosed)]
            && IdOf(serial) !in s'.sents
  {
    ClosedIff(events);
    RunSnoc(events, if timedOut then Timeout(serial) else SeeClosed(serial));
  }
}
