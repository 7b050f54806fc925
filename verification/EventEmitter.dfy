/**
 * The listener list of one event (mediasoup/event_emitter.go). Removing a
 * listener compacts the slice in place, so an Emit that is iterating over the
 * same backing array sees the shift.
 */
module EventEmitter {
  import opened Wrappers

  /** A registered listener: its identity and whether it was added with Once. */
  datatype Listener = Listener(id: nat, once: bool)

  ghost predicate Distinct(list: seq<Listener>) {
    forall i, j :: 0 <= i < j < |list| ==> list[i].id != list[j].id
  }

  /** The first of the `n` leading slots that holds listener `id`. */
  function IndexOf(slots: seq<Listener>, n: nat, id: nat): (r: Option<nat>)
    requires n <= |slots|
    ensures r.Some? ==> r.value < n && slots[r.value].id == id && forall k :: 0 <= k < r.value ==> slots[k].id != id
    ensures r.None? ==> forall k :: 0 <= k < n ==> slots[k].id != id
  {
    if n == 0 then None
    else
      var r := IndexOf(slots, n - 1, id);
      if r.Some? then r else if slots[n - 1].id == id then Some(n - 1) else None
  }

  /**
   * The slots of a backing array and how many of them the list uses. The
   * remaining slots are stale but an older slice still reaches them.
   */
  datatype Backing = Backing(slots: seq<Listener>, count: nat)

  /** Slots after `i`, within the first `n`, moved one place to the left. */
  function Shifted(slots: seq<Listener>, i: nat, n: nat): (r: seq<Listener>)
    requires i < n <= |slots|
    ensures |r| == |slots|
  {
    slots[..i] + slots[i + 1..n] + slots[n - 1..]
  }

  lemma ShiftedAt(slots: seq<Listener>, i: nat, n: nat, j: nat)
    requires i < n <= |slots| && j < |slots|
    ensures Shifted(slots, i, n)[j] == if i <= j < n - 1 then slots[j + 1] else slots[j]
  {
  }

  /** RemoveListener: shift the later listeners left; the last used slot keeps its old value. */
  function Remove(b: Backing, id: nat): (r: Backing)
    requires b.count <= |b.slots|
    ensures |r.slots| == |b.slots| && r.count <= b.count
  {
    var idx := IndexOf(b.slots, b.count, id);
    if idx.None? then b
    else if b.count == 1 then b.(count := 0)
    else
      Backing(Shifted(b.slots, idx.value, b.count), b.count - 1)
  }

  datatype Emission = Emission(calls: seq<Listener>, after: Backing)

  /** The iterations of Emit from slot `i` on, over a slice that reaches every slot. */
  function EmitFrom(b: Backing, i: nat): (e: Emission)
    requires b.count <= |b.slots| && i <= |b.slots|
    ensures |e.calls| == |b.slots| - i && e.after.count <= |e.after.slots| == |b.slots|
    decreases |b.slots| - i
  {
    if i == |b.slots| then Emission([], b)
    else
      var l := b.slots[i];
      var rest := EmitFrom(if l.once then Remove(b, l.id) else b, i + 1);
      Emission([l] + rest.calls, rest.after)
  }

  /** Emitting to a list: all its slots are in use at the start. */
  function EmitTo(list: seq<Listener>): Emission {
    EmitFrom(Backing(list, |list|), 0)
  }

  function Calls(list: seq<Listener>): seq<Listener> {
    EmitTo(list).calls
  }

  /** The list that is left after an Emit. */
  function Left(list: seq<Listener>): seq<Listener> {
    EmitTo(list).after.slots[..EmitTo(list).after.count]
  }

  // ---------------------------------------------------------------- the list on its array

  class ListenerList {
    var items: array<Listener>
    var count: nat
    var capacity: nat

    ghost predicate Valid()
      reads this
    {
      count <= capacity <= items.Length
    }

    ghost function Listeners(): seq<Listener>
      requires Valid()
      reads this, items
    {
      items[..count]
    }

    constructor ()
      ensures Valid() && Listeners() == [] && fresh(items)
    {
      items, count, capacity := new Listener[0], 0, 0;
    }

    /**
     * AddListener, and Once, which marks the listener it has just appended.
     * Appending writes into a free slot of the array when there is one, and
     * otherwise moves to a larger array, with `spare` free slots.
     */
    method Add(id: nat, once: bool, spare: nat)
      requires Valid()
      modifies this, items
      ensures Valid() && Listeners() == old(Listeners()) + [Listener(id, once)]
      ensures if old(count) < old(capacity) then items == old(items) && capacity == old(capacity) else fresh(items)
      ensures forall k :: 0 <= k < old(items.Length) && k != old(count) ==> old(items)[k] == old(items[k])
    {
      var l := Listener(id, once);
      if count < capacity {
        items[count] := l;
        count := count + 1;
        return;
      }
      var grown := new Listener[count + 1 + spare](_ => l);
      for k := 0 to count
        invariant grown[..k] == items[..k]
        invariant forall j :: k <= j <= count ==> grown[j] == l
        modifies grown
      {
        grown[k] := items[k];
      }
      items, count, capacity := grown, count + 1, grown.Length;
    }

    /** Shifts the slots after `idx` one place to the left, in place; `reach` is the end of any slice in use. */
    method ShiftLeft(idx: nat, ghost reach: nat)
      requires Valid() && idx < count <= reach <= items.Length
      modifies items
      ensures items[..reach] == Shifted(old(items[..reach]), idx, count)
    {
      ghost var was := items[..reach];
      for k := idx to count - 1
        invariant forall j :: 0 <= j < idx ==> items[j] == was[j]
        invariant forall j :: idx <= j < k ==> items[j] == was[j + 1]
        invariant forall j :: k <= j < reach ==> items[j] == was[j]
      {
        items[k] := items[k + 1];
      }
      forall j | 0 <= j < reach
        ensures items[..reach][j] == Shifted(was, idx, count)[j]
      {
        ShiftedAt(was, idx, count, j);
      }
    }

    /** RemoveListener by identity; `reach` is how far any slice of the array in use extends. */
    method RemoveListener(id: nat, ghost reach: nat) returns (ok: bool)
      requires Valid() && count <= reach <= items.Length
      modifies this`count, this`capacity, items
      ensures Valid() && items == old(items)
      ensures Backing(items[..reach], count) == Remove(old(Backing(items[..reach], count)), id)
      ensures ok <==> exists k :: 0 <= k < old(count) && old(items[..])[k].id == id
    {
      ghost var was := items[..reach];
      for k := 0 to count
        invariant forall j :: 0 <= j < k ==> items[j].id != id
      {
        if items[k].id == id {
          assert old(items[..])[k].id == id;
          assert IndexOf(was, count, id) == Some(k);
          if count > 1 {
            ShiftLeft(k, reach);
            count := count - 1;
          } else {
            count, capacity := 0, 0;
          }
          return true;
        }
      }
      return false;
    }

    /**
     * Emit, with callbacks that leave the list alone. It ranges over the slice
     * it found at the start, reading each slot when its turn comes.
     */
    method Emit() returns (calls: seq<Listener>)
      requires Valid()
      modifies this`count, this`capacity, items
      ensures Valid() && items == old(items)
      ensures calls == Calls(old(Listeners())) && Listeners() == Left(old(Listeners()))
    {
      hide Remove, EmitFrom;
      calls := [];
      var n := count;
      ghost var start := Backing(items[..n], count);
      for i := 0 to n
        invariant Valid() && n <= items.Length && count <= n
        invariant Resumes(start, calls, Backing(items[..n], count), i)
      {
        var listener := items[i];
        EmitUnroll(start, calls, Backing(items[..n], count), i);
        calls := calls + [listener];
        if listener.once {
          var removed := RemoveListener(listener.id, n);
        }
      }
      EmitDone(start, calls, Backing(items[..n], count));
      assert items[..n][..count] == items[..count];
    }
  }

  /** Having made `calls`, the rest of the emission starts at slot `i` of `now`. */
  ghost predicate Resumes(start: Backing, calls: seq<Listener>, now: Backing, i: nat)
    requires start.count <= |start.slots| && now.count <= |now.slots| && i <= |now.slots|
  {
    var rest := EmitFrom(now, i);
    EmitFrom(start, 0) == Emission(calls + rest.calls, rest.after)
  }

  lemma EmitUnroll(start: Backing, calls: seq<Listener>, now: Backing, i: nat)
    requires start.count <= |start.slots| && now.count <= |now.slots| && i < |now.slots|
    requires Resumes(start, calls, now, i)
    ensures var l := now.slots[i];
            Resumes(start, calls + [l], if l.once then Remove(now, l.id) else now, i + 1)
  {
    hide Remove;
    var l := now.slots[i];
    var later := EmitFrom(if l.once then Remove(now, l.id) else now, i + 1);
    assert calls + ([l] + later.calls) == calls + [l] + later.calls;
  }

  lemma EmitDone(start: Backing, calls: seq<Listener>, now: Backing)
    requires start.count <= |start.slots| && now.count <= |now.slots|
    requires Resumes(start, calls, now, |now.slots|)
    ensures EmitFrom(start, 0) == Emission(calls, now)
  {
  }

  // ---------------------------------------------------------------- what Emit calls

  /** Slots without a Once listener are called in order. */
  lemma {:induction false} EmitPlain(b: Backing, i: nat, k: nat)
    requires b.count <= |b.slots| && i <= k <= |b.slots|
    requires forall j :: i <= j < k ==> !b.slots[j].once
    ensures EmitFrom(b, i) == Emission(b.slots[i..k] + EmitFrom(b, k).calls, EmitFrom(b, k).after)
    decreases k - i
  {
    hide Remove;
    if i < k {
      var rest := EmitFrom(b, i + 1);
      assert EmitFrom(b, i) == Emission([b.slots[i]] + rest.calls, rest.after);
      hide EmitFrom;
      EmitPlain(b, i + 1, k);
      assert b.slots[i..k] == [b.slots[i]] + b.slots[i + 1..k];
    } else {
      assert b.slots[i..k] == [];
    }
  }

  lemma RemoveAt(list: seq<Listener>, p: nat)
    requires Distinct(list) && p < |list| && |list| > 1
    ensures Remove(Backing(list, |list|), list[p].id) ==
            Backing(list[..p] + list[p + 1..] + [list[|list| - 1]], |list| - 1)
  {
    assert IndexOf(list, |list|, list[p].id) == Some(p);
    assert list[|list| - 1..] == [list[|list| - 1]];
    assert list[p + 1..|list|] == list[p + 1..];
    assert Shifted(list, p, |list|) == list[..p] + list[p + 1..] + [list[|list| - 1]];
  }

  /** What is left to call after the Once listener at slot `p` has been removed. */
  lemma AfterOnce(list: seq<Listener>, p: nat, b: Backing)
    requires p + 1 < |list| && forall j :: p < j < |list| ==> !list[j].once
    requires b == Backing(list[..p] + list[p + 1..] + [list[|list| - 1]], |list| - 1)
    ensures EmitFrom(b, p + 1) == Emission(list[p + 2..] + [list[|list| - 1]], b)
  {
    hide Remove;
    var n := |list|;
    assert b.slots[p + 1..n] == list[p + 2..] + [list[n - 1]];
    forall j | p + 1 <= j < n
      ensures !b.slots[j].once
    {
      assert b.slots[j] == if j < n - 1 then list[j + 1] else list[n - 1];
    }
    EmitPlain(b, p + 1, n);
    assert EmitFrom(b, n).calls == [];
  }

  /** After a Once listener at slot `p`, the next listener is skipped and the last one is called again. */
  lemma SingleOnce(list: seq<Listener>, p: nat)
    requires Distinct(list) && p + 1 < |list| && list[p].once
    requires forall j :: 0 <= j < |list| && j != p ==> !list[j].once
    ensures Calls(list) == list[..p + 1] + list[p + 2..] + [list[|list| - 1]]
    ensures Left(list) == list[..p] + list[p + 1..]
  {
    hide Remove;
    var n := |list|;
    var b := Backing(list, n);
    EmitPlain(b, 0, p);
    RemoveAt(list, p);
    var b' := Remove(b, list[p].id);
    AfterOnce(list, p, b');
    assert list[..p + 1] == list[..p] + [list[p]];
  }

  /** A listener that none of the slots to come holds is not called: slots only move to the left. */
  lemma {:induction false} NeverCalled(b: Backing, i: nat, l: Listener)
    requires b.count <= |b.slots| && i <= |b.slots| && l !in b.slots[i..]
    ensures l !in EmitFrom(b, i).calls
    decreases |b.slots| - i
  {
    if i < |b.slots| {
      var b' := if b.slots[i].once then Remove(b, b.slots[i].id) else b;
      forall j | i + 1 <= j < |b.slots|
        ensures b'.slots[j] != l
      {
        RemoveMovesLeft(b, b.slots[i].id, j);
        assert b.slots[j] in b.slots[i..];
        assert j + 1 < |b.slots| ==> b.slots[j + 1] in b.slots[i..];
      }
      NeverCalled(b', i + 1, l);
    }
  }

  lemma RemoveMovesLeft(b: Backing, id: nat, j: nat)
    requires b.count <= |b.slots| && j < |b.slots|
    ensures Remove(b, id).slots[j] == b.slots[j] || (j + 1 < |b.slots| && Remove(b, id).slots[j] == b.slots[j + 1])
  {
    var idx := IndexOf(b.slots, b.count, id);
    if idx.Some? {
      ShiftedAt(b.slots, idx.value, b.count, j);
    }
  }

  /** The first Once listener, before the last two slots, makes the next listener miss its call. */
  lemma EarlyOnceSkips(list: seq<Listener>, p: nat)
    requires Distinct(list) && p + 2 < |list| && list[p].once
    requires forall j :: 0 <= j < p ==> !list[j].once
    ensures list[p + 1] !in Calls(list)
  {
    hide Remove;
    var b := Backing(list, |list|);
    EmitPlain(b, 0, p);
    RemoveAt(list, p);
    var b' := Remove(b, list[p].id);
    forall j | p + 1 <= j < |list|
      ensures b'.slots[j] != list[p + 1]
    {
      assert b'.slots[j] == if j < |list| - 1 then list[j + 1] else list[|list| - 1];
    }
    NeverCalled(b', p + 1, list[p + 1]);
    assert Calls(list) == list[..p] + ([list[p]] + EmitFrom(b', p + 1).calls);
  }

  function Persistent(list: seq<Listener>): seq<Listener> {
    if list == [] then []
    else Persistent(list[..|list| - 1]) + if list[|list| - 1].once then [] else [list[|list| - 1]]
  }

  lemma {:induction false} PersistentAll(list: seq<Listener>)
    requires forall j :: 0 <= j < |list| ==> !list[j].once
    ensures Persistent(list) == list
  {
    if list != [] {
      PersistentAll(list[..|list| - 1]);
    }
  }

  /** Without Once listeners nothing is skipped and nothing removed. */
  lemma NoOnce(list: seq<Listener>)
    requires forall j :: 0 <= j < |list| ==> !list[j].once
    ensures Calls(list) == list && Left(list) == list
  {
    var b := Backing(list, |list|);
    EmitPlain(b, 0, |list|);
    assert list[0..|list|] == list;
    assert EmitFrom(b, |list|).calls == [];
  }

  /** A Once listener in the last slot only. */
  lemma LastOnce(list: seq<Listener>)
    requires Distinct(list) && list != [] && list[|list| - 1].once
    requires forall j :: 0 <= j < |list| - 1 ==> !list[j].once
    ensures Calls(list) == list
    ensures Left(list) == list[..|list| - 1]
  {
    var n := |list|;
    var b := Backing(list, n);
    EmitPlain(b, 0, n - 1);
    assert IndexOf(list, n, list[n - 1].id) == Some(n - 1);
    if n > 1 {
      RemoveAt(list, n - 1);
    }
    assert list == list[..n - 1] + [list[n - 1]];
  }

  /** Removing the listener that the shift has left in the last two slots. */
  lemma RemoveDoubled(head: seq<Listener>, l: Listener)
    requires Distinct(head + [l])
    ensures Remove(Backing(head + [l] + [l], |head| + 1), l.id) == Backing(head + [l] + [l], |head|)
  {
    var slots, n := head + [l] + [l], |head| + 1;
    forall k | 0 <= k < |head|
      ensures slots[k].id != l.id
    {
      assert slots[k] == (head + [l])[k] && (head + [l])[|head|] == l;
    }
    assert IndexOf(slots, n, l.id) == Some(|head|);
    if n > 1 {
      assert Shifted(slots, |head|, n) == slots;
    }
  }

  /** Once listeners in both of the last two slots. */
  lemma LastTwoOnce(head: seq<Listener>, l1: Listener, l2: Listener)
    requires Distinct(head + [l1, l2]) && l1.once && l2.once
    requires forall j :: 0 <= j < |head| ==> !head[j].once
    ensures Calls(head + [l1, l2]) == head + [l1, l2] && Left(head + [l1, l2]) == head
  {
    hide Remove;
    var list, n := head + [l1, l2], |head| + 2;
    var b := Backing(list, n);
    EmitPlain(b, 0, n - 2);
    assert list[0..n - 2] == head;
    RemoveAt(list, n - 2);
    var b' := Remove(b, l1.id);
    assert b'.slots == head + [l2] + [l2];
    assert Distinct(head + [l2]) by {
      assert forall k :: 0 <= k < |head| ==> list[k] == head[k];
      assert list[n - 1] == l2;
    }
    RemoveDoubled(head, l2);
    var b'' := Remove(b', l2.id);
    assert b''.slots[..b''.count] == head;
    assert EmitFrom(b'', n).calls == [];
    assert EmitFrom(b', n - 1).calls == [l2];
    assert EmitFrom(b, n - 2).calls == [l1, l2];
  }

  lemma SecondLastOnce(head: seq<Listener>, l1: Listener, l2: Listener)
    requires Distinct(head + [l1, l2]) && l1.once && !l2.once
    requires forall j :: 0 <= j < |head| ==> !head[j].once
    ensures Calls(head + [l1, l2]) == head + [l1, l2] && Left(head + [l1, l2]) == head + [l2]
  {
    hide Calls, Left;
    var list, p := head + [l1, l2], |head|;
    SingleOnce(list, p);
    assert list[..p + 1] + list[p + 2..] + [list[|list| - 1]] == list;
    assert list[..p] + list[p + 1..] == head + [l2];
  }

  /** Once listeners in the last two slots only: everybody is called, and exactly they are removed. */
  lemma LateOnce(list: seq<Listener>)
    requires Distinct(list) && forall j :: 0 <= j < |list| - 2 ==> !list[j].once
    ensures Calls(list) == list && Left(list) == Persistent(list)
  {
    hide Calls, Left, Persistent, EmitTo;
    var n := |list|;
    if n >= 2 && list[n - 2].once {
      var head, l1, l2 := list[..n - 2], list[n - 2], list[n - 1];
      assert list == head + [l1, l2];
      PersistentOfTwo(head, l1, l2);
      if l2.once {
        LastTwoOnce(head, l1, l2);
      } else {
        SecondLastOnce(head, l1, l2);
      }
    } else if n >= 1 && list[n - 1].once {
      LastOnce(list);
      PersistentAll(list[..n - 1]);
      PersistentOfLast(list);
    } else {
      NoOnce(list);
      PersistentAll(list);
    }
  }

  lemma PersistentOfLast(list: seq<Listener>)
    requires list != []
    ensures Persistent(list) ==
            Persistent(list[..|list| - 1]) + if list[|list| - 1].once then [] else [list[|list| - 1]]
  {
  }

  lemma PersistentOfTwo(head: seq<Listener>, l1: Listener, l2: Listener)
    requires l1.once && forall j :: 0 <= j < |head| ==> !head[j].once
    ensures Persistent(head + [l1, l2]) == if l2.once then head else head + [l2]
  {
    hide Persistent;
    var list, one := head + [l1, l2], head + [l1];
    assert list[..|list| - 1] == one && list[|list| - 1] == l2;
    assert one[..|one| - 1] == head && one[|one| - 1] == l1;
    PersistentAll(head);
    PersistentOfLast(one);
    assert Persistent(one) == head;
    PersistentOfLast(list);
  }

  /**
   * Every listener is called exactly once and in order exactly when no Once
   * listener precedes the last two slots; then exactly the Once listeners are
   * removed.
   */
  lemma CalledOnceInOrderIff(list: seq<Listener>)
    requires Distinct(list)
    ensures Calls(list) == list <==> forall j :: 0 <= j < |list| - 2 ==> !list[j].once
    ensures Calls(list) == list ==> Left(list) == Persistent(list)
  {
    hide Calls, Left, Persistent;
    if early :| 0 <= early < |list| - 2 && list[early].once {
      var p := FirstOnce(list, early);
      EarlyOnceSkips(list, p);
      assert list[p + 1] in list;
    } else {
      LateOnce(list);
    }
  }

  lemma {:induction false} FirstOnce(list: seq<Listener>, early: nat) returns (p: nat)
    requires early < |list| && list[early].once
    ensures p <= early && list[p].once && forall j :: 0 <= j < p ==> !list[j].once
  {
    if i :| 0 <= i < early && list[i].once {
      p := FirstOnce(list, i);
    } else {
      p := early;
    }
  }
}
