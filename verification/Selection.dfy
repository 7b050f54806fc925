/** Lists made by a loop that keeps some elements of another list, in order, and changes the ones it keeps. */
module Selection {

  /** The positions of the elements to keep: all of them, in increasing order. */
  function Positions<T>(s: seq<T>, keep: T -> bool): (at: seq<nat>)
    ensures forall i, j :: 0 <= i < j < |at| ==> at[i] < at[j]
    ensures forall p: nat :: p in at <==> p < |s| && keep(s[p])
  {
    if s == [] then []
    else
      var n := |s| - 1;
      var before := Positions(s[..n], keep);
      assert forall p: nat :: p < n ==> s[..n][p] == s[p];
      assert forall i :: 0 <= i < |before| ==> before[i] in before;
      if keep(s[n]) then before + [n] else before
  }

  /** `r` holds, in order, exactly the elements of `s` to keep, each as `make` changes it. */
  ghost predicate Selects<T(!new), U(!new)>(r: seq<U>, s: seq<T>, keep: T -> bool, make: T -> U) {
    var at := Positions(s, keep);
    && |r| == |at|
    && forall i :: 0 <= i < |at| ==> at[i] in at && r[i] == make(s[at[i]])
  }

  /** One more iteration of such a loop. */
  lemma SelectsOne<T(!new), U(!new)>(r: seq<U>, s: seq<T>, keep: T -> bool, make: T -> U)
    requires s != [] && Selects(r, s[..|s| - 1], keep, make)
    ensures var last := s[|s| - 1]; Selects(if keep(last) then r + [make(last)] else r, s, keep, make)
  {
    var n := |s| - 1;
    var before, at := Positions(s[..n], keep), Positions(s, keep);
    forall i | 0 <= i < |before|
      ensures at[i] == before[i] && s[before[i]] == s[..n][before[i]]
    {
      assert before[i] in before;
    }
  }

  /** Elements of the selection come from the list, and were to be kept. */
  lemma SelectedFrom<T(!new), U(!new)>(r: seq<U>, s: seq<T>, keep: T -> bool, make: T -> U, i: nat) returns (p: nat)
    requires Selects(r, s, keep, make) && i < |r|
    ensures p < |s| && keep(s[p]) && r[i] == make(s[p])
  {
    p := Positions(s, keep)[i];
    assert p in Positions(s, keep);
  }

  /** And everything that was to be kept is there. */
  lemma SelectedTo<T(!new), U(!new)>(r: seq<U>, s: seq<T>, keep: T -> bool, make: T -> U, p: nat) returns (i: nat)
    requires Selects(r, s, keep, make) && p < |s| && keep(s[p])
    ensures i < |r| && r[i] == make(s[p])
  {
    assert p in Positions(s, keep);
    i :| 0 <= i < |Positions(s, keep)| && Positions(s, keep)[i] == p;
  }
}
