/** Bytes as bounded integers, with the bit operations the profile matcher uses. */
module Bytes {

  type byte = x: int | 0 <= x < 256

  function Pow2(k: nat): (p: nat)
    ensures p >= 1
  {
    if k == 0 then 1 else 2 * Pow2(k - 1)
  }

  /** a & b */
  function And(a: nat, b: nat): nat
    decreases a
  {
    if a == 0 then 0
    else 2 * And(a / 2, b / 2) + (if a % 2 == 1 && b % 2 == 1 then 1 else 0)
  }

  /** a | b */
  function Or(a: nat, b: nat): nat
    decreases a + b
  {
    if a == 0 && b == 0 then 0
    else 2 * Or(a / 2, b / 2) + (if a % 2 == 1 || b % 2 == 1 then 1 else 0)
  }

  /** Bit `k` of `v`, counted from the least significant one. */
  predicate BitAt(v: nat, k: nat) {
    if k == 0 then v % 2 == 1 else BitAt(v / 2, k - 1)
  }

  /** The number with the given bits, most significant first. */
  function FromBits(bits: seq<bool>): nat {
    if bits == [] then 0
    else 2 * FromBits(bits[..|bits| - 1]) + (if bits[|bits| - 1] then 1 else 0)
  }

  /** The low `n` bits of `v`, most significant first. */
  function ToBits(v: nat, n: nat): (bits: seq<bool>)
    ensures |bits| == n
  {
    if n == 0 then [] else ToBits(v / 2, n - 1) + [v % 2 == 1]
  }

  lemma {:induction false} FromToBits(v: nat, n: nat)
    requires v < Pow2(n)
    ensures FromBits(ToBits(v, n)) == v
  {
    if n > 0 {
      FromToBits(v / 2, n - 1);
      assert ToBits(v, n)[..n - 1] == ToBits(v / 2, n - 1);
    }
  }

  lemma {:induction false} ToBitsAt(v: nat, n: nat, i: nat)
    requires i < n
    ensures ToBits(v, n)[i] == BitAt(v, n - 1 - i)
  {
    if i < n - 1 {
      ToBitsAt(v / 2, n - 1, i);
    }
  }

  lemma {:induction false} FromBitsBound(bits: seq<bool>)
    ensures FromBits(bits) < Pow2(|bits|)
  {
    if bits != [] {
      FromBitsBound(bits[..|bits| - 1]);
    }
  }

  lemma {:induction false} FromBitsInjective(x: seq<bool>, y: seq<bool>)
    requires |x| == |y| && FromBits(x) == FromBits(y)
    ensures x == y
  {
    if x != [] {
      var n := |x| - 1;
      FromBitsInjective(x[..n], y[..n]);
      assert x == x[..n] + [x[n]] && y == y[..n] + [y[n]];
    }
  }

  function AndBits(x: seq<bool>, y: seq<bool>): (z: seq<bool>)
    requires |x| == |y|
    ensures |z| == |x|
  {
    seq(|x|, i requires 0 <= i < |x| => x[i] && y[i])
  }

  function NotBits(x: seq<bool>): (z: seq<bool>)
    ensures |z| == |x|
  {
    seq(|x|, i requires 0 <= i < |x| => !x[i])
  }

  lemma {:induction false} AndOfFromBits(x: seq<bool>, y: seq<bool>)
    requires |x| == |y|
    ensures And(FromBits(x), FromBits(y)) == FromBits(AndBits(x, y))
  {
    if x != [] {
      var n := |x| - 1;
      AndOfFromBits(x[..n], y[..n]);
      assert AndBits(x, y)[..n] == AndBits(x[..n], y[..n]);
      if FromBits(x) == 0 {
        assert FromBits(x[..n]) == 0 && !x[n];
      }
    }
  }

  lemma {:induction false} ComplementOfFromBits(x: seq<bool>)
    ensures Pow2(|x|) - 1 - FromBits(x) == FromBits(NotBits(x))
  {
    if x != [] {
      var n := |x| - 1;
      ComplementOfFromBits(x[..n]);
      assert NotBits(x)[..n] == NotBits(x[..n]);
    }
  }

  /** Or-ing the single bit at position `i` into bits that do not have it sets exactly that bit. */
  lemma {:induction false} OrSingleBit(x: seq<bool>, i: nat)
    requires i < |x|
    ensures Or(FromBits(x), Pow2(|x| - 1 - i)) == FromBits(x[i := true])
  {
    var n := |x| - 1;
    if i == n {
      assert x[i := true][..n] == x[..n];
      OrZero(FromBits(x[..n]));
    } else {
      OrSingleBit(x[..n], i);
      assert x[i := true][..n] == x[..n][i := true];
    }
  }

  lemma {:induction false} OrZero(a: nat)
    ensures Or(a, 0) == a
  {
    if a > 0 {
      OrZero(a / 2);
    }
  }

  function Bit(b: bool): nat {
    if b then 1 else 0
  }

  lemma Halves(v: nat, v1: nat, v2: nat, v3: nat, v4: nat)
    requires v1 == v / 2 && v2 == v1 / 2 && v3 == v2 / 2 && v4 == v3 / 2
    ensures v == 16 * v4 + 8 * (v3 % 2) + 4 * (v2 % 2) + 2 * (v1 % 2) + v % 2
  {
    assert v == 2 * v1 + v % 2;
    assert v1 == 2 * v2 + v1 % 2;
    assert v2 == 2 * v3 + v2 % 2;
    assert v3 == 2 * v4 + v3 % 2;
  }

  lemma Remainder16(v: nat, q: nat, r: nat)
    requires v == 16 * q + r && r < 16
    ensures v % 16 == r
  {
  }

  lemma LowBits(v: nat)
    ensures Bit(BitAt(v, 0)) == v % 2 && Bit(BitAt(v, 1)) == v / 2 % 2
    ensures Bit(BitAt(v, 2)) == v / 2 / 2 % 2 && Bit(BitAt(v, 3)) == v / 2 / 2 / 2 % 2
  {
    assert BitAt(v, 1) == BitAt(v / 2, 0);
    assert BitAt(v, 2) == BitAt(v / 2, 1) == BitAt(v / 2 / 2, 0);
    assert BitAt(v, 3) == BitAt(v / 2, 2) == BitAt(v / 2 / 2, 1) == BitAt(v / 2 / 2 / 2, 0);
  }

  /** The low four bits of a number spell its remainder by 16. */
  lemma LowNibble(v: nat)
    ensures v % 16 == 8 * Bit(BitAt(v, 3)) + 4 * Bit(BitAt(v, 2)) + 2 * Bit(BitAt(v, 1)) + Bit(BitAt(v, 0))
  {
    hide BitAt, Bit;
    LowBits(v);
    var v1 := v / 2;
    var v2 := v1 / 2;
    var v3 := v2 / 2;
    var v4 := v3 / 2;
    Halves(v, v1, v2, v3, v4);
    Remainder16(v, v4, 8 * (v3 % 2) + 4 * (v2 % 2) + 2 * (v1 % 2) + v % 2);
  }

  /** The high four bits of a byte are the low four of its quotient by 16. */
  lemma HighNibble(v: byte)
    ensures v / 16 == 8 * Bit(BitAt(v, 7)) + 4 * Bit(BitAt(v, 6)) + 2 * Bit(BitAt(v, 5)) + Bit(BitAt(v, 4))
  {
    hide BitAt, Bit;
    LowNibble(v / 16);
    forall k: nat | k < 4
      ensures BitAt(v, k + 4) == BitAt(v / 16, k)
    {
      Shift4(v, k);
    }
  }

  lemma Shift4(v: nat, k: nat)
    ensures BitAt(v, k + 4) == BitAt(v / 16, k)
  {
    assert BitAt(v, k + 4) == BitAt(v / 2, k + 3) == BitAt(v / 2 / 2, k + 2) == BitAt(v / 2 / 2 / 2, k + 1);
    assert v / 2 / 2 / 2 / 2 == v / 16;
  }
}
