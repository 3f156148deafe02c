/** `^` and `|` on bytes, written out bit by bit. */
module Bits {
  import opened Bytes

  function Pow2(n: nat): nat {
    if n == 0 then 1 else 2 * Pow2(n - 1)
  }

  function XorNat(a: nat, b: nat): nat
    decreases a + b
  {
    if a == 0 && b == 0 then 0 else (a % 2 + b % 2) % 2 + 2 * XorNat(a / 2, b / 2)
  }

  function OrNat(a: nat, b: nat): nat
    decreases a + b
  {
    if a == 0 && b == 0 then 0 else (if a % 2 + b % 2 > 0 then 1 else 0) + 2 * OrNat(a / 2, b / 2)
  }

  lemma {:induction false} XorBound(a: nat, b: nat, n: nat)
    requires a < Pow2(n) && b < Pow2(n)
    ensures XorNat(a, b) < Pow2(n)
  {
    if n > 0 {
      XorBound(a / 2, b / 2, n - 1);
    }
  }

  lemma {:induction false} OrBound(a: nat, b: nat, n: nat)
    requires a < Pow2(n) && b < Pow2(n)
    ensures OrNat(a, b) < Pow2(n)
  {
    if n > 0 {
      OrBound(a / 2, b / 2, n - 1);
    }
  }

  lemma {:induction false} XorNatZero(a: nat, b: nat)
    ensures XorNat(a, b) == 0 <==> a == b
    decreases a + b
  {
    if a > 0 || b > 0 {
      XorNatZero(a / 2, b / 2);
    }
  }

  lemma Halves(x: nat, bit: nat, rest: nat)
    requires bit < 2 && x == bit + 2 * rest
    ensures x % 2 == bit && x / 2 == rest
  {
  }

  lemma Parity(a: nat, b: nat)
    ensures ((a % 2 + b % 2) % 2 + b % 2) % 2 == a % 2
  {
  }

  lemma {:induction false} XorNatTwice(a: nat, b: nat)
    ensures XorNat(XorNat(a, b), b) == a
    decreases a + b
  {
    if a > 0 || b > 0 {
      var x, bit, rest := XorNat(a, b), (a % 2 + b % 2) % 2, XorNat(a / 2, b / 2);
      Halves(x, bit, rest);
      XorNatZero(a, b);
      XorNatTwice(a / 2, b / 2);
      Parity(a, b);
      assert XorNat(x, b) == (bit + b % 2) % 2 + 2 * XorNat(rest, b / 2);
    }
  }

  lemma {:induction false} OrNatZero(a: nat, b: nat)
    ensures OrNat(a, b) == 0 <==> a == 0 && b == 0
    decreases a + b
  {
    if a > 0 || b > 0 {
      OrNatZero(a / 2, b / 2);
    }
  }

  function Xor(a: byte, b: byte): byte {
    XorBound(a, b, 8);
    XorNat(a, b)
  }

  function Or(a: byte, b: byte): byte {
    OrBound(a, b, 8);
    OrNat(a, b)
  }

  lemma XorTwice(a: byte, b: byte)
    ensures Xor(Xor(a, b), b) == a
  {
    XorNatTwice(a, b);
  }

  /** The first `|a|` bytes of a keystream, applied. */
  function Xored(a: bytes, b: bytes): (c: bytes)
    requires |a| <= |b|
    ensures |c| == |a| && forall i :: 0 <= i < |a| ==> c[i] == Xor(a[i], b[i])
  {
    seq(|a|, i requires 0 <= i < |a| => Xor(a[i], b[i]))
  }

  lemma XoredTwice(a: bytes, b: bytes)
    requires |a| <= |b|
    ensures Xored(Xored(a, b), b) == a
  {
    forall i | 0 <= i < |a| ensures Xored(Xored(a, b), b)[i] == a[i] {
      XorTwice(a[i], b[i]);
    }
  }
}
