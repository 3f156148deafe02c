/** The 12-byte big-endian record counter of `relay/src/enc.rs`. */
module Nonce {
  import opened Bytes

  type Counter = n: bytes | |n| == 12 witness [0, 0, 0, 0, 0, 0, 0, 0, 0, 0, 0, 0]

  const ZERO: Counter := [0, 0, 0, 0, 0, 0, 0, 0, 0, 0, 0, 0]

  const NONCE_SPACE: nat := 0x1_0000_0000_0000_0000_0000_0000

  function Pow256(n: nat): (p: nat)
    ensures p > 0
  {
    if n == 0 then 1 else 256 * Pow256(n - 1)
  }

  /** The number a big-endian string denotes. */
  function Value(n: bytes): nat {
    if |n| == 0 then 0 else Value(n[..|n| - 1]) * 256 + n[|n| - 1]
  }

  /** The big-endian successor: carry from the last byte, wrapping at the end. */
  function Successor(n: bytes): (r: bytes)
    ensures |r| == |n|
  {
    if |n| == 0 then []
    else
      var last := |n| - 1;
      if n[last] < 255 then n[..last] + [n[last] + 1] else Successor(n[..last]) + [0]
  }

  lemma {:induction false} ValueBound(n: bytes)
    ensures Value(n) < Pow256(|n|)
  {
    if |n| > 0 {
      ValueBound(n[..|n| - 1]);
    }
  }

  lemma {:induction false} SuccessorValue(n: bytes)
    ensures Value(Successor(n)) == if Value(n) + 1 == Pow256(|n|) then 0 else Value(n) + 1
  {
    if |n| > 0 {
      var last := |n| - 1;
      ValueBound(n[..last]);
      if n[last] < 255 {
        assert (n[..last] + [n[last] + 1])[..last] == n[..last];
      } else {
        SuccessorValue(n[..last]);
        assert (Successor(n[..last]) + [0])[..last] == Successor(n[..last]);
      }
    }
  }

  /** The carry in one step: trailing 255s become zeros and the byte before them grows. */
  lemma {:induction false} SuccessorShape(n: bytes, m: nat)
    requires m < |n| && n[m] < 255
    requires forall k :: m < k < |n| ==> n[k] == 255
    ensures Successor(n) == n[..m] + [n[m] + 1] + Zeros(|n| - 1 - m)
  {
    var last := |n| - 1;
    if m < last {
      var front := n[..last];
      SuccessorShape(front, m);
      assert front[..m] == n[..m];
      assert Successor(n) == n[..m] + [n[m] + 1] + Zeros(last - 1 - m) + [0];
    }
  }

  lemma {:induction false} SuccessorWraps(n: bytes)
    requires forall k :: 0 <= k < |n| ==> n[k] == 255
    ensures Successor(n) == Zeros(|n|)
  {
    if |n| > 0 {
      SuccessorWraps(n[..|n| - 1]);
    }
  }

  /** `increase_nonce`: one loop from the last byte, stopping where no carry is left. */
  method IncreaseNonce(n: array<byte>)
    requires n.Length == 12
    modifies n
    ensures n[..] == Successor(old(n[..]))
  {
    ghost var start := n[..];
    var i := 0;
    while i < 12
      invariant 0 <= i <= 12
      invariant forall k :: 0 <= k < 12 - i ==> n[k] == start[k]
      invariant forall k :: 12 - i <= k < 12 ==> n[k] == 0 && start[k] == 255
    {
      var idx := 11 - i;
      n[idx] := (n[idx] as int + 1) % 256;
      if n[idx] != 0 {
        SuccessorShape(start, idx);
        assert n[..] == start[..idx] + [start[idx] + 1] + Zeros(11 - idx);
        return;
      }
      i := i + 1;
    }
    SuccessorWraps(start);
    assert n[..] == Zeros(12);
  }

  /** The counter after `i` increments from zero: the i-th nonce of a direction. */
  function NonceAt(i: nat): Counter {
    if i == 0 then ZERO else Successor(NonceAt(i - 1))
  }

  lemma ZeroValue()
    ensures Value(ZERO) == 0
  {
    ZeroPrefix(12);
    assert Zeros(12) == ZERO;
  }

  lemma {:induction false} ZeroPrefix(n: nat)
    ensures Value(Zeros(n)) == 0
  {
    if n > 0 {
      assert Zeros(n)[..n - 1] == Zeros(n - 1);
      ZeroPrefix(n - 1);
    }
  }

  lemma Pow256Is96Bits()
    ensures Pow256(12) == NONCE_SPACE
  {
    assert Pow256(3) == 0x100_0000;
    assert Pow256(6) == 0x1_0000_0000_0000;
    assert Pow256(9) == 0x100_0000_0000_0000_0000;
  }

  /** The i-th nonce is the big-endian number i, as long as 96 bits hold it. */
  lemma {:induction false} NonceAtValue(i: nat)
    requires i < NONCE_SPACE
    ensures Value(NonceAt(i)) == i
  {
    if i == 0 {
      ZeroValue();
    } else {
      NonceAtValue(i - 1);
      Pow256Is96Bits();
      SuccessorValue(NonceAt(i - 1));
    }
  }

  /** No nonce repeats before the 96-bit counter wraps. */
  lemma NoncesDistinct(i: nat, j: nat)
    requires i < NONCE_SPACE && j < NONCE_SPACE && i != j
    ensures NonceAt(i) != NonceAt(j)
  {
    NonceAtValue(i);
    NonceAtValue(j);
  }

  /** `next_nonce` on a counter held by value, as the structs of the relay hold it. */
  method NextNonce(n: Counter) returns (r: Counter)
    ensures r == Successor(n)
  {
    var a := new byte[12](i requires 0 <= i < |n| => n[i]);
    assert a[..] == n;
    IncreaseNonce(a);
    r := a[..];
  }

  /** The first `n` nonces of a direction, in order. */
  function Nonces(n: nat): (s: seq<Counter>)
    ensures |s| == n
    ensures forall i :: 0 <= i < n ==> s[i] == NonceAt(i + 1)
  {
    if n == 0 then [] else Nonces(n - 1) + [NonceAt(n)]
  }

  lemma ListedDistinct(n: nat, i: nat, j: nat)
    requires i < j < n && j < NONCE_SPACE - 1
    ensures Nonces(n)[i] != Nonces(n)[j]
  {
    NoncesDistinct(i + 1, j + 1);
  }
}
