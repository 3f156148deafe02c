/** Bytes, byte strings and their concatenation: the vocabulary of every other module. */
module Bytes {

  type byte = x: int | 0 <= x < 256

  type bytes = seq<byte>

  type u16 = x: int | 0 <= x < 0x1_0000

  type u32 = x: int | 0 <= x < 0x1_0000_0000

  type Octets = ip: bytes | |ip| == 4 witness [0, 0, 0, 0]

  datatype Option<+T> = None | Some(value: T)

  predicate Distinct<T(==)>(s: seq<T>) {
    forall i, j :: 0 <= i < j < |s| ==> s[i] != s[j]
  }

  function Zeros(n: nat): (z: bytes)
    ensures |z| == n
    ensures forall k :: 0 <= k < n ==> z[k] == 0
  {
    seq(n, _ => 0)
  }

  lemma Assoc<T>(a: seq<T>, b: seq<T>, c: seq<T>)
    ensures (a + b) + c == a + (b + c)
  {
  }

  lemma Split<T>(s: seq<T>, n: nat)
    requires n <= |s|
    ensures s == s[..n] + s[n..]
  {
  }

  lemma HeadTail<T>(s: seq<T>)
    requires |s| > 0
    ensures s == [s[0]] + s[1..]
  {
  }

  lemma InitLast<T>(s: seq<T>)
    requires |s| > 0
    ensures s == s[..|s| - 1] + [s[|s| - 1]]
  {
  }

  lemma WholeTake<T>(s: seq<T>)
    ensures s[..|s|] == s
  {
  }

  lemma NilLeft<T>(s: seq<T>)
    ensures [] + s == s
  {
  }

  lemma NilRight<T>(s: seq<T>)
    ensures s + [] == s
  {
  }

  lemma PrefixSplit<T>(p: seq<T>, s: seq<T>)
    requires p <= s
    ensures s == p + s[|p|..] && s[..|p|] == p
  {
  }

  lemma SliceStable<T>(a: seq<T>, b: seq<T>, i: nat, j: nat)
    requires i <= j <= |a|
    ensures (a + b)[i..j] == a[i..j]
  {
  }

  lemma TailAppend<T>(a: seq<T>, b: seq<T>, n: nat)
    requires n <= |a|
    ensures (a + b)[n..] == a[n..] + b
  {
  }

  lemma MiddleSlice<T>(pre: seq<T>, mid: seq<T>, tail: seq<T>, i: nat, j: nat)
    requires i <= j <= |mid|
    ensures (pre + mid + tail)[|pre| + i..|pre| + j] == mid[i..j]
  {
  }

  /** The concatenation of a list of strings. It recurses on the last part, because
      every loop of the program appends at the end. */
  function Concat<T>(parts: seq<seq<T>>): seq<T> {
    if |parts| == 0 then [] else Concat(parts[..|parts| - 1]) + parts[|parts| - 1]
  }

  lemma ConcatSnoc<T>(parts: seq<seq<T>>, part: seq<T>)
    ensures Concat(parts + [part]) == Concat(parts) + part
  {
    assert (parts + [part])[..|parts|] == parts;
  }

  lemma {:induction false} ConcatAppend<T>(a: seq<seq<T>>, b: seq<seq<T>>)
    ensures Concat(a + b) == Concat(a) + Concat(b)
    decreases |b|
  {
    if |b| == 0 {
      assert a + b == a;
    } else {
      var b', last := b[..|b| - 1], b[|b| - 1];
      assert a + b == (a + b') + [last];
      ConcatSnoc(a + b', last);
      ConcatAppend(a, b');
      assert Concat(a) + (Concat(b') + last) == (Concat(a) + Concat(b')) + last;
    }
  }

  lemma ConcatCons<T>(part: seq<T>, rest: seq<seq<T>>)
    ensures Concat([part] + rest) == part + Concat(rest)
  {
    ConcatAppend([part], rest);
    assert [part][..0] == [];
    assert Concat([part]) == part;
  }

  lemma ConcatTake<T>(parts: seq<seq<T>>, n: nat)
    requires n < |parts|
    ensures Concat(parts[..n + 1]) == Concat(parts[..n]) + parts[n]
  {
    assert parts[..n + 1] == parts[..n] + [parts[n]];
    ConcatSnoc(parts[..n], parts[n]);
  }

  /** A prefix of a list of parts concatenates to a prefix of the whole. */
  lemma ConcatPrefix<T>(parts: seq<seq<T>>, n: nat)
    requires n <= |parts|
    ensures Concat(parts[..n]) <= Concat(parts)
  {
    assert parts == parts[..n] + parts[n..];
    ConcatAppend(parts[..n], parts[n..]);
  }
}
