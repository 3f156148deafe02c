/** The decoded-UUID cache of `relay/src/vless.rs` against a list without a bound. */
module DecodeCache {
  import opened Bytes
  import UuidCodec
  import Vless

  type Uuid = UuidCodec.Uuid

  type Payload = Vless.Payload

  const CAP := 16

  // ---------------------------------------------------------------- recency without a bound

  function Without(s: seq<Uuid>, k: Uuid): (r: seq<Uuid>)
    ensures k !in r
    ensures k !in s ==> r == s
  {
    if |s| == 0 then []
    else if s[0] == k then Without(s[1..], k)
    else [s[0]] + Without(s[1..], k)
  }

  /** `k` moves, or comes, to the front. */
  function Touch(s: seq<Uuid>, k: Uuid): seq<Uuid> {
    [k] + Without(s, k)
  }

  /** The keys that decode, most recently asked for first, after the calls `h`. */
  function Recency(decode: Uuid -> Option<Payload>, h: seq<Uuid>): seq<Uuid> {
    if |h| == 0 then []
    else
      var before, k := Recency(decode, h[..|h| - 1]), h[|h| - 1];
      if decode(k).Some? then Touch(before, k) else before
  }

  /** Removing a key of a distinct list closes the gap it leaves. */
  lemma {:induction false} WithoutAt(s: seq<Uuid>, p: nat)
    requires Distinct(s) && p < |s|
    ensures Without(s, s[p]) == s[..p] + s[p + 1..]
  {
    if p == 0 {
      assert s[0] !in s[1..];
    } else {
      assert s[0] != s[p] && s[1..][p - 1] == s[p];
      WithoutAt(s[1..], p - 1);
      GapInTail(s, p);
    }
  }

  lemma GapInTail(s: seq<Uuid>, p: nat)
    requires 0 < p < |s|
    ensures s[..p] + s[p + 1..] == [s[0]] + (s[1..][..p - 1] + s[1..][p..])
  {
  }

  lemma {:induction false} WithoutMembers(s: seq<Uuid>, k: Uuid, u: Uuid)
    ensures u in Without(s, k) <==> u != k && u in s
  {
    if |s| > 0 {
      WithoutMembers(s[1..], k, u);
    }
  }

  lemma TouchMembers(s: seq<Uuid>, k: Uuid, u: Uuid)
    ensures u in Touch(s, k) <==> u == k || u in s
  {
    WithoutMembers(s, k, u);
  }

  // ---------------------------------------------------------------- the last call of each key

  /** One more than the index of the last call for `k`; zero if there is none. */
  function LastCall(h: seq<Uuid>, k: Uuid): (n: nat)
    ensures n <= |h|
  {
    if |h| == 0 then 0 else if h[|h| - 1] == k then |h| else LastCall(h[..|h| - 1], k)
  }

  ghost predicate ByLastCall(decode: Uuid -> Option<Payload>, h: seq<Uuid>, s: seq<Uuid>) {
    && (forall u: Uuid :: u in s <==> u in h && decode(u).Some?)
    && Falling(h, s)
  }

  lemma ByLastCallDistinct(decode: Uuid -> Option<Payload>, h: seq<Uuid>, s: seq<Uuid>)
    requires ByLastCall(decode, h, s)
    ensures Distinct(s)
  {
  }

  /** `Recency` is what its name says: each key that was asked for and decodes, once,
      ordered by its last call, latest first. */
  lemma {:induction false} RecencyIsByLastCall(decode: Uuid -> Option<Payload>, h: seq<Uuid>)
    ensures ByLastCall(decode, h, Recency(decode, h))
    decreases |h|
  {
    if |h| > 0 {
      var h', k := h[..|h| - 1], h[|h| - 1];
      RecencyIsByLastCall(decode, h');
      var s := Recency(decode, h');
      InitLast(h);
      if decode(k).Some? {
        forall u: Uuid ensures u in Touch(s, k) <==> u in h && decode(u).Some? {
          TouchMembers(s, k, u);
        }
        TouchOrders(h', s, k);
        assert h' + [k] == h;
      } else {
        forall i | 0 <= i < |s| ensures LastCall(h, s[i]) == LastCall(h', s[i]) {
          assert s[i] in s;
        }
      }
    }
  }

  ghost predicate Falling(h: seq<Uuid>, s: seq<Uuid>) {
    forall i, j :: 0 <= i < j < |s| ==> LastCall(h, s[i]) > LastCall(h, s[j])
  }

  lemma LastCallSnoc(h: seq<Uuid>, k: Uuid, u: Uuid)
    ensures LastCall(h + [k], u) == if u == k then |h| + 1 else LastCall(h, u)
  {
    assert (h + [k])[..|h|] == h;
  }

  ghost predicate Above(h: seq<Uuid>, k: Uuid, s: seq<Uuid>) {
    forall i :: 0 <= i < |s| ==> LastCall(h, k) > LastCall(h, s[i])
  }

  lemma FallingCons(h: seq<Uuid>, k: Uuid, s: seq<Uuid>)
    requires Above(h, k, s) && Falling(h, s)
    ensures Falling(h, [k] + s)
  {
    var t := [k] + s;
    forall i, j | 0 <= i < j < |t| ensures LastCall(h, t[i]) > LastCall(h, t[j]) {
      assert t[j] == s[j - 1] && (i > 0 ==> t[i] == s[i - 1]);
    }
  }

  /** Taking a key out leaves the rest in order. */
  lemma {:induction false} WithoutFalls(h: seq<Uuid>, s: seq<Uuid>, k: Uuid)
    requires Falling(h, s)
    ensures Falling(h, Without(s, k))
  {
    if |s| > 0 {
      WithoutFalls(h, s[1..], k);
      var w := Without(s[1..], k);
      forall i | 0 <= i < |w| ensures LastCall(h, s[0]) > LastCall(h, w[i]) {
        WithoutMembers(s[1..], k, w[i]);
        var j :| 0 <= j < |s[1..]| && s[1..][j] == w[i];
        assert s[1..][j] == s[j + 1];
      }
      FallingCons(h, s[0], w);
    }
  }

  lemma TouchOrders(h: seq<Uuid>, s: seq<Uuid>, k: Uuid)
    requires Falling(h, s)
    ensures Falling(h + [k], Touch(s, k))
  {
    var w := Without(s, k);
    WithoutFalls(h, s, k);
    LastCallSnoc(h, k, k);
    forall i | 0 <= i < |w| ensures w[i] != k && LastCall(h + [k], w[i]) == LastCall(h, w[i]) {
      assert w[i] in w;
      LastCallSnoc(h, k, w[i]);
    }
    FallingCons(h + [k], k, w);
  }

  // ---------------------------------------------------------------- the bounded list

  function Keys(entries: seq<(Uuid, Payload)>): (k: seq<Uuid>)
    ensures |k| == |entries| && forall i :: 0 <= i < |k| ==> k[i] == entries[i].0
  {
    seq(|entries|, i requires 0 <= i < |entries| => entries[i].0)
  }

  lemma KeysMoved(entries: seq<(Uuid, Payload)>, p: nat)
    requires p < |entries|
    ensures Keys([entries[p]] + (entries[..p] + entries[p + 1..]))
         == [entries[p].0] + Keys(entries)[..p] + Keys(entries)[p + 1..]
  {
  }

  lemma KeysPushed(entries: seq<(Uuid, Payload)>, key: Uuid, payload: Payload)
    ensures Keys([(key, payload)] + entries) == [key] + Keys(entries)
  {
  }

  lemma KeysPopped(entries: seq<(Uuid, Payload)>)
    requires |entries| > 0
    ensures Keys(entries[..|entries| - 1]) == Keys(entries)[..|entries| - 1]
  {
  }

  function First(s: seq<Uuid>): seq<Uuid> {
    if |s| <= CAP then s else s[..CAP]
  }

  /** A hit: touching the cached part is touching the whole list. */
  lemma HitIsTouch(s: seq<Uuid>, p: nat)
    requires Distinct(s) && p < |First(s)|
    ensures First(Touch(s, s[p])) == [s[p]] + First(s)[..p] + First(s)[p + 1..]
  {
    WithoutAt(s, p);
    Assoc([s[p]], First(s)[..p], First(s)[p + 1..]);
    if |s| > CAP {
      GapClosed(s, p);
    }
  }

  lemma GapClosed(s: seq<Uuid>, p: nat)
    requires p < CAP < |s|
    ensures ([s[p]] + (s[..p] + s[p + 1..]))[..CAP] == [s[p]] + (s[..CAP][..p] + s[..CAP][p + 1..])
  {
    var l, r := ([s[p]] + (s[..p] + s[p + 1..]))[..CAP], [s[p]] + (s[..CAP][..p] + s[..CAP][p + 1..]);
    forall i | 0 <= i < CAP ensures l[i] == r[i] {
      var at := if i == 0 then p else if i <= p then i - 1 else i;
      assert l[i] == s[at] && r[i] == s[at];
    }
  }

  /** A miss: the last of sixteen goes, whether or not the key is further down the list. */
  lemma MissIsTouch(s: seq<Uuid>, k: Uuid)
    requires Distinct(s) && k !in First(s)
    ensures
      var f := First(s);
      First(Touch(s, k)) == [k] + (if |f| >= CAP then f[..CAP - 1] else f)
  {
    if k in s {
      var p :| 0 <= p < |s| && s[p] == k;
      assert p >= CAP;
      WithoutAt(s, p);
    }
  }

  /** The entries are the first sixteen keys of the unbounded list, with their payloads. */
  ghost predicate Mirrors(decode: Uuid -> Option<Payload>, entries: seq<(Uuid, Payload)>, calls: seq<Uuid>) {
    && Keys(entries) == First(Recency(decode, calls))
    && Paired(decode, entries)
  }

  /** Every payload kept is the one its key decodes to. */
  ghost predicate Paired(decode: Uuid -> Option<Payload>, entries: seq<(Uuid, Payload)>) {
    forall i :: 0 <= i < |entries| ==> decode(entries[i].0) == Some(entries[i].1)
  }

  lemma MovedPaired(decode: Uuid -> Option<Payload>, entries: seq<(Uuid, Payload)>, p: nat)
    requires Paired(decode, entries) && p < |entries|
    ensures Paired(decode, [entries[p]] + (entries[..p] + entries[p + 1..]))
  {
    var moved := [entries[p]] + (entries[..p] + entries[p + 1..]);
    forall i | 0 <= i < |moved| ensures decode(moved[i].0) == Some(moved[i].1) {
      assert moved[i] == entries[if i == 0 then p else if i <= p then i - 1 else i];
    }
  }

  lemma RecencyDistinct(decode: Uuid -> Option<Payload>, calls: seq<Uuid>)
    ensures Distinct(Recency(decode, calls))
  {
    RecencyIsByLastCall(decode, calls);
    ByLastCallDistinct(decode, calls, Recency(decode, calls));
  }

  lemma RecencySnoc(decode: Uuid -> Option<Payload>, h: seq<Uuid>, k: Uuid)
    ensures Recency(decode, h + [k])
         == if decode(k).Some? then Touch(Recency(decode, h), k) else Recency(decode, h)
  {
    assert (h + [k])[..|h|] == h;
  }

  lemma MirrorsHit(decode: Uuid -> Option<Payload>, entries: seq<(Uuid, Payload)>, calls: seq<Uuid>, p: nat)
    requires Mirrors(decode, entries, calls) && p < |entries|
    ensures Mirrors(decode, [entries[p]] + (entries[..p] + entries[p + 1..]), calls + [entries[p].0])
  {
    var s, key := Recency(decode, calls), entries[p].0;
    RecencyDistinct(decode, calls);
    assert Keys(entries)[p] == key && First(s)[p] == s[p];
    HitIsTouch(s, p);
    RecencySnoc(decode, calls, key);
    KeysMoved(entries, p);
    MovedPaired(decode, entries, p);
  }

  lemma MirrorsMiss(decode: Uuid -> Option<Payload>, entries: seq<(Uuid, Payload)>, calls: seq<Uuid>,
                    key: Uuid, payload: Payload)
    requires Mirrors(decode, entries, calls) && key !in Keys(entries) && decode(key) == Some(payload)
    ensures
      var kept := if |entries| >= CAP then entries[..|entries| - 1] else entries;
      Mirrors(decode, [(key, payload)] + kept, calls + [key])
  {
    var s := Recency(decode, calls);
    RecencyDistinct(decode, calls);
    MissIsTouch(s, key);
    RecencySnoc(decode, calls, key);
    if |entries| >= CAP {
      KeysPopped(entries);
      KeysPushed(entries[..|entries| - 1], key, payload);
    } else {
      KeysPushed(entries, key, payload);
    }
  }

  class DecodeCache {
    const decode: Uuid -> Option<Payload>
    var entries: seq<(Uuid, Payload)>
    ghost var calls: seq<Uuid>

    ghost predicate Valid()
      reads this
    {
      Mirrors(decode, entries, calls)
    }

    constructor (decode: Uuid -> Option<Payload>)
      ensures Valid() && calls == [] && this.decode == decode
    {
      this.decode, entries, calls := decode, [], [];
    }

    /** `position` */
    method Position(key: Uuid) returns (pos: Option<nat>)
      ensures pos.Some? ==> pos.value < |entries| && entries[pos.value].0 == key
      ensures pos.Some? <==> key in Keys(entries)
    {
      for i := 0 to |entries|
        invariant key !in Keys(entries)[..i]
      {
        if entries[i].0 == key {
          assert Keys(entries)[i] == key;
          return Some(i);
        }
      }
      WholeTake(Keys(entries));
      return None;
    }

    /** `get`: a hit moves to the front. */
    method Get(key: Uuid) returns (r: Option<Payload>)
      requires Valid()
      modifies this
      ensures Valid()
      ensures r.Some? <==> key in old(Keys(entries))
      ensures r.Some? ==> r == decode(key) && calls == old(calls) + [key]
      ensures r.None? ==> unchanged(this)
    {
      var pos := Position(key);
      if pos.None? {
        return None;
      }
      MirrorsHit(decode, entries, calls, pos.value);
      var entry := entries[pos.value];
      entries := entries[..pos.value] + entries[pos.value + 1..];
      entries := [entry] + entries;
      calls := calls + [key];
      return Some(entry.1);
    }

    /** `insert`: a key already there stays where it is; a full list drops its last. */
    method Insert(key: Uuid, payload: Payload)
      requires Valid() && decode(key) == Some(payload)
      modifies this
      ensures Valid()
      ensures if key in old(Keys(entries)) then unchanged(this) else calls == old(calls) + [key]
    {
      var pos := Position(key);
      if pos.Some? {
        return;
      }
      MirrorsMiss(decode, entries, calls, key, payload);
      if |entries| >= CAP {
        entries := entries[..|entries| - 1];
      }
      entries := [(key, payload)] + entries;
      calls := calls + [key];
    }

    /** `decode_payload`: a hit skips verification, a miss verifies and is remembered only
        if it succeeds. The answer is that of plain decoding, after any calls whatever. */
    method DecodePayload(key: Uuid) returns (r: Option<Payload>)
      requires Valid()
      modifies this
      ensures Valid() && r == decode(key) && calls == old(calls) + [key]
    {
      r := Get(key);
      if r.Some? {
        return;
      }
      r := decode(key);
      if r.None? {
        RecencySnoc(decode, calls, key);
        calls := calls + [key];
        return;
      }
      Insert(key, r.value);
    }
  }
}
