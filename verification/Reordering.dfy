/** What the order of the records of a feed does to the country of an endpoint
    (`sub/src/proxyip.rs`). */
module Reordering {
  import opened Bytes
  import opened Country
  import opened ProxyIp

  /** The codes that the records report for one endpoint, in order. */
  function Reported(records: seq<Record>, at: Endpoint): seq<string> {
    CodesFor(AllOffers(records), at)
  }

  lemma {:induction false} CodesAppend(a: seq<Entry>, b: seq<Entry>, at: Endpoint)
    ensures CodesFor(a + b, at) == CodesFor(a, at) + CodesFor(b, at)
    decreases |b|
  {
    if |b| == 0 {
      NilRight(a);
      NilRight(CodesFor(a, at));
    } else {
      var front, last := b[..|b| - 1], b[|b| - 1];
      assert (a + b)[..|a + b| - 1] == a + front && (a + b)[|a + b| - 1] == last;
      CodesAppend(a, front, at);
      if last.at == at {
        Assoc(CodesFor(a, at), CodesFor(front, at), [last.country]);
      }
    }
  }

  lemma ReportedSnoc(records: seq<Record>, r: Record, at: Endpoint)
    ensures Reported(records + [r], at) == Reported(records, at) + CodesFor(Offers(r), at)
  {
    assert (records + [r])[..|records|] == records;
    CodesAppend(AllOffers(records), Offers(r), at);
  }

  lemma {:induction false} ReportedAppend(a: seq<Record>, b: seq<Record>, at: Endpoint)
    ensures Reported(a + b, at) == Reported(a, at) + Reported(b, at)
    decreases |b|
  {
    if |b| == 0 {
      NilRight(a);
      NilRight(Reported(a, at));
    } else {
      var front, last := b[..|b| - 1], b[|b| - 1];
      InitLast(b);
      Assoc(a, front, [last]);
      ReportedAppend(a, front, at);
      ReportedSnoc(a + front, last, at);
      ReportedSnoc(front, last, at);
      Assoc(Reported(a, at), Reported(front, at), CodesFor(Offers(last), at));
    }
  }

  lemma ReportedSplit(records: seq<Record>, i: nat, at: Endpoint)
    requires i < |records|
    ensures Reported(records, at)
         == Reported(records[..i], at) + CodesFor(Offers(records[i]), at) + Reported(records[i + 1..], at)
  {
    var a, r, b := records[..i], records[i], records[i + 1..];
    assert records == (a + [r]) + b;
    ReportedAppend(a + [r], b, at);
    ReportedSnoc(a, r, at);
  }

  lemma LastTwoSwapped<T>(x: seq<T>, y: seq<T>, z: seq<T>)
    ensures multiset(x + y + z) == multiset(x + z + y)
  {
  }

  /** Moving a record to the end moves its codes to the end. */
  lemma MovedParts(records: seq<Record>, i: nat, at: Endpoint)
    requires i < |records|
    ensures Reported(MovedLast(records, i), at)
         == Reported(records[..i], at) + Reported(records[i + 1..], at) + CodesFor(Offers(records[i]), at)
  {
    var a, r, b := records[..i], records[i], records[i + 1..];
    ReportedAppend(a, b, at);
    ReportedSnoc(a + b, r, at);
  }

  lemma ReportedMoved(records: seq<Record>, i: nat, at: Endpoint)
    requires i < |records|
    ensures multiset(Reported(MovedLast(records, i), at)) == multiset(Reported(records, at))
  {
    var a, r, b := records[..i], records[i], records[i + 1..];
    MovedParts(records, i, at);
    ReportedSplit(records, i, at);
    LastTwoSwapped(Reported(a, at), CodesFor(Offers(r), at), Reported(b, at));
  }

  /** Taking the same element out of two lists with the same elements. */
  lemma SameWithout<T>(a: seq<T>, b: seq<T>, i: nat)
    requires multiset(a) == multiset(b) && |a| > 0 && i < |b| && b[i] == a[|a| - 1]
    ensures multiset(a[..|a| - 1]) == multiset(b[..i] + b[i + 1..])
  {
    InitLast(a);
    MovedLastPermutes(b, i);
    var x, y := multiset(a[..|a| - 1]), multiset(b[..i] + b[i + 1..]);
    assert multiset(a) == x + multiset{b[i]};
    assert multiset(MovedLast(b, i)) == y + multiset{b[i]};
    assert x == multiset(a) - multiset{b[i]} && y == multiset(b) - multiset{b[i]};
  }

  /** The same records in another order report the same codes. */
  lemma {:induction false} ReportedPermuted(a: seq<Record>, b: seq<Record>, at: Endpoint)
    requires multiset(a) == multiset(b)
    ensures multiset(Reported(a, at)) == multiset(Reported(b, at))
    decreases |a|
  {
    assert |multiset(a)| == |multiset(b)|;
    if |a| > 0 {
      var front, r := a[..|a| - 1], a[|a| - 1];
      assert r in multiset(a);
      assert r in multiset(b);
      var i :| 0 <= i < |b| && b[i] == r;
      SameWithout(a, b, i);
      ReportedPermuted(front, b[..i] + b[i + 1..], at);
      ReportedMoved(b, i, at);
      InitLast(a);
      LikewiseEnded(front, b[..i] + b[i + 1..], r, at);
    }
  }

  lemma LikewiseEnded(a: seq<Record>, b: seq<Record>, r: Record, at: Endpoint)
    requires multiset(Reported(a, at)) == multiset(Reported(b, at))
    ensures multiset(Reported(a + [r], at)) == multiset(Reported(b + [r], at))
  {
    ReportedSnoc(a, r, at);
    ReportedSnoc(b, r, at);
  }

  /** The country under which an endpoint is held, if it is. */
  function CountryOf(records: seq<Record>, at: Endpoint): Option<string> {
    CountryAt(Held(AllOffers(records)), at)
  }

  ghost predicate EveryRecordOrderGivesLeast(records: seq<Record>, at: Endpoint)
    requires Reported(records, at) != []
  {
    forall b: seq<Record> :: multiset(b) == multiset(records) ==> CountryOf(b, at) == Some(Least(Reported(records, at)))
  }

  lemma PermutedLeast(a: seq<Record>, b: seq<Record>, at: Endpoint)
    requires multiset(a) == multiset(b) && Reported(a, at) != []
    requires Least(Reported(a, at)) != UNKNOWN || OnlyUnknown(Reported(a, at))
    ensures CountryOf(b, at) == Some(Least(Reported(a, at)))
  {
    ReportedPermuted(a, b, at);
    LeastOfPermutation(Reported(a, at), Reported(b, at));
    MergeAnyOrder(Reported(a, at), Reported(b, at));
    HeldCountry(AllOffers(b), at);
  }

  /** All codes of one record are the same. */
  lemma {:induction false} OneCode(os: seq<Entry>, at: Endpoint, c: string)
    requires forall i :: 0 <= i < |os| ==> os[i].country == c
    ensures forall d :: d in CodesFor(os, at) ==> d == c
    decreases |os|
  {
    if |os| > 0 {
      OneCode(os[..|os| - 1], at, c);
    }
  }

  lemma OneRecordCode(r: Record, at: Endpoint, c: string)
    requires c in CodesFor(Offers(r), at)
    ensures forall d :: d in CodesFor(Offers(r), at) ==> d == c
  {
    var code := NormalizeCountry(r.country);
    assert forall i :: 0 <= i < |Offers(r)| ==> Offers(r)[i].country == code;
    OneCode(Offers(r), at, code);
  }

  /** A code that is reported is the code of some record. */
  lemma {:induction false} ReportedBy(records: seq<Record>, at: Endpoint, c: string) returns (i: nat)
    requires c in Reported(records, at)
    ensures i < |records| && c in CodesFor(Offers(records[i]), at)
    decreases |records|
  {
    var front, last := records[..|records| - 1], records[|records| - 1];
    InitLast(records);
    ReportedSnoc(front, last, at);
    if c in CodesFor(Offers(last), at) {
      i := |records| - 1;
    } else {
      i := ReportedBy(front, at, c);
    }
  }

  /** A record with a code other than "XX", moved to the end, keeps "XX" from winning. */
  lemma UnknownLoses(records: seq<Record>, at: Endpoint, c: string) returns (b: seq<Record>)
    requires c in Reported(records, at) && c != UNKNOWN && Least(Reported(records, at)) == UNKNOWN
    ensures multiset(b) == multiset(records) && CountryOf(b, at) != Some(UNKNOWN)
  {
    var i := ReportedBy(records, at, c);
    b := MovedLast(records, i);
    MovedLastPermutes(records, i);
    ReportedPermuted(records, b, at);
    MovedParts(records, i, at);
    OneRecordCode(records[i], at, c);
    UnknownIsBeaten(Reported(records, at), Reported(b, at), Reported(records[..i], at) + Reported(records[i + 1..], at),
                    CodesFor(Offers(records[i]), at), c);
    HeldCountry(AllOffers(b), at);
  }

  lemma EndsIn(all: seq<string>, a: seq<string>, b: seq<string>, c: string)
    requires all == a + b && |b| > 0 && forall d :: d in b ==> d == c
    ensures |all| > 0 && all[|all| - 1] == c
  {
    assert b[|b| - 1] in b;
  }

  /** Reports whose last is not "XX" are not merged to "XX". */
  lemma UnknownIsBeaten(cs: seq<string>, ds: seq<string>, before: seq<string>, own: seq<string>, c: string)
    requires |cs| > 0 && multiset(cs) == multiset(ds) && Least(cs) == UNKNOWN
    requires ds == before + own && c in own && c != UNKNOWN && forall d :: d in own ==> d == c
    ensures |ds| > 0 && MergeAll(ds) != UNKNOWN
  {
    EndsIn(ds, before, own, c);
    LeastOfPermutation(cs, ds);
    MergeAllIsLeast(ds);
  }

  /** The order of the records does not matter for an endpoint, and its country is the least
      code reported, exactly if that is not "XX", or "XX" is the only one. */
  lemma RecordOrderIrrelevant(records: seq<Record>, at: Endpoint)
    requires Reported(records, at) != []
    ensures EveryRecordOrderGivesLeast(records, at)
       <==> Least(Reported(records, at)) != UNKNOWN || OnlyUnknown(Reported(records, at))
  {
    var cs := Reported(records, at);
    if Least(cs) != UNKNOWN || OnlyUnknown(cs) {
      forall b: seq<Record> | multiset(b) == multiset(records) ensures CountryOf(b, at) == Some(Least(cs)) {
        PermutedLeast(records, b, at);
      }
    } else {
      var c :| c in cs && c != UNKNOWN;
      var b := UnknownLoses(records, at, c);
    }
  }

  /** Which endpoints are held never depends on the order. */
  lemma SameEndpoints(a: seq<Record>, b: seq<Record>, at: Endpoint)
    requires multiset(a) == multiset(b)
    ensures CountryOf(a, at).Some? <==> CountryOf(b, at).Some?
  {
    ReportedPermuted(a, b, at);
    assert |multiset(Reported(a, at))| == |multiset(Reported(b, at))|;
    HeldCountry(AllOffers(a), at);
    HeldCountry(AllOffers(b), at);
  }
}
