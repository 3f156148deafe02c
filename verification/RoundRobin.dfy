/** Taking turns: groups of known sizes are visited in sweeps, each sweep takes one more
    element of every group that still has one, and the whole stops at a maximum. Both the
    capping of a dataset and the selection from it deal in this order. */
module RoundRobin {
  import opened Bytes

  /** The element number `depth` of group number `group`. */
  datatype Pick = Pick(depth: nat, group: nat)

  predicate Before(p: Pick, q: Pick) {
    p.depth < q.depth || (p.depth == q.depth && p.group < q.group)
  }

  function Min(a: nat, b: nat): nat {
    if a < b then a else b
  }

  function Sum(s: seq<nat>): nat {
    if |s| == 0 then 0 else Sum(s[..|s| - 1]) + s[|s| - 1]
  }

  function Longest(lens: seq<nat>): (m: nat)
    ensures forall g :: 0 <= g < |lens| ==> lens[g] <= m
    ensures m > 0 ==> m in lens
  {
    if |lens| == 0 then 0
    else
      var m, l := Longest(lens[..|lens| - 1]), lens[|lens| - 1];
      assert forall g :: 0 <= g < |lens| - 1 ==> lens[g] == lens[..|lens| - 1][g];
      if m < l then l else m
  }

  /** Everything before element `d` of group `n`: the earlier sweeps, then the groups of
      this one before `n`. */
  function Picks(lens: seq<nat>, d: nat, n: nat): seq<Pick>
    requires n <= |lens|
    decreases d, n
  {
    if n > 0 then Picks(lens, d, n - 1) + if d < lens[n - 1] then [Pick(d, n - 1)] else []
    else if d > 0 then Picks(lens, d - 1, |lens|)
    else []
  }

  /** Every element there is, in turn. */
  function Full(lens: seq<nat>): seq<Pick> {
    Picks(lens, Longest(lens), 0)
  }

  /** The first `max` of them. */
  function Deal(lens: seq<nat>, max: nat): seq<Pick> {
    var f := Full(lens);
    if |f| <= max then f else f[..max]
  }

  /** The first `n` groups have nothing left for sweep `d`. */
  ghost predicate Drained(lens: seq<nat>, d: nat, n: nat)
    requires n <= |lens|
  {
    forall g :: 0 <= g < n ==> lens[g] <= d
  }

  function CountOf(picks: seq<Pick>, g: nat): nat {
    if |picks| == 0 then 0
    else CountOf(picks[..|picks| - 1], g) + if picks[|picks| - 1].group == g then 1 else 0
  }

  // ---------------------------------------------------------------- prefixes

  lemma {:induction false} Exhausted(lens: seq<nat>, d: nat, n: nat)
    requires n <= |lens| && Longest(lens) <= d
    ensures Picks(lens, d, n) == Full(lens)
    decreases d, n
  {
    if n > 0 {
      Exhausted(lens, d, n - 1);
      NilRight(Full(lens));
    } else if Longest(lens) < d {
      Exhausted(lens, d - 1, |lens|);
    }
  }

  /** What has been dealt is always a prefix of what is to be dealt. */
  lemma {:induction false} PicksPrefix(lens: seq<nat>, d: nat, n: nat)
    requires n <= |lens|
    ensures Picks(lens, d, n) <= Full(lens)
    decreases Longest(lens) - d, |lens| - n
  {
    if Longest(lens) <= d {
      Exhausted(lens, d, n);
    } else if n < |lens| {
      PicksPrefix(lens, d, n + 1);
    } else {
      PicksPrefix(lens, d + 1, 0);
    }
  }

  /** Stopping at the maximum, or when a sweep finds nothing, deals what is due. */
  lemma DealtAtMax(lens: seq<nat>, d: nat, n: nat, max: nat)
    requires n <= |lens| && |Picks(lens, d, n)| == max
    ensures Picks(lens, d, n) == Deal(lens, max)
  {
    PicksPrefix(lens, d, n);
  }

  lemma DealtAll(lens: seq<nat>, d: nat, max: nat)
    requires (forall g :: 0 <= g < |lens| ==> lens[g] <= d) && |Picks(lens, d, 0)| <= max
    ensures Picks(lens, d, 0) == Deal(lens, max)
  {
    Exhausted(lens, d, 0);
  }

  // ---------------------------------------------------------------- every prefix is a state

  /** Some state has dealt exactly `k` elements. */
  lemma {:induction false} StateAt(lens: seq<nat>, k: nat, d: nat, n: nat) returns (d': nat, n': nat)
    requires n <= |lens| && d <= Longest(lens) && |Picks(lens, d, n)| <= k <= |Full(lens)|
    ensures n' <= |lens| && Picks(lens, d', n') == Full(lens)[..k]
    decreases Longest(lens) - d, |lens| - n
  {
    PicksPrefix(lens, d, n);
    if |Picks(lens, d, n)| == k {
      return d, n;
    }
    if d == Longest(lens) {
      Exhausted(lens, d, n);
      assert false;
    }
    if n < |lens| {
      d', n' := StateAt(lens, k, d, n + 1);
    } else {
      d', n' := StateAt(lens, k, d + 1, 0);
    }
  }

  // ---------------------------------------------------------------- what is dealt

  /** How much of group `g` lies before `(d, n)`. */
  function Taken(lens: seq<nat>, d: nat, n: nat, g: nat): nat
    requires g < |lens|
  {
    Min(lens[g], d + if g < n then 1 else 0)
  }

  lemma CountSnoc(picks: seq<Pick>, p: Pick, g: nat)
    ensures CountOf(picks + [p], g) == CountOf(picks, g) + if p.group == g then 1 else 0
  {
    assert (picks + [p])[..|picks|] == picks;
  }

  lemma {:induction false} CountPicks(lens: seq<nat>, d: nat, n: nat, g: nat)
    requires n <= |lens| && g < |lens|
    ensures CountOf(Picks(lens, d, n), g) == Taken(lens, d, n, g)
    decreases d, n
  {
    if n > 0 {
      CountPicks(lens, d, n - 1, g);
      CountSnoc(Picks(lens, d, n - 1), Pick(d, n - 1), g);
      NilRight(Picks(lens, d, n - 1));
    } else if d > 0 {
      CountPicks(lens, d - 1, |lens|, g);
    }
  }

  /** Nobody is dealt more than one element ahead of a group that has more to give; between
      groups that have, the earlier one is ahead. */
  lemma Fair(lens: seq<nat>, max: nat, g: nat, h: nat)
    requires g < |lens| && h < |lens|
    ensures
      var cg, ch := CountOf(Deal(lens, max), g), CountOf(Deal(lens, max), h);
      cg <= lens[g] && (cg == lens[g] || ch <= cg + if h < g then 1 else 0)
  {
    var f := Full(lens);
    var d, n := StateAt(lens, if |f| <= max then |f| else max, 0, 0);
    WholeTake(f);
    CountPicks(lens, d, n, g);
    CountPicks(lens, d, n, h);
  }

  lemma {:induction false} SumUpdate(s: seq<nat>, i: nat, v: nat)
    requires i < |s|
    ensures Sum(s[i := v]) == Sum(s) - s[i] + v
    decreases |s|
  {
    var t := s[i := v];
    if i < |s| - 1 {
      SumUpdate(s[..|s| - 1], i, v);
      assert t[..|s| - 1] == s[..|s| - 1][i := v];
    } else {
      assert t[..|s| - 1] == s[..|s| - 1];
    }
  }

  function Counts(lens: seq<nat>, d: nat, n: nat): (c: seq<nat>)
    ensures |c| == |lens| && forall g :: 0 <= g < |lens| ==> c[g] == Taken(lens, d, n, g)
  {
    seq(|lens|, g requires 0 <= g < |lens| => Taken(lens, d, n, g))
  }

  lemma {:induction false} SumZeros(s: seq<nat>)
    requires forall i :: 0 <= i < |s| ==> s[i] == 0
    ensures Sum(s) == 0
  {
    if |s| > 0 {
      SumZeros(s[..|s| - 1]);
    }
  }

  lemma {:induction false} PicksSize(lens: seq<nat>, d: nat, n: nat)
    requires n <= |lens|
    ensures |Picks(lens, d, n)| == Sum(Counts(lens, d, n))
    decreases d, n
  {
    if n > 0 {
      PicksSize(lens, d, n - 1);
      var c := Counts(lens, d, n - 1);
      assert Counts(lens, d, n) == c[n - 1 := Taken(lens, d, n, n - 1)];
      SumUpdate(c, n - 1, Taken(lens, d, n, n - 1));
    } else if d > 0 {
      PicksSize(lens, d - 1, |lens|);
      assert Counts(lens, d, 0) == Counts(lens, d - 1, |lens|);
    } else {
      SumZeros(Counts(lens, 0, 0));
    }
  }

  /** Everything is dealt, up to the maximum. */
  lemma DealSize(lens: seq<nat>, max: nat)
    ensures |Deal(lens, max)| == Min(max, Sum(lens))
  {
    var m := Longest(lens);
    PicksSize(lens, m, 0);
    assert Counts(lens, m, 0) == lens;
  }

  // ---------------------------------------------------------------- order of the deal

  /** The elements dealt before `(d, n)` are those that exist and come before it. */
  lemma {:induction false} PicksMembers(lens: seq<nat>, d: nat, n: nat, p: Pick)
    requires n <= |lens|
    ensures p in Picks(lens, d, n) <==> p.group < |lens| && p.depth < lens[p.group] && Before(p, Pick(d, n))
    decreases d, n
  {
    if n > 0 {
      PicksMembers(lens, d, n - 1, p);
    } else if d > 0 {
      PicksMembers(lens, d - 1, |lens|, p);
    }
  }

  ghost predicate Increasing(picks: seq<Pick>) {
    forall i, j :: 0 <= i < j < |picks| ==> Before(picks[i], picks[j])
  }

  lemma {:induction false} PicksIncrease(lens: seq<nat>, d: nat, n: nat)
    requires n <= |lens|
    ensures Increasing(Picks(lens, d, n))
    decreases d, n
  {
    if n > 0 {
      PicksIncrease(lens, d, n - 1);
      var before := Picks(lens, d, n - 1);
      forall i | 0 <= i < |before| ensures Before(before[i], Pick(d, n - 1)) {
        PicksMembers(lens, d, n - 1, before[i]);
      }
    } else if d > 0 {
      PicksIncrease(lens, d - 1, |lens|);
    }
  }

  /** A deal is in strictly increasing order, so nothing is dealt twice, and every pick exists. */
  lemma DealOrder(lens: seq<nat>, max: nat)
    ensures Increasing(Deal(lens, max))
    ensures forall i :: 0 <= i < |Deal(lens, max)| ==>
      Deal(lens, max)[i].group < |lens| && Deal(lens, max)[i].depth < lens[Deal(lens, max)[i].group]
  {
    var m := Longest(lens);
    PicksIncrease(lens, m, 0);
    forall i | 0 <= i < |Full(lens)|
      ensures Full(lens)[i].group < |lens| && Full(lens)[i].depth < lens[Full(lens)[i].group]
    {
      PicksMembers(lens, m, 0, Full(lens)[i]);
    }
  }
}
