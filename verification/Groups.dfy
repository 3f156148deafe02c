/** The per-country lists of a dataset, capped by taking turns (`sub/src/proxyip.rs`). */
module Groups {
  import opened Bytes
  import opened Country
  import opened ProxyIp
  import RoundRobin

  const MAX_PREPARED_ENTRIES := 8192
  const MAX_PREPARED_PER_COUNTRY := 256

  // ---------------------------------------------------------------- sorted maps of lists

  datatype Group = Group(country: string, list: seq<Endpoint>)

  /** A `BTreeMap<String, Vec<_>>`: its bindings in key order. */
  type GroupMap = seq<Group>

  ghost predicate Ordered(gs: GroupMap) {
    forall i, j :: 0 <= i < j < |gs| ==> Less(gs[i].country, gs[j].country)
  }

  ghost predicate NoneEmpty(gs: GroupMap) {
    forall i :: 0 <= i < |gs| ==> gs[i].list != []
  }

  function ListOf(gs: GroupMap, country: string): seq<Endpoint> {
    if |gs| == 0 then []
    else if gs[0].country == country then gs[0].list
    else ListOf(gs[1..], country)
  }

  /** `entry(country).or_default().push(at)` */
  function PushTo(gs: GroupMap, country: string, at: Endpoint): GroupMap {
    if |gs| == 0 || Less(country, gs[0].country) then [Group(country, [at])] + gs
    else if gs[0].country == country then [Group(country, gs[0].list + [at])] + gs[1..]
    else [gs[0]] + PushTo(gs[1..], country, at)
  }

  function Total(gs: GroupMap): nat {
    if |gs| == 0 then 0 else |gs[0].list| + Total(gs[1..])
  }

  ghost predicate Above(country: string, gs: GroupMap) {
    forall i :: 0 <= i < |gs| ==> Less(country, gs[i].country)
  }

  lemma {:induction false} ListAbsent(gs: GroupMap, country: string)
    requires Above(country, gs)
    ensures ListOf(gs, country) == []
  {
    if |gs| > 0 {
      LessIrreflexive(country);
      assert Above(country, gs[1..]);
      ListAbsent(gs[1..], country);
    }
  }

  lemma OrderedHead(gs: GroupMap)
    requires Ordered(gs) && |gs| > 0
    ensures Above(gs[0].country, gs[1..]) && Ordered(gs[1..])
  {
  }

  lemma OrderedCons(g: Group, gs: GroupMap)
    requires Above(g.country, gs) && Ordered(gs)
    ensures Ordered([g] + gs)
  {
  }

  lemma {:induction false} PushAbove(gs: GroupMap, country: string, at: Endpoint, low: string)
    requires Above(low, gs) && Less(low, country)
    ensures Above(low, PushTo(gs, country, at))
  {
    if |gs| > 0 && !Less(country, gs[0].country) && gs[0].country != country {
      assert Above(low, gs[1..]);
      PushAbove(gs[1..], country, at, low);
    }
  }

  lemma {:induction false} PushOrdered(gs: GroupMap, country: string, at: Endpoint)
    requires Ordered(gs)
    ensures Ordered(PushTo(gs, country, at))
  {
    if |gs| > 0 {
      OrderedHead(gs);
      LessTotal(country, gs[0].country);
      if Less(country, gs[0].country) {
        forall i | 0 <= i < |gs| ensures Less(country, gs[i].country) {
          if i > 0 {
            LessTransitive(country, gs[0].country, gs[i].country);
          }
        }
        OrderedCons(Group(country, [at]), gs);
      } else if gs[0].country == country {
        OrderedCons(Group(country, gs[0].list + [at]), gs[1..]);
      } else {
        PushOrdered(gs[1..], country, at);
        PushAbove(gs[1..], country, at, gs[0].country);
        OrderedCons(gs[0], PushTo(gs[1..], country, at));
      }
    }
  }

  lemma {:induction false} PushNoneEmpty(gs: GroupMap, country: string, at: Endpoint)
    requires NoneEmpty(gs)
    ensures NoneEmpty(PushTo(gs, country, at))
  {
    if |gs| > 0 {
      assert NoneEmpty(gs[1..]);
      PushNoneEmpty(gs[1..], country, at);
    }
  }

  /** A push appends to one list and leaves the others alone. */
  lemma {:induction false} PushList(gs: GroupMap, country: string, at: Endpoint, c: string)
    requires Ordered(gs)
    ensures ListOf(PushTo(gs, country, at), c) == ListOf(gs, c) + if c == country then [at] else []
  {
    if |gs| > 0 {
      OrderedHead(gs);
      LessTotal(country, gs[0].country);
      if Less(country, gs[0].country) {
        PushListFront(gs, country, at, c);
      } else if gs[0].country != country {
        PushList(gs[1..], country, at, c);
      }
    }
    NilRight(ListOf(gs, c));
  }

  lemma PushListFront(gs: GroupMap, country: string, at: Endpoint, c: string)
    requires Ordered(gs) && |gs| > 0 && Less(country, gs[0].country)
    ensures ListOf([Group(country, [at])] + gs, c) == ListOf(gs, c) + if c == country then [at] else []
  {
    forall i | 0 <= i < |gs| ensures Less(country, gs[i].country) {
      if i > 0 {
        LessTransitive(country, gs[0].country, gs[i].country);
      }
    }
    ListAbsent(gs, country);
    NilRight(ListOf(gs, c));
    TailOfCons(Group(country, [at]), gs);
  }

  lemma TailOfCons<T>(x: T, s: seq<T>)
    ensures ([x] + s)[1..] == s
  {
  }

  lemma {:induction false} PushTotal(gs: GroupMap, country: string, at: Endpoint)
    ensures Total(PushTo(gs, country, at)) == Total(gs) + 1
  {
    if |gs| == 0 || Less(country, gs[0].country) {
      TailOfCons(Group(country, [at]), gs);
    } else if gs[0].country == country {
      TailOfCons(Group(country, gs[0].list + [at]), gs[1..]);
    } else {
      PushTotal(gs[1..], country, at);
      TailOfCons(gs[0], PushTo(gs[1..], country, at));
    }
  }

  lemma {:induction false} ListAt(gs: GroupMap, g: nat)
    requires Ordered(gs) && g < |gs|
    ensures ListOf(gs, gs[g].country) == gs[g].list
  {
    if g > 0 {
      OrderedHead(gs);
      LessTotal(gs[0].country, gs[g].country);
      ListAt(gs[1..], g - 1);
    }
  }

  predicate Has(gs: GroupMap, country: string) {
    |gs| > 0 && (gs[0].country == country || Has(gs[1..], country))
  }

  lemma {:induction false} HasAt(gs: GroupMap, g: nat)
    requires g < |gs|
    ensures Has(gs, gs[g].country)
  {
    if g > 0 {
      HasAt(gs[1..], g - 1);
    }
  }

  lemma {:induction false} HasIndex(gs: GroupMap, country: string) returns (g: nat)
    requires Has(gs, country)
    ensures g < |gs| && gs[g].country == country
  {
    if gs[0].country == country {
      return 0;
    }
    g := HasIndex(gs[1..], country);
    g := g + 1;
  }

  lemma {:induction false} HasList(gs: GroupMap, country: string)
    ensures !Has(gs, country) ==> ListOf(gs, country) == []
    ensures NoneEmpty(gs) && Has(gs, country) ==> ListOf(gs, country) != []
  {
    if |gs| > 0 {
      assert NoneEmpty(gs) ==> NoneEmpty(gs[1..]);
      HasList(gs[1..], country);
    }
  }

  ghost predicate WellFormed(gs: GroupMap) {
    Ordered(gs) && NoneEmpty(gs)
  }

  lemma PushWellFormed(gs: GroupMap, country: string, at: Endpoint)
    requires WellFormed(gs)
    ensures WellFormed(PushTo(gs, country, at))
  {
    PushOrdered(gs, country, at);
    PushNoneEmpty(gs, country, at);
  }

  // ---------------------------------------------------------------- all of a country

  /** The endpoints listed under a country, in the order they were accepted. */
  function Under(entries: seq<Entry>, country: string): seq<Endpoint> {
    if |entries| == 0 then []
    else
      var before, e := Under(entries[..|entries| - 1], country), entries[|entries| - 1];
      if e.country == country then before + [e.at] else before
  }

  ghost predicate GroupsOf(entries: seq<Entry>, gs: GroupMap) {
    && WellFormed(gs) && Total(gs) == |entries|
    && forall c: string :: ListOf(gs, c) == Under(entries, c)
  }

  lemma GroupOne(entries: seq<Entry>, n: nat, gs: GroupMap)
    requires n < |entries| && GroupsOf(entries[..n], gs)
    ensures GroupsOf(entries[..n + 1], PushTo(gs, entries[n].country, entries[n].at))
  {
    var e := entries[n];
    assert entries[..n + 1][..n] == entries[..n];
    PushWellFormed(gs, e.country, e.at);
    PushTotal(gs, e.country, e.at);
    forall c: string ensures ListOf(PushTo(gs, e.country, e.at), c) == Under(entries[..n + 1], c) {
      PushList(gs, e.country, e.at, c);
      NilRight(ListOf(gs, c));
    }
  }

  /** All entries by country. */
  function FullGroups(entries: seq<Entry>): GroupMap {
    if |entries| == 0 then []
    else
      var last := entries[|entries| - 1];
      PushTo(FullGroups(entries[..|entries| - 1]), last.country, last.at)
  }

  lemma {:induction false} FullGroupsOf(entries: seq<Entry>)
    ensures GroupsOf(entries, FullGroups(entries))
  {
    if |entries| > 0 {
      FullGroupsOf(entries[..|entries| - 1]);
      GroupOne(entries, |entries| - 1, FullGroups(entries[..|entries| - 1]));
      WholeTake(entries);
    }
  }

  method GroupAll(entries: seq<Entry>) returns (full: GroupMap)
    ensures full == FullGroups(entries)
  {
    full := [];
    for i := 0 to |entries|
      invariant full == FullGroups(entries[..i])
    {
      assert entries[..i + 1][..i] == entries[..i];
      full := PushTo(full, entries[i].country, entries[i].at);
    }
    WholeTake(entries);
  }

  // ---------------------------------------------------------------- capping

  /** What each country may contribute. */
  function Lens(full: GroupMap): (lens: seq<nat>)
    ensures |lens| == |full|
    ensures forall g :: 0 <= g < |full| ==> lens[g] == RoundRobin.Min(|full[g].list|, MAX_PREPARED_PER_COUNTRY)
  {
    seq(|full|, g requires 0 <= g < |full| => RoundRobin.Min(|full[g].list|, MAX_PREPARED_PER_COUNTRY))
  }

  /** Of every country a prefix of its list, as long as its turns before `(d, n)`. */
  ghost predicate Dealt(full: GroupMap, out: GroupMap, counts: seq<nat>)
    requires |counts| == |full|
  {
    && WellFormed(out)
    && (forall g :: 0 <= g < |full| ==> counts[g] <= |full[g].list|)
    && (forall g :: 0 <= g < |full| ==> ListOf(out, full[g].country) == full[g].list[..counts[g]])
    && (forall c: string :: !Has(full, c) ==> ListOf(out, c) == [])
  }

  ghost predicate State(full: GroupMap, out: GroupMap, total: nat, d: nat, n: nat) {
    && n <= |full|
    && total == |RoundRobin.Picks(Lens(full), d, n)| == Total(out)
    && Dealt(full, out, RoundRobin.Counts(Lens(full), d, n))
  }

  lemma StateSkip(full: GroupMap, out: GroupMap, total: nat, d: nat, n: nat)
    requires State(full, out, total, d, n) && n < |full| && Lens(full)[n] <= d
    ensures State(full, out, total, d, n + 1)
  {
    var lens := Lens(full);
    assert RoundRobin.Counts(lens, d, n + 1) == RoundRobin.Counts(lens, d, n);
    NilRight(RoundRobin.Picks(lens, d, n));
  }

  lemma StatePush(full: GroupMap, out: GroupMap, total: nat, d: nat, n: nat)
    requires Ordered(full) && State(full, out, total, d, n) && n < |full| && d < Lens(full)[n]
    ensures State(full, PushTo(out, full[n].country, full[n].list[d]), total + 1, d, n + 1)
    ensures d < RoundRobin.Longest(Lens(full))
  {
    var c, at := full[n].country, full[n].list[d];
    var out' := PushTo(out, c, at);
    var counts, counts' := RoundRobin.Counts(Lens(full), d, n), RoundRobin.Counts(Lens(full), d, n + 1);
    PushWellFormed(out, c, at);
    PushTotal(out, c, at);
    forall g | 0 <= g < |full| ensures ListOf(out', full[g].country) == full[g].list[..counts'[g]] {
      PushList(out, c, at, full[g].country);
      if g == n {
        assert full[n].list[..d + 1] == full[n].list[..d] + [at];
      } else {
        LessTotal(full[g].country, c);
        NilRight(ListOf(out, full[g].country));
      }
    }
    HasAt(full, n);
    forall k: string | !Has(full, k) ensures ListOf(out', k) == [] {
      PushList(out, c, at, k);
    }
  }

  lemma StateTurn(full: GroupMap, out: GroupMap, total: nat, d: nat)
    requires State(full, out, total, d, |full|)
    ensures State(full, out, total, d + 1, 0)
  {
    assert RoundRobin.Counts(Lens(full), d, |full|) == RoundRobin.Counts(Lens(full), d + 1, 0);
  }

  /** How many elements group `g` contributes in the end. */
  function Share(full: GroupMap, g: nat): nat
    requires g < |full|
  {
    RoundRobin.CountOf(RoundRobin.Deal(Lens(full), MAX_PREPARED_ENTRIES), g)
  }

  function Shares(full: GroupMap): (s: seq<nat>)
    ensures |s| == |full| && forall g :: 0 <= g < |full| ==> s[g] == Share(full, g)
  {
    seq(|full|, g requires 0 <= g < |full| => Share(full, g))
  }

  /** `out` is `full` capped: the first `Share` elements of each list, nothing else. */
  ghost predicate Capped(full: GroupMap, out: GroupMap) {
    && Dealt(full, out, Shares(full))
    && Total(out) == |RoundRobin.Deal(Lens(full), MAX_PREPARED_ENTRIES)|
  }

  lemma CappedFrom(full: GroupMap, out: GroupMap, total: nat, d: nat, n: nat)
    requires State(full, out, total, d, n)
    requires RoundRobin.Picks(Lens(full), d, n) == RoundRobin.Deal(Lens(full), MAX_PREPARED_ENTRIES)
    ensures Capped(full, out)
  {
    forall g | 0 <= g < |full| ensures Share(full, g) == RoundRobin.Counts(Lens(full), d, n)[g] {
      RoundRobin.CountPicks(Lens(full), d, n, g);
    }
    assert Shares(full) == RoundRobin.Counts(Lens(full), d, n);
  }

  /** One pass over the countries. */
  method Sweep(full: GroupMap, out: GroupMap, total: nat, d: nat) returns (out': GroupMap, total': nat, added: bool)
    requires Ordered(full) && State(full, out, total, d, 0) && total < MAX_PREPARED_ENTRIES
    ensures total' <= MAX_PREPARED_ENTRIES
    ensures if total' < MAX_PREPARED_ENTRIES then State(full, out', total', d + 1, 0) else Capped(full, out')
    ensures !added ==> RoundRobin.Drained(Lens(full), d, |full|) && total' < MAX_PREPARED_ENTRIES
    ensures added ==> d < RoundRobin.Longest(Lens(full))
  {
    out', total', added := out, total, false;
    for i := 0 to |full|
      invariant State(full, out', total', d, i) && total' < MAX_PREPARED_ENTRIES
      invariant if added then d < RoundRobin.Longest(Lens(full)) else RoundRobin.Drained(Lens(full), d, i)
    {
      var values := full[i].list;
      if d >= |values| || d >= MAX_PREPARED_PER_COUNTRY {
        StateSkip(full, out', total', d, i);
        continue;
      }
      StatePush(full, out', total', d, i);
      out' := PushTo(out', full[i].country, values[d]);
      total' := total' + 1;
      added := true;
      if total' == MAX_PREPARED_ENTRIES {
        CappedAtMax(full, out', total', d, i + 1);
        return;
      }
    }
    StateTurn(full, out', total', d);
  }

  lemma CappedAtMax(full: GroupMap, out: GroupMap, total: nat, d: nat, n: nat)
    requires State(full, out, total, d, n) && total == MAX_PREPARED_ENTRIES
    ensures Capped(full, out)
  {
    RoundRobin.DealtAtMax(Lens(full), d, n, MAX_PREPARED_ENTRIES);
    CappedFrom(full, out, total, d, n);
  }

  /** `prepare_compact_groups` */
  method PrepareCompactGroups(entries: seq<Entry>) returns (prepared: GroupMap)
    ensures Capped(FullGroups(entries), prepared)
  {
    var full := GroupAll(entries);
    FullGroupsOf(entries);
    prepared := [];
    var total: nat, depth: nat := 0, 0;
    StartState(full);
    while total < MAX_PREPARED_ENTRIES
      invariant total <= MAX_PREPARED_ENTRIES
      invariant if total < MAX_PREPARED_ENTRIES then State(full, prepared, total, depth, 0) else Capped(full, prepared)
      decreases RoundRobin.Longest(Lens(full)) - depth, MAX_PREPARED_ENTRIES - total
    {
      var added;
      prepared, total, added := Sweep(full, prepared, total, depth);
      if !added {
        EndState(full, prepared, total, depth);
        break;
      }
      depth := depth + 1;
    }
  }

  lemma StartState(full: GroupMap)
    requires WellFormed(full)
    ensures State(full, [], 0, 0, 0)
  {
    assert forall g :: 0 <= g < |full| ==> full[g].list[..0] == [];
  }

  lemma EndState(full: GroupMap, out: GroupMap, total: nat, d: nat)
    requires total < MAX_PREPARED_ENTRIES && State(full, out, total, d + 1, 0)
    requires RoundRobin.Drained(Lens(full), d, |full|)
    ensures Capped(full, out)
  {
    RoundRobin.DealtAll(Lens(full), d + 1, MAX_PREPARED_ENTRIES);
    CappedFrom(full, out, total, d + 1, 0);
  }

  // ---------------------------------------------------------------- what capping keeps

  /** The total is the lesser of the limit and what the countries may contribute. */
  lemma CappedTotal(full: GroupMap, out: GroupMap)
    requires Capped(full, out)
    ensures Total(out) == RoundRobin.Min(MAX_PREPARED_ENTRIES, RoundRobin.Sum(Lens(full)))
  {
    RoundRobin.DealSize(Lens(full), MAX_PREPARED_ENTRIES);
  }

  /** Each list is a prefix of the country's full list, of at most 256 elements; and no
      country gets two more than another that still has entries to give. */
  lemma CappedFair(entries: seq<Entry>, full: GroupMap, out: GroupMap, c: string, k: string)
    requires GroupsOf(entries, full) && Capped(full, out)
    ensures ListOf(out, c) <= Under(entries, c)
    ensures |ListOf(out, c)| <= MAX_PREPARED_PER_COUNTRY
    ensures |ListOf(out, c)| == RoundRobin.Min(|Under(entries, c)|, MAX_PREPARED_PER_COUNTRY)
      || |ListOf(out, k)| <= |ListOf(out, c)| + 1
  {
    HasList(full, c);
    HasList(full, k);
    if Has(full, c) {
      var g := HasIndex(full, c);
      ListAt(full, g);
      RoundRobin.Fair(Lens(full), MAX_PREPARED_ENTRIES, g, g);
      if Has(full, k) {
        var h := HasIndex(full, k);
        ListAt(full, h);
        RoundRobin.Fair(Lens(full), MAX_PREPARED_ENTRIES, g, h);
        assert |ListOf(out, k)| == Share(full, h);
      }
      assert |ListOf(out, c)| == Share(full, g);
    }
  }
}
