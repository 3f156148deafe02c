/** `select` of `sub/src/proxyip.rs`: a rotated, fair and duplicate-free selection. */
module Selection {
  import opened Bytes
  import opened Country
  import opened ProxyIp
  import opened Groups
  import RoundRobin
  import Dataset

  const WORD: nat := 0x1_0000_0000_0000_0000
  const USIZE: nat := 0x1_0000_0000
  const GOLDEN: nat := 0x9e37_79b9

  datatype Query = Query(requested: Option<seq<string>>, preferred: Option<string>, maxCount: nat, seed: nat)

  // ---------------------------------------------------------------- which countries

  function Keys(gs: GroupMap): (k: seq<string>)
    ensures |k| == |gs| && forall i :: 0 <= i < |gs| ==> k[i] == gs[i].country
  {
    seq(|gs|, i requires 0 <= i < |gs| => gs[i].country)
  }

  /** `rotate_left` */
  function Rotated(s: seq<string>, shift: nat): (r: seq<string>)
    requires shift <= |s|
    ensures |r| == |s|
  {
    s[shift..] + s[..shift]
  }

  function Present(gs: GroupMap, requested: seq<string>): seq<string> {
    if |requested| == 0 then []
    else
      var last := requested[|requested| - 1];
      Present(gs, requested[..|requested| - 1]) + if Has(gs, last) then [last] else []
  }

  lemma {:induction false} PresentMembers(gs: GroupMap, requested: seq<string>)
    ensures forall c :: c in Present(gs, requested) <==> c in requested && Has(gs, c)
    ensures Distinct(requested) ==> Distinct(Present(gs, requested))
  {
    if |requested| > 0 {
      var front := requested[..|requested| - 1];
      PresentMembers(gs, front);
      InitLast(requested);
      if Distinct(requested) {
        assert requested[|requested| - 1] !in front;
      }
    }
  }

  lemma RotatedKeys(gs: GroupMap, shift: nat)
    requires Ordered(gs) && shift <= |gs|
    ensures Distinct(Rotated(Keys(gs), shift))
    ensures forall c :: c in Rotated(Keys(gs), shift) <==> Has(gs, c)
  {
    var keys := Keys(gs);
    var r := Rotated(keys, shift);
    RotatedAt(keys, shift);
    forall i, j | 0 <= i < j < |r| && shift < |gs| ensures r[i] != r[j] {
      KeysDiffer(gs, Around(shift + i, |gs|), Around(shift + j, |gs|));
    }
    if shift == |gs| {
      assert r == keys;
      forall i, j | 0 <= i < j < |r| ensures r[i] != r[j] {
        KeysDiffer(gs, i, j);
      }
    }
    forall c ensures c in r <==> Has(gs, c) {
      RotatedMembers(keys, shift, c);
      KeysHave(gs, c);
    }
  }

  lemma KeysDiffer(gs: GroupMap, i: nat, j: nat)
    requires Ordered(gs) && i < |gs| && j < |gs| && i != j
    ensures Keys(gs)[i] != Keys(gs)[j]
  {
    LessIrreflexive(gs[i].country);
  }

  lemma RotatedMembers(s: seq<string>, shift: nat, c: string)
    requires shift <= |s|
    ensures c in Rotated(s, shift) <==> c in s
  {
    Split(s, shift);
    assert c in s <==> c in s[..shift] || c in s[shift..];
  }

  lemma KeysHave(gs: GroupMap, c: string)
    ensures c in Keys(gs) <==> Has(gs, c)
  {
    if Has(gs, c) {
      var g := HasIndex(gs, c);
      assert Keys(gs)[g] == c;
    }
    if c in Keys(gs) {
      var g :| 0 <= g < |gs| && Keys(gs)[g] == c;
      HasAt(gs, g);
    }
  }

  /** The first place of a key, or zero. */
  function PlaceOf(keys: seq<string>, c: string): (i: nat)
    ensures i < |keys| || i == 0
    ensures c in keys ==> i < |keys| && keys[i] == c
    ensures forall k :: 0 <= k < i ==> keys[k] != c
  {
    if |keys| == 0 || keys[0] == c then 0
    else
      var i := PlaceOf(keys[1..], c);
      assert keys == [keys[0]] + keys[1..];
      if c in keys then i + 1 else 0
  }

  /** Where the list of all countries is cut: at the preferred one, or where the seed says. */
  function Shift(gs: GroupMap, q: Query): (shift: nat)
    ensures shift <= |gs|
  {
    if q.preferred.Some? then PlaceOf(Keys(gs), q.preferred.value)
    else if |gs| == 0 then 0
    else q.seed % USIZE % |gs|
  }

  function Chosen(gs: GroupMap, q: Query): seq<string> {
    if q.requested.Some? then Present(gs, q.requested.value) else Rotated(Keys(gs), Shift(gs, q))
  }

  /** The countries a query draws on: all present, every one asked for, distinct, and the
      preferred one first. */
  lemma ChosenMeaning(gs: GroupMap, q: Query)
    requires Ordered(gs)
    ensures forall c :: c in Chosen(gs, q) <==> Has(gs, c) && (q.requested.Some? ==> c in q.requested.value)
    ensures q.requested.None? || Distinct(q.requested.value) ==> Distinct(Chosen(gs, q))
    ensures q.requested.None? && q.preferred.Some? && Has(gs, q.preferred.value) ==>
      |Chosen(gs, q)| > 0 && Chosen(gs, q)[0] == q.preferred.value
  {
    if q.requested.Some? {
      PresentMembers(gs, q.requested.value);
    } else {
      RotatedKeys(gs, Shift(gs, q));
      if q.preferred.Some? {
        KeysHave(gs, q.preferred.value);
      }
    }
  }

  /** Once round a circle of `n` places. */
  function Around(i: nat, n: nat): (j: nat)
    requires i < 2 * n
    ensures j < n
  {
    if i < n then i else i - n
  }

  /** The requested countries keep their order; all of them come in a circle that starts at the
      preferred one, or where the seed says. */
  lemma ChosenInOrder(gs: GroupMap, q: Query)
    ensures q.requested.Some? ==>
      forall a, b :: 0 <= a < b < |q.requested.value| && Has(gs, q.requested.value[a]) && Has(gs, q.requested.value[b])
        && Distinct(q.requested.value)
        ==> PlaceOf(Chosen(gs, q), q.requested.value[a]) < PlaceOf(Chosen(gs, q), q.requested.value[b])
    ensures q.requested.None? ==>
      var first := if q.preferred.Some? then PlaceOf(Keys(gs), q.preferred.value) else if |gs| == 0 then 0 else q.seed % 0x1_0000_0000 % |gs|;
      |Chosen(gs, q)| == |gs| && forall i :: 0 <= i < |gs| ==> Chosen(gs, q)[i] == Keys(gs)[Around(first + i, |gs|)]
  {
    if q.requested.Some? {
      forall a, b | 0 <= a < b < |q.requested.value| && Has(gs, q.requested.value[a]) && Has(gs, q.requested.value[b])
        && Distinct(q.requested.value)
        ensures PlaceOf(Chosen(gs, q), q.requested.value[a]) < PlaceOf(Chosen(gs, q), q.requested.value[b])
      {
        PresentInOrder(gs, q.requested.value, a, b);
      }
    } else {
      RotatedAt(Keys(gs), Shift(gs, q));
    }
  }

  lemma RotatedAt(s: seq<string>, shift: nat)
    requires shift <= |s|
    ensures forall i :: 0 <= i < |s| && shift < |s| ==> Rotated(s, shift)[i] == s[Around(shift + i, |s|)]
  {
  }

  lemma {:induction false} PresentInOrder(gs: GroupMap, requested: seq<string>, a: nat, b: nat)
    requires a < b < |requested| && Has(gs, requested[a]) && Has(gs, requested[b]) && Distinct(requested)
    ensures PlaceOf(Present(gs, requested), requested[a]) < PlaceOf(Present(gs, requested), requested[b])
  {
    var front, last := requested[..|requested| - 1], requested[|requested| - 1];
    var p := Present(gs, front);
    PresentMembers(gs, front);
    assert requested[a] == front[a] && requested[a] in p;
    if b < |front| {
      PresentInOrder(gs, front, a, b);
      assert requested[b] == front[b] && requested[b] in p;
      if Has(gs, last) {
        PlaceStays(p, last, requested[a]);
        PlaceStays(p, last, requested[b]);
      } else {
        NilRight(p);
      }
    } else {
      PlaceStays(p, last, requested[a]);
      assert last !in front;
      PlaceUnique(p + [last], last, |p|);
    }
  }

  lemma PlaceUnique(keys: seq<string>, c: string, i: nat)
    requires i < |keys| && keys[i] == c && forall k :: 0 <= k < i ==> keys[k] != c
    ensures PlaceOf(keys, c) == i
  {
  }

  lemma PlaceStays(keys: seq<string>, more: string, c: string)
    requires c in keys
    ensures PlaceOf(keys + [more], c) == PlaceOf(keys, c)
  {
    PlaceUnique(keys + [more], c, PlaceOf(keys, c));
  }

  method ChooseRequested(gs: GroupMap, requested: seq<string>) returns (groups: seq<string>)
    ensures groups == Present(gs, requested)
  {
    groups := [];
    for i := 0 to |requested|
      invariant groups == Present(gs, requested[..i])
    {
      assert requested[..i + 1][..i] == requested[..i];
      NilRight(groups);
      if Has(gs, requested[i]) {
        groups := groups + [requested[i]];
      }
    }
    WholeTake(requested);
  }

  method Position(keys: seq<string>, c: string) returns (i: Option<nat>)
    ensures i == if c in keys then Some(PlaceOf(keys, c)) else None
  {
    for n := 0 to |keys|
      invariant c !in keys[..n]
    {
      if keys[n] == c {
        return Some(n);
      }
    }
    WholeTake(keys);
    return None;
  }

  method ChooseGroups(gs: GroupMap, q: Query) returns (groups: seq<string>)
    ensures groups == Chosen(gs, q)
  {
    if q.requested.Some? {
      groups := ChooseRequested(gs, q.requested.value);
      return;
    }
    groups := Keys(gs);
    var shift := 0;
    if q.preferred.Some? {
      var index := Position(groups, q.preferred.value);
      if index.Some? {
        shift := index.value;
      }
    } else if |groups| > 0 {
      shift := q.seed % USIZE % |groups|;
    }
    groups := Rotated(groups, shift);
  }

  // ---------------------------------------------------------------- which endpoints

  /** Where group number `g` starts: `wrapping_add`, `wrapping_mul`, and a 32-bit `usize`. */
  function Offset(seed: nat, g: nat, len: nat): (o: nat)
    requires len > 0
    ensures o < len
  {
    Cursor(seed, g) % len
  }

  function Cursor(seed: nat, g: nat): nat {
    (seed + g * GOLDEN % WORD) % WORD % USIZE
  }

  /** The first country starts where the low 32 bits of the seed say, and every further one as
      the country before would with a seed larger by the golden ratio. */
  lemma CursorFollowsSeed(seed: nat, g: nat)
    requires seed < WORD
    ensures Cursor(seed, 0) == seed % 0x1_0000_0000
    ensures Cursor(seed, g + 1) == Cursor((seed + 0x9e37_79b9) % 0x1_0000_0000_0000_0000, g)
  {
    GoldenSteps(seed, g);
  }

  lemma GoldenSteps(seed: nat, g: nat)
    ensures (seed + (g + 1) * GOLDEN % WORD) % WORD == ((seed + GOLDEN) % WORD + g * GOLDEN % WORD) % WORD
  {
    var x := g * GOLDEN;
    assert (g + 1) * GOLDEN == x + GOLDEN;
    AddMod(seed, x + GOLDEN);
    AddMod((seed + GOLDEN) % WORD, x);
    AddMod(x, seed + GOLDEN);
    assert seed + (x + GOLDEN) == x + (seed + GOLDEN);
  }

  lemma AddMod(a: nat, b: nat)
    ensures (a + b % WORD) % WORD == (a + b) % WORD
  {
    var x, q := a + b % WORD, b / WORD;
    assert a + b == (x / WORD + q) * WORD + x % WORD;
  }

  /** Which endpoint a country shows at depth `d`: the one `d` places behind its start, round
      its list. */
  lemma ShownAt(gs: GroupMap, groups: seq<string>, seed: nat, p: RoundRobin.Pick)
    requires Exists(LensOf(gs, groups), p)
    ensures
      var list := ListOf(gs, groups[p.group]);
      var start := Cursor(seed, p.group) % |list|;
      EntryFor(gs, groups, seed, p)
      == Entry(list[Around(start + p.depth, |list|)], groups[p.group])
  {
    var len := |ListOf(gs, groups[p.group])|;
    RoundOnce(Offset(seed, p.group, len) + p.depth, len);
  }

  lemma RoundOnce(i: nat, n: nat)
    requires i < 2 * n
    ensures i % n == Around(i, n)
  {
    if i >= n {
      assert i == n * 1 + (i - n);
    }
  }

  function LensOf(gs: GroupMap, groups: seq<string>): (lens: seq<nat>)
    ensures |lens| == |groups| && forall g :: 0 <= g < |groups| ==> lens[g] == |ListOf(gs, groups[g])|
  {
    seq(|groups|, g requires 0 <= g < |groups| => |ListOf(gs, groups[g])|)
  }

  predicate Exists(lens: seq<nat>, p: RoundRobin.Pick) {
    p.group < |lens| && p.depth < lens[p.group]
  }

  function Place(seed: nat, p: RoundRobin.Pick, len: nat): (i: nat)
    requires p.depth < len
    ensures i < len
  {
    (Offset(seed, p.group, len) + p.depth) % len
  }

  function EntryFor(gs: GroupMap, groups: seq<string>, seed: nat, p: RoundRobin.Pick): Entry
    requires Exists(LensOf(gs, groups), p)
  {
    var list := ListOf(gs, groups[p.group]);
    Entry(list[Place(seed, p, |list|)], groups[p.group])
  }

  ghost predicate Shows(gs: GroupMap, groups: seq<string>, seed: nat, picks: seq<RoundRobin.Pick>, result: seq<Entry>) {
    && |result| == |picks|
    && forall k :: 0 <= k < |picks| ==> Exists(LensOf(gs, groups), picks[k]) && result[k] == EntryFor(gs, groups, seed, picks[k])
  }

  lemma ShowsSnoc(gs: GroupMap, groups: seq<string>, seed: nat, picks: seq<RoundRobin.Pick>, result: seq<Entry>,
                  p: RoundRobin.Pick)
    requires Shows(gs, groups, seed, picks, result) && Exists(LensOf(gs, groups), p)
    ensures Shows(gs, groups, seed, picks + [p], result + [EntryFor(gs, groups, seed, p)])
  {
  }

  ghost predicate Due(gs: GroupMap, groups: seq<string>, q: Query, result: seq<Entry>) {
    Shows(gs, groups, q.seed, RoundRobin.Deal(LensOf(gs, groups), q.maxCount), result)
  }

  /** The body of the inner loop. */
  method Next(gs: GroupMap, groups: seq<string>, seed: nat, d: nat, g: nat) returns (e: Option<Entry>)
    requires g < |groups|
    ensures e.Some? <==> d < LensOf(gs, groups)[g]
    ensures e.Some? ==> e.value == EntryFor(gs, groups, seed, RoundRobin.Pick(d, g))
  {
    var entries := ListOf(gs, groups[g]);
    if |entries| == 0 {
      return None;
    }
    var offset := Offset(seed, g, |entries|);
    if d >= |entries| {
      return None;
    }
    return Some(Entry(entries[(offset + d) % |entries|], groups[g]));
  }

  /** One pass over the countries: each gives its next endpoint, if it has one. */
  method Sweep(gs: GroupMap, groups: seq<string>, q: Query, d: nat, before: seq<Entry>)
      returns (result: seq<Entry>, added: bool)
    requires Shows(gs, groups, q.seed, RoundRobin.Picks(LensOf(gs, groups), d, 0), before) && |before| < q.maxCount
    ensures |result| <= q.maxCount
    ensures if |result| < q.maxCount
      then Shows(gs, groups, q.seed, RoundRobin.Picks(LensOf(gs, groups), d + 1, 0), result)
      else Due(gs, groups, q, result)
    ensures !added ==> |result| < q.maxCount && RoundRobin.Drained(LensOf(gs, groups), d, |groups|)
    ensures added ==> d < RoundRobin.Longest(LensOf(gs, groups))
  {
    ghost var lens := LensOf(gs, groups);
    result, added := before, false;
    for g := 0 to |groups|
      invariant Shows(gs, groups, q.seed, RoundRobin.Picks(lens, d, g), result) && |result| < q.maxCount
      invariant if added then d < RoundRobin.Longest(lens) else RoundRobin.Drained(lens, d, g)
    {
      NilRight(RoundRobin.Picks(lens, d, g));
      var next := Next(gs, groups, q.seed, d, g);
      if next.None? {
        continue;
      }
      ShowsSnoc(gs, groups, q.seed, RoundRobin.Picks(lens, d, g), result, RoundRobin.Pick(d, g));
      result := result + [next.value];
      added := true;
      if |result| == q.maxCount {
        RoundRobin.DealtAtMax(lens, d, g + 1, q.maxCount);
        return;
      }
    }
  }

  /** What `select` returns: the deal over the chosen countries, through their rotations. */
  method Select(gs: GroupMap, q: Query) returns (result: seq<Entry>)
    ensures Due(gs, Chosen(gs, q), q, result)
  {
    var groups := ChooseGroups(gs, q);
    result := [];
    ghost var lens := LensOf(gs, groups);
    if q.maxCount == 0 {
      return;
    }
    var depth: nat := 0;
    while |result| < q.maxCount
      invariant |result| <= q.maxCount
      invariant if |result| < q.maxCount
        then Shows(gs, groups, q.seed, RoundRobin.Picks(lens, depth, 0), result) else Due(gs, groups, q, result)
      decreases RoundRobin.Longest(lens) - depth, q.maxCount - |result|
    {
      var added;
      result, added := Sweep(gs, groups, q, depth, result);
      if !added {
        RoundRobin.DealtAll(lens, depth + 1, q.maxCount);
        break;
      }
      depth := depth + 1;
    }
  }

  // ---------------------------------------------------------------- what a selection is

  /** As many as asked for, if the countries hold as many. */
  lemma SelectedSize(gs: GroupMap, groups: seq<string>, q: Query, result: seq<Entry>)
    requires Due(gs, groups, q, result)
    ensures |result| == RoundRobin.Min(q.maxCount, RoundRobin.Sum(LensOf(gs, groups)))
  {
    RoundRobin.DealSize(LensOf(gs, groups), q.maxCount);
  }

  /** Each endpoint is stored under the country it is labelled with. */
  lemma SelectedListed(gs: GroupMap, groups: seq<string>, q: Query, result: seq<Entry>, k: nat)
    requires Due(gs, groups, q, result) && k < |result|
    ensures result[k].country in groups && result[k].at in ListOf(gs, result[k].country)
  {
  }

  lemma ListStored(gs: GroupMap, c: string, at: Endpoint) returns (g: nat)
    requires at in ListOf(gs, c)
    ensures g < |gs| && gs[g].country == c && gs[g].list == ListOf(gs, c)
  {
    if gs[0].country == c {
      return 0;
    }
    g := ListStored(gs[1..], c, at);
    g := g + 1;
  }

  /** Rotation visits every place of a list exactly once. */
  lemma PlaceInjective(seed: nat, p: RoundRobin.Pick, r: RoundRobin.Pick, len: nat)
    requires p.depth < len && r.depth < len && p.group == r.group && Place(seed, p, len) == Place(seed, r, len)
    ensures p.depth == r.depth
  {
    var o := Offset(seed, p.group, len);
    WrapOnce(o, p.depth, len);
    WrapOnce(o, r.depth, len);
  }

  lemma WrapOnce(o: nat, d: nat, len: nat)
    requires o < len && d < len
    ensures (o + d) % len == if o + d < len then o + d else o + d - len
  {
    if o + d >= len {
      assert o + d == 1 * len + (o + d - len);
    }
  }

  /** No endpoint is selected twice, for any seed. */
  lemma SelectedDistinct(gs: GroupMap, groups: seq<string>, q: Query, result: seq<Entry>, i: nat, j: nat)
    requires Dataset.Unique(gs) && Distinct(groups) && Due(gs, groups, q, result) && i < j < |result|
    ensures result[i].at != result[j].at
  {
    var lens := LensOf(gs, groups);
    var picks := RoundRobin.Deal(lens, q.maxCount);
    RoundRobin.DealOrder(lens, q.maxCount);
    var p, r := picks[i], picks[j];
    var a := ListStored(gs, result[i].country, result[i].at);
    var b := ListStored(gs, result[j].country, result[j].at);
    if result[i].at == result[j].at {
      assert a == b && groups[p.group] == groups[r.group];
      assert p.group == r.group;
      PlaceInjective(q.seed, p, r, lens[p.group]);
      assert false;
    }
  }

  function Labelled(result: seq<Entry>, c: string): nat {
    if |result| == 0 then 0
    else Labelled(result[..|result| - 1], c) + if result[|result| - 1].country == c then 1 else 0
  }

  lemma {:induction false} LabelledCount(gs: GroupMap, groups: seq<string>, seed: nat, picks: seq<RoundRobin.Pick>,
                                         result: seq<Entry>, g: nat)
    requires Distinct(groups) && g < |groups| && Shows(gs, groups, seed, picks, result)
    ensures Labelled(result, groups[g]) == RoundRobin.CountOf(picks, g)
    decreases |picks|
  {
    if |picks| > 0 {
      LabelledCount(gs, groups, seed, picks[..|picks| - 1], result[..|picks| - 1], g);
    }
  }

  /** Two chosen countries differ by at most one, unless the one with fewer gave all it has. */
  lemma SelectedFair(gs: GroupMap, groups: seq<string>, q: Query, result: seq<Entry>, c: string, k: string)
    requires Distinct(groups) && Due(gs, groups, q, result) && c in groups && k in groups
    ensures Labelled(result, c) <= |ListOf(gs, c)|
    ensures Labelled(result, c) == |ListOf(gs, c)| || Labelled(result, k) <= Labelled(result, c) + 1
  {
    var lens := LensOf(gs, groups);
    var picks := RoundRobin.Deal(lens, q.maxCount);
    var g :| 0 <= g < |groups| && groups[g] == c;
    var h :| 0 <= h < |groups| && groups[h] == k;
    RoundRobin.Fair(lens, q.maxCount, g, h);
    LabelledCount(gs, groups, q.seed, picks, result, g);
    LabelledCount(gs, groups, q.seed, picks, result, h);
  }
}
