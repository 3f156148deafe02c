/** Datasets of `sub/src/proxyip.rs`: built from a feed, checked before use, and compared
    before one replaces another. */
module Dataset {
  import opened Bytes
  import opened Country
  import opened ProxyIp
  import opened Groups
  import Revision
  import RoundRobin

  const SOURCE_URL := "https://zip.cm.edu.kg/all.json"
  const SCHEMA_VERSION: nat := 2
  const MIN_ACCEPTED_ENTRIES: nat := 10

  const USIZE_MAX: nat := 0xffff_ffff

  /** A count on the 32-bit target. */
  type Usize = n: nat | n <= USIZE_MAX

  datatype Dataset = Dataset(
    schemaVersion: nat, revision: string, source: string, generatedAt: Option<string>, refreshedAtMs: nat,
    etag: Option<string>, accepted: Usize, rejected: Usize, duplicates: Usize, stored: Usize, countries: GroupMap)

  // ---------------------------------------------------------------- fitness for use

  predicate EndpointFit(at: Endpoint) {
    IsUsable(at.ip) && IsSupported(at.port)
  }

  ghost predicate GroupFit(g: Group) {
    IsCode(g.country) && g.list != [] && forall i :: 0 <= i < |g.list| ==> EndpointFit(g.list[i])
  }

  ghost predicate GroupsFit(gs: GroupMap) {
    forall g :: 0 <= g < |gs| ==> GroupFit(gs[g])
  }

  /** What `validate_for_use` accepts. */
  ghost predicate Fit(ds: Dataset) {
    && ds.schemaVersion == SCHEMA_VERSION && ds.source == SOURCE_URL && |ds.revision| == 24
    && ds.refreshedAtMs != 0 && ds.accepted >= MIN_ACCEPTED_ENTRIES
    && |ds.countries| > 0 && GroupsFit(ds.countries)
    && ds.stored == Total(ds.countries) <= MAX_PREPARED_ENTRIES
  }

  lemma {:induction false} TotalTake(gs: GroupMap, n: nat)
    requires n < |gs|
    ensures Total(gs[..n + 1]) == Total(gs[..n]) + |gs[n].list|
  {
    if n == 0 {
      assert gs[..1][1..] == [] && Total(gs[..0]) == 0;
    } else {
      TotalTake(gs[1..], n - 1);
      assert gs[..n + 1][1..] == gs[1..][..n] && gs[..n][1..] == gs[1..][..n - 1];
    }
  }

  lemma {:induction false} TotalPositive(gs: GroupMap)
    requires |gs| > 0 && gs[0].list != []
    ensures Total(gs) > 0
  {
  }

  method CheckGroup(g: Group) returns (ok: bool)
    ensures ok <==> GroupFit(g)
  {
    NormalizeFixes(g.country);
    if NormalizeCountry(Some(g.country)) != g.country || |g.list| == 0 {
      return false;
    }
    for i := 0 to |g.list|
      invariant forall j :: 0 <= j < i ==> EndpointFit(g.list[j])
    {
      if !IsUsable(g.list[i].ip) || !IsSupported(g.list[i].port) {
        assert !EndpointFit(g.list[i]);
        return false;
      }
    }
    return true;
  }

  method ValidateForUse(ds: Dataset) returns (ok: bool)
    ensures ok <==> Fit(ds)
  {
    if ds.schemaVersion != SCHEMA_VERSION || ds.source != SOURCE_URL || |ds.revision| != 24
       || ds.refreshedAtMs == 0 || ds.accepted < MIN_ACCEPTED_ENTRIES || |ds.countries| == 0 {
      return false;
    }
    var count := 0;
    for g := 0 to |ds.countries|
      invariant forall h :: 0 <= h < g ==> GroupFit(ds.countries[h])
      invariant count == Total(ds.countries[..g])
    {
      var fit := CheckGroup(ds.countries[g]);
      if !fit {
        return false;
      }
      TotalTake(ds.countries, g);
      count := count + |ds.countries[g].list|;
    }
    WholeTake(ds.countries);
    assert GroupFit(ds.countries[0]);
    TotalPositive(ds.countries);
    return count == ds.stored && count != 0 && count <= MAX_PREPARED_ENTRIES;
  }

  // ---------------------------------------------------------------- what the pipeline builds

  lemma {:induction false} UnderMembers(entries: seq<Entry>, c: string, at: Endpoint)
    ensures at in Under(entries, c) <==> Entry(at, c) in entries
    decreases |entries|
  {
    if |entries| > 0 {
      InitLast(entries);
      UnderMembers(entries[..|entries| - 1], c, at);
    }
  }

  lemma {:induction false} UnderDistinct(entries: seq<Entry>, c: string)
    requires DistinctEndpoints(entries)
    ensures Distinct(Under(entries, c))
    decreases |entries|
  {
    if |entries| > 0 {
      var front, last := entries[..|entries| - 1], entries[|entries| - 1];
      UnderDistinct(front, c);
      UnderMembers(front, c, last.at);
    }
  }

  lemma UnderDisjoint(entries: seq<Entry>, c: string, k: string, at: Endpoint)
    requires DistinctEndpoints(entries) && at in Under(entries, c) && at in Under(entries, k)
    ensures c == k
  {
    UnderMembers(entries, c, at);
    UnderMembers(entries, k, at);
  }

  lemma CappedGroup(entries: seq<Entry>, full: GroupMap, out: GroupMap, g: nat)
    requires GroupsOf(entries, full) && Capped(full, out) && g < |out|
    ensures out[g].list != [] && out[g].list <= Under(entries, out[g].country)
  {
    ListAt(out, g);
    CappedFair(entries, full, out, out[g].country, out[g].country);
  }

  /** Everything kept was accepted under that country. */
  lemma CappedFit(entries: seq<Entry>, full: GroupMap, out: GroupMap)
    requires GroupsOf(entries, full) && Capped(full, out) && AllSound(entries)
    ensures GroupsFit(out)
  {
    forall g | 0 <= g < |out| ensures GroupFit(out[g]) {
      CappedGroup(entries, full, out, g);
      forall i | 0 <= i < |out[g].list| ensures EndpointFit(out[g].list[i]) && IsCode(out[g].country) {
        var at := out[g].list[i];
        assert at == Under(entries, out[g].country)[i];
        UnderMembers(entries, out[g].country, at);
      }
      assert EndpointFit(out[g].list[0]);
    }
  }

  lemma {:induction false} SumPositive(s: seq<nat>)
    requires |s| > 0 && s[|s| - 1] > 0
    ensures RoundRobin.Sum(s) > 0
  {
  }

  lemma CappedNonempty(entries: seq<Entry>, full: GroupMap, out: GroupMap)
    requires GroupsOf(entries, full) && Capped(full, out) && |entries| > 0
    ensures |out| > 0
  {
    CappedTotal(full, out);
    SumPositive(Lens(full));
  }

  /** No endpoint is stored twice, under one country or two. */
  ghost predicate Unique(gs: GroupMap) {
    && (forall g :: 0 <= g < |gs| ==> Distinct(gs[g].list))
    && (forall g, h, at :: 0 <= g < |gs| && 0 <= h < |gs| && at in gs[g].list && at in gs[h].list ==> g == h)
  }

  lemma CappedUnique(entries: seq<Entry>, full: GroupMap, out: GroupMap)
    requires GroupsOf(entries, full) && Capped(full, out) && DistinctEndpoints(entries)
    ensures Unique(out)
  {
    forall g | 0 <= g < |out| ensures Distinct(out[g].list) {
      CappedGroup(entries, full, out, g);
      UnderDistinct(entries, out[g].country);
    }
    forall g, h, at | 0 <= g < |out| && 0 <= h < |out| && at in out[g].list && at in out[h].list ensures g == h {
      CappedGroup(entries, full, out, g);
      CappedGroup(entries, full, out, h);
      UnderDisjoint(entries, out[g].country, out[h].country, at);
      LessIrreflexive(out[g].country);
    }
  }

  /** All that the closing check and later selections need of the capped groups. */
  lemma {:induction false} CappedUsable(entries: seq<Entry>, out: GroupMap)
    requires Capped(FullGroups(entries), out) && AllSound(entries) && DistinctEndpoints(entries) && |entries| > 0
    ensures GroupsFit(out) && |out| > 0 && Total(out) <= MAX_PREPARED_ENTRIES && Ordered(out) && Unique(out)
  {
    var full := FullGroups(entries);
    FullGroupsOf(entries);
    CappedTotal(full, out);
    CappedFit(entries, full, out);
    CappedNonempty(entries, full, out);
    CappedUnique(entries, full, out);
  }

  method CountStored(countries: GroupMap) returns (stored: nat)
    ensures stored == Total(countries)
  {
    stored := 0;
    for g := 0 to |countries|
      invariant stored == Total(countries[..g])
    {
      TotalTake(countries, g);
      stored := stored + |countries[g].list|;
    }
    WholeTake(countries);
  }

  lemma {:induction false} GroupsAtMostTotal(gs: GroupMap)
    requires forall g :: 0 <= g < |gs| ==> gs[g].list != []
    ensures |gs| <= Total(gs)
  {
    if |gs| > 0 {
      GroupsAtMostTotal(gs[1..]);
    }
  }

  /** Capped groups have a text far below the limit of the hash. */
  lemma FitTextBound(gs: GroupMap)
    requires GroupsFit(gs) && Total(gs) <= MAX_PREPARED_ENTRIES
    ensures |Revision.GroupsText(gs)| < Revision.LIMIT
  {
    forall g | 0 <= g < |gs| ensures gs[g].list != [] && |gs[g].country| == 2 {
      assert GroupFit(gs[g]);
    }
    GroupsAtMostTotal(gs);
    Revision.TextBound(gs);
  }

  /** How a dataset accounts for the feed it was built from. */
  ghost predicate Accounts(ds: Dataset, records: seq<Record>) {
    var entries := Held(AllOffers(records));
    && ds.accepted == |entries|
    && ds.accepted + ds.duplicates == |AllOffers(records)|
    && ds.rejected == RejectedCount(records)
    && Capped(FullGroups(entries), ds.countries)
  }

  lemma {:induction false} RejectedBound(records: seq<Record>)
    ensures RejectedCount(records) <= |records|
  {
    if |records| > 0 {
      RejectedBound(records[..|records| - 1]);
    }
  }

  /** `from_source` on parsed records, few enough to be counted (the source text is at most
      20 MiB). The closing check rejects nothing the pipeline built:
      the feed is refused exactly if it is empty, too small, or dated zero. */
  method FromSource(records: seq<Record>, generatedAt: Option<string>, refreshedAtMs: nat, etag: Option<string>)
      returns (r: Option<Dataset>)
    requires |records| + |AllOffers(records)| <= USIZE_MAX
    ensures r.Some? <==>
      |records| > 0 && |Held(AllOffers(records))| >= MIN_ACCEPTED_ENTRIES && refreshedAtMs != 0
    ensures r.Some? ==> Revision.IsRevision(r.value.revision, r.value.countries)
    ensures r.Some? ==> r.value.generatedAt == generatedAt && r.value.refreshedAtMs == refreshedAtMs && r.value.etag == etag
    ensures r.Some? ==>
      Fit(r.value) && Accounts(r.value, records) && Ordered(r.value.countries) && Unique(r.value.countries)
  {
    r := None;
    if |records| == 0 {
      return;
    }
    var entries, rejected, duplicates := Ingest(records);
    if |entries| < MIN_ACCEPTED_ENTRIES {
      return;
    }
    var countries := PrepareCompactGroups(entries);
    CappedUsable(entries, countries);
    var stored := CountStored(countries);
    RejectedBound(records);
    FitTextBound(countries);
    var revision := Revision.RevisionFor(countries);
    var dataset := Dataset(SCHEMA_VERSION, revision, SOURCE_URL, generatedAt, refreshedAtMs, etag,
                           |entries|, rejected, duplicates, stored, countries);
    var ok := ValidateForUse(dataset);
    if ok {
      r := Some(dataset);
    }
  }

  // ---------------------------------------------------------------- promotion

  function SaturatingMul4(n: Usize): Usize {
    RoundRobin.Min(4 * n, USIZE_MAX)
  }

  /** The guard against a feed that suddenly shrank. */
  predicate SuspiciousDrop(previous: Usize, candidate: Usize) {
    previous >= 100 && SaturatingMul4(candidate) < previous
  }

  ghost predicate Promotable(previous: Option<Dataset>, candidate: Dataset) {
    && Fit(candidate)
    && (previous.Some? ==> Fit(previous.value) && !SuspiciousDrop(previous.value.accepted, candidate.accepted))
  }

  /** `validate_promotion` */
  method ValidatePromotion(previous: Option<Dataset>, candidate: Dataset) returns (ok: bool)
    ensures ok <==> Promotable(previous, candidate)
  {
    ok := ValidateForUse(candidate);
    if !ok {
      return false;
    }
    if previous.Some? {
      ok := ValidateForUse(previous.value);
      if !ok {
        return false;
      }
      if previous.value.accepted >= 100 && SaturatingMul4(candidate.accepted) < previous.value.accepted {
        return false;
      }
    }
    return true;
  }

  /** Saturation makes no difference: a promotion keeps at least a quarter of a generation
      of a hundred entries or more. */
  lemma QuarterKept(previous: Usize, candidate: Usize)
    ensures SuspiciousDrop(previous, candidate) <==> previous >= 100 && 4 * candidate < previous
  {
  }
}
