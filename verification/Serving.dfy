/** From a feed and the filter of a request to the endpoints that are served: ingest, grouping,
    the filter and the selection together (`sub/src/proxyip.rs`, `sub/src/lib.rs`). */
module Serving {
  import opened Bytes
  import opened Country
  import opened ProxyIp
  import opened Groups
  import opened Selection
  import Dataset
  import RoundRobin

  /** How many endpoints the countries of a query hold. */
  function Stock(gs: GroupMap, q: Query): nat {
    RoundRobin.Sum(LensOf(gs, Chosen(gs, q)))
  }

  /** What a selection owes to the feed `entries` it was drawn from: as many endpoints as asked
      for if there are as many, none twice, each held under the country it is labelled with,
      that country asked for, and no country two behind another unless it is exhausted. */
  ghost predicate Promised(entries: seq<Entry>, gs: GroupMap, q: Query, result: seq<Entry>) {
    && |result| == RoundRobin.Min(q.maxCount, Stock(gs, q))
    && (forall i, j :: 0 <= i < j < |result| ==> result[i].at != result[j].at)
    && (forall k :: 0 <= k < |result| ==> result[k] in entries && (q.requested.Some? ==> result[k].country in q.requested.value))
    && (forall c, k :: c in Chosen(gs, q) && k in Chosen(gs, q) ==>
          Labelled(result, c) == |ListOf(gs, c)| || Labelled(result, k) <= Labelled(result, c) + 1)
  }

  /** What is stored under a country was held under it. */
  lemma StoredIsHeld(entries: seq<Entry>, gs: GroupMap, c: string, at: Endpoint)
    requires Capped(FullGroups(entries), gs) && at in ListOf(gs, c)
    ensures Entry(at, c) in entries
  {
    FullGroupsOf(entries);
    CappedFair(entries, FullGroups(entries), gs, c, c);
    Dataset.UnderMembers(entries, c, at);
    assert at in Under(entries, c);
  }

  lemma SelectionPromised(entries: seq<Entry>, gs: GroupMap, q: Query, result: seq<Entry>)
    requires Capped(FullGroups(entries), gs) && Ordered(gs) && Dataset.Unique(gs)
    requires q.requested.Some? ==> Distinct(q.requested.value)
    requires Due(gs, Chosen(gs, q), q, result)
    ensures Promised(entries, gs, q, result)
  {
    var groups := Chosen(gs, q);
    ChosenMeaning(gs, q);
    SelectedSize(gs, groups, q, result);
    forall i, j | 0 <= i < j < |result| ensures result[i].at != result[j].at {
      SelectedDistinct(gs, groups, q, result, i, j);
    }
    forall k | 0 <= k < |result|
      ensures result[k] in entries && (q.requested.Some? ==> result[k].country in q.requested.value)
    {
      SelectedListed(gs, groups, q, result, k);
      StoredIsHeld(entries, gs, result[k].country, result[k].at);
    }
    forall c, k | c in groups && k in groups
      ensures Labelled(result, c) == |ListOf(gs, c)| || Labelled(result, k) <= Labelled(result, c) + 1
    {
      SelectedFair(gs, groups, q, result, c, k);
    }
  }

  /** A feed that is accepted, a filter that parses, or no filter, and something to select: the
      selection keeps its promise, whatever the seed. */
  method Serve(records: seq<Record>, generatedAt: Option<string>, refreshedAtMs: nat, etag: Option<string>,
               filter: Option<string>, preferred: Option<string>, maxCount: nat, seed: nat)
      returns (ds: Option<Dataset.Dataset>, codes: Option<seq<string>>, result: Option<seq<Entry>>)
    requires |records| + |AllOffers(records)| <= Dataset.USIZE_MAX
    ensures ds.Some? <==>
      |records| > 0 && |Held(AllOffers(records))| >= Dataset.MIN_ACCEPTED_ENTRIES && refreshedAtMs != 0
    ensures filter.None? ==> codes.None?
    ensures filter.Some? ==>
      var all := Codes(Pieces(filter.value));
      codes == if all.Some? && all.value != [] then Some(Dedup(all.value)) else None
    ensures result.Some? <==>
      && ds.Some? && (filter.Some? ==> codes.Some?)
      && maxCount > 0 && Stock(ds.value.countries, Query(codes, preferred, maxCount, seed)) > 0
    ensures result.Some? ==>
      var gs, q := ds.value.countries, Query(codes, preferred, maxCount, seed);
      Due(gs, Chosen(gs, q), q, result.value) && Promised(Held(AllOffers(records)), gs, q, result.value)
  {
    ds := Dataset.FromSource(records, generatedAt, refreshedAtMs, etag);
    codes, result := None, None;
    if filter.Some? {
      codes := ParseFilter(filter.value);
      if codes.None? {
        return;
      }
    }
    if ds.None? {
      return;
    }
    var q := Query(codes, preferred, maxCount, seed);
    var selected := Select(ds.value.countries, q);
    SelectionPromised(Held(AllOffers(records)), ds.value.countries, q, selected);
    if |selected| == 0 {
      return;
    }
    result := Some(selected);
  }
}
