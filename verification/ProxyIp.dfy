/** The dataset pipeline of `sub/src/proxyip.rs`: what is usable, how reports of the same
    endpoint merge, and how they group by country. */
module ProxyIp {
  import opened Bytes
  import opened Country

  datatype Endpoint = Endpoint(ip: u32, port: u16)

  /** One endpoint with the country it is listed under. */
  datatype Entry = Entry(at: Endpoint, country: string)

  /** A record of the feed, its address already parsed; none if absent or not IPv4. */
  datatype Record = Record(ip: Option<u32>, ports: seq<u16>, metaPort: Option<u16>, country: Option<string>)

  // ---------------------------------------------------------------- addresses and ports

  predicate UsableOctets(a: int, b: int, c: int, d: int) {
    !(a == 0
      || a == 10
      || a == 127
      || (a == 100 && 64 <= b <= 127)
      || (a == 169 && b == 254)
      || (a == 172 && 16 <= b <= 31)
      || (a == 192 && b == 0 && c == 0)
      || (a == 192 && b == 0 && c == 2)
      || (a == 192 && b == 88 && c == 99)
      || (a == 192 && b == 168)
      || (a == 198 && (b == 18 || b == 19))
      || (a == 198 && b == 51 && c == 100)
      || (a == 203 && b == 0 && c == 113)
      || a >= 224
      || (a == 255 && b == 255 && c == 255 && d == 255))
  }

  predicate IsUsable(ip: u32) {
    UsableOctets(ip / 0x100_0000, ip / 0x1_0000 % 256, ip / 0x100 % 256, ip % 256)
  }

  predicate IsSupported(port: u16) {
    port == 443 || port == 2053 || port == 2083 || port == 2087 || port == 2096 || port == 8443
  }

  /** The number of a dotted address. */
  function Address(a: byte, b: byte, c: byte, d: byte): u32 {
    ((a * 256 + b) * 256 + c) * 256 + d
  }

  /** A block of addresses: the first one, and how many. */
  datatype Block = Block(first: u32, size: nat)

  predicate InBlock(ip: u32, b: Block) {
    b.first <= ip < b.first + b.size
  }

  /** The blocks that are not endpoints on the public Internet. */
  const RESERVED: seq<Block> := [
    Block(Address(0, 0, 0, 0), 0x100_0000), Block(Address(10, 0, 0, 0), 0x100_0000), Block(Address(127, 0, 0, 0), 0x100_0000),
    Block(Address(100, 64, 0, 0), 0x40_0000), Block(Address(169, 254, 0, 0), 0x1_0000),
    Block(Address(172, 16, 0, 0), 0x10_0000), Block(Address(192, 0, 0, 0), 0x100), Block(Address(192, 0, 2, 0), 0x100),
    Block(Address(192, 88, 99, 0), 0x100), Block(Address(192, 168, 0, 0), 0x1_0000),
    Block(Address(198, 18, 0, 0), 0x2_0000), Block(Address(198, 51, 100, 0), 0x100),
    Block(Address(203, 0, 113, 0), 0x100), Block(Address(224, 0, 0, 0), 0x2000_0000)]

  lemma OctetsOf(ip: u32)
    ensures
      var a, b, c, d := ip / 0x100_0000, ip / 0x1_0000 % 256, ip / 0x100 % 256, ip % 256;
      0 <= a < 256 && ip == Address(a, b, c, d)
  {
    assert ip / 0x100 == ip / 0x1_0000 * 256 + ip / 0x100 % 256;
    assert ip / 0x1_0000 == ip / 0x100_0000 * 256 + ip / 0x1_0000 % 256;
  }

  lemma InSomeBlock(a: byte, b: byte, c: byte, d: byte) returns (k: nat)
    requires !UsableOctets(a, b, c, d)
    ensures k < |RESERVED| && InBlock(Address(a, b, c, d), RESERVED[k])
  {
    k := if a == 0 then 0 else if a == 10 then 1 else if a == 127 then 2 else if a == 100 then 3 else if a == 169 then 4
      else if a == 172 then 5 else if a == 192 && b == 0 && c == 0 then 6 else if a == 192 && b == 0 then 7
      else if a == 192 && b == 88 then 8 else if a == 192 then 9 else if a == 198 && b != 51 then 10
      else if a == 198 then 11 else if a == 203 then 12 else 13;
  }

  lemma InNoBlock(a: byte, b: byte, c: byte, d: byte, k: nat)
    requires UsableOctets(a, b, c, d) && k < |RESERVED|
    ensures !InBlock(Address(a, b, c, d), RESERVED[k])
  {
    if k < 6 {
      InNoWideBlock(a, b, c, d, k);
    } else {
      InNoNarrowBlock(a, b, c, d, k);
    }
  }

  lemma InNoWideBlock(a: byte, b: byte, c: byte, d: byte, k: nat)
    requires UsableOctets(a, b, c, d) && k < 6
    ensures !InBlock(Address(a, b, c, d), RESERVED[k])
  {
  }

  lemma InNoNarrowBlock(a: byte, b: byte, c: byte, d: byte, k: nat)
    requires UsableOctets(a, b, c, d) && 6 <= k < |RESERVED|
    ensures !InBlock(Address(a, b, c, d), RESERVED[k])
  {
  }

  /** An address is usable exactly if it is in none of the blocks. */
  lemma UsableExactly(ip: u32)
    ensures IsUsable(ip) <==> forall k :: 0 <= k < |RESERVED| ==> !InBlock(ip, RESERVED[k])
  {
    var a, b, c, d := ip / 0x100_0000, ip / 0x1_0000 % 256, ip / 0x100 % 256, ip % 256;
    OctetsOf(ip);
    if IsUsable(ip) {
      forall k | 0 <= k < |RESERVED| ensures !InBlock(ip, RESERVED[k]) {
        InNoBlock(a, b, c, d, k);
      }
    } else {
      var k := InSomeBlock(a, b, c, d);
    }
  }

  const PORTS: seq<u16> := [443, 2053, 2083, 2087, 2096, 8443]

  lemma SupportedExactly(port: u16)
    ensures IsSupported(port) <==> port in PORTS
  {
    assert PORTS[0] == 443 && PORTS[1] == 2053 && PORTS[2] == 2083 && PORTS[3] == 2087 && PORTS[4] == 2096 && PORTS[5] == 8443;
  }

  /** `sort_unstable` */
  function Sorted(s: seq<u16>): seq<u16> {
    if |s| == 0 then [] else Inserted(Sorted(s[1..]), s[0])
  }

  function Inserted(s: seq<u16>, p: u16): seq<u16> {
    if |s| == 0 || p <= s[0] then [p] + s else [s[0]] + Inserted(s[1..], p)
  }

  /** `dedup`: runs of equal elements shrink to one. */
  function Deduped(s: seq<u16>): seq<u16> {
    if |s| <= 1 then s
    else if s[0] == s[1] then Deduped(s[1..])
    else [s[0]] + Deduped(s[1..])
  }

  /** `retain(is_supported_port)` */
  function Retained(s: seq<u16>): seq<u16> {
    if |s| == 0 then []
    else if IsSupported(s[0]) then [s[0]] + Retained(s[1..])
    else Retained(s[1..])
  }

  predicate Rising(s: seq<u16>) {
    forall i :: 0 < i < |s| ==> s[i - 1] < s[i]
  }

  predicate Climbing(s: seq<u16>) {
    forall i :: 0 < i < |s| ==> s[i - 1] <= s[i]
  }

  lemma {:induction false} InsertedClimbs(s: seq<u16>, p: u16)
    requires Climbing(s)
    ensures Climbing(Inserted(s, p)) && forall x :: x in Inserted(s, p) <==> x == p || x in s
    ensures |Inserted(s, p)| > 0 && (Inserted(s, p)[0] == p || (|s| > 0 && Inserted(s, p)[0] == s[0]))
  {
    if |s| > 0 && p > s[0] {
      assert Climbing(s[1..]);
      InsertedClimbs(s[1..], p);
      HeadTail(s);
    }
  }

  lemma {:induction false} SortedClimbs(s: seq<u16>)
    ensures Climbing(Sorted(s)) && forall x :: x in Sorted(s) <==> x in s
  {
    if |s| > 0 {
      SortedClimbs(s[1..]);
      InsertedClimbs(Sorted(s[1..]), s[0]);
      HeadTail(s);
    }
  }

  lemma {:induction false} DedupedRises(s: seq<u16>)
    requires Climbing(s)
    ensures Rising(Deduped(s)) && forall x :: x in Deduped(s) <==> x in s
    ensures |s| > 0 ==> |Deduped(s)| > 0 && Deduped(s)[0] == s[0]
  {
    if |s| > 1 {
      assert Climbing(s[1..]);
      DedupedRises(s[1..]);
      HeadTail(s);
      assert s[1..][0] == s[1];
    }
  }

  lemma {:induction false} RetainedRises(s: seq<u16>)
    requires Rising(s)
    ensures Rising(Retained(s)) && forall x :: x in Retained(s) <==> x in s && IsSupported(x)
    ensures |s| > 0 && |Retained(s)| > 0 ==> s[0] <= Retained(s)[0]
  {
    if |s| > 0 {
      assert Rising(s[1..]);
      RetainedRises(s[1..]);
      HeadTail(s);
      if |s| > 1 {
        assert s[0] < s[1];
        assert s[1..][0] == s[1];
      }
    }
  }

  /** The ports a record offers: its list, or the port of its metadata if it lists none. */
  function ListedPorts(r: Record): seq<u16> {
    if |r.ports| == 0 && r.metaPort.Some? then [r.metaPort.value] else r.ports
  }

  function PortsOf(r: Record): seq<u16> {
    Retained(Deduped(Sorted(ListedPorts(r))))
  }

  /** Each supported port once, in increasing order. */
  lemma PortsMeaning(r: Record)
    ensures Rising(PortsOf(r))
    ensures forall p :: p in PortsOf(r) <==> p in ListedPorts(r) && IsSupported(p)
  {
    SortedClimbs(ListedPorts(r));
    DedupedRises(Sorted(ListedPorts(r)));
    RetainedRises(Deduped(Sorted(ListedPorts(r))));
  }

  predicate Rejected(r: Record) {
    r.ip.None? || !IsUsable(r.ip.value) || PortsOf(r) == []
  }

  function RejectedCount(records: seq<Record>): nat {
    if |records| == 0 then 0
    else RejectedCount(records[..|records| - 1]) + if Rejected(records[|records| - 1]) then 1 else 0
  }

  /** The endpoints a record reports. */
  function Offers(r: Record): (os: seq<Entry>)
    ensures Rejected(r) ==> os == []
    ensures !Rejected(r) ==> |os| == |PortsOf(r)|
  {
    if Rejected(r) then []
    else seq(|PortsOf(r)|, i requires 0 <= i < |PortsOf(r)| =>
               Entry(Endpoint(r.ip.value, PortsOf(r)[i]), NormalizeCountry(r.country)))
  }

  function AllOffers(records: seq<Record>): seq<Entry> {
    if |records| == 0 then [] else AllOffers(records[..|records| - 1]) + Offers(records[|records| - 1])
  }

  /** The record reports this endpoint under this country: a usable address of its own, and a
      supported port that it lists, or that its metadata has if it lists none. */
  ghost predicate Reports(r: Record, e: Entry) {
    && r.ip == Some(e.at.ip) && (forall k :: 0 <= k < |RESERVED| ==> !InBlock(e.at.ip, RESERVED[k]))
    && e.at.port in PORTS && (e.at.port in r.ports || (r.ports == [] && r.metaPort == Some(e.at.port)))
    && e.country == NormalizeCountry(r.country)
  }

  lemma OffersExactly(r: Record, e: Entry)
    ensures e in Offers(r) <==> Reports(r, e)
  {
    PortsMeaning(r);
    UsableExactly(e.at.ip);
    SupportedExactly(e.at.port);
    if Reports(r, e) {
      var i :| 0 <= i < |PortsOf(r)| && PortsOf(r)[i] == e.at.port;
      assert Offers(r)[i] == e;
    }
  }

  /** What a feed offers is what its records report. */
  lemma {:induction false} AllOffersExactly(records: seq<Record>, e: Entry)
    ensures e in AllOffers(records) <==> exists i :: 0 <= i < |records| && Reports(records[i], e)
    decreases |records|
  {
    if |records| > 0 {
      var front, last := records[..|records| - 1], records[|records| - 1];
      AllOffersExactly(front, e);
      OffersExactly(last, e);
      InitLast(records);
      assert forall i :: 0 <= i < |front| ==> front[i] == records[i];
    }
  }

  // ---------------------------------------------------------------- merging

  function Find(held: seq<Entry>, at: Endpoint): (i: Option<nat>)
    ensures i.Some? ==> i.value < |held| && held[i.value].at == at
    ensures i.None? ==> forall k :: 0 <= k < |held| ==> held[k].at != at
  {
    if |held| == 0 then None
    else if held[|held| - 1].at == at then Some(|held| - 1)
    else Find(held[..|held| - 1], at)
  }

  /** One report: a new endpoint joins at the end, a known one may change country. */
  function Absorb(held: seq<Entry>, o: Entry): seq<Entry> {
    match Find(held, o.at)
    case None => held + [o]
    case Some(i) => held[i := Entry(o.at, Merge(held[i].country, o.country))]
  }

  function Held(os: seq<Entry>): seq<Entry> {
    if |os| == 0 then [] else Absorb(Held(os[..|os| - 1]), os[|os| - 1])
  }

  predicate DistinctEndpoints(held: seq<Entry>) {
    forall i, j :: 0 <= i < j < |held| ==> held[i].at != held[j].at
  }

  lemma AbsorbDistinct(held: seq<Entry>, o: Entry)
    requires DistinctEndpoints(held)
    ensures DistinctEndpoints(Absorb(held, o))
  {
  }

  lemma {:induction false} HeldDistinct(os: seq<Entry>)
    ensures DistinctEndpoints(Held(os))
    decreases |os|
  {
    if |os| > 0 {
      HeldDistinct(os[..|os| - 1]);
      AbsorbDistinct(Held(os[..|os| - 1]), os[|os| - 1]);
    }
  }

  lemma FindUnique(held: seq<Entry>, i: nat)
    requires DistinctEndpoints(held) && i < |held|
    ensures Find(held, held[i].at) == Some(i)
  {
  }

  function CountryAt(held: seq<Entry>, at: Endpoint): Option<string> {
    match Find(held, at)
    case None => None
    case Some(i) => Some(held[i].country)
  }

  lemma AbsorbCountry(held: seq<Entry>, o: Entry, at: Endpoint)
    requires DistinctEndpoints(held)
    ensures CountryAt(Absorb(held, o), at)
      == if at != o.at then CountryAt(held, at)
         else if CountryAt(held, at).Some? then Some(Merge(CountryAt(held, at).value, o.country))
         else Some(o.country)
  {
    var after := Absorb(held, o);
    AbsorbDistinct(held, o);
    var f := Find(held, at);
    if f.Some? {
      assert after[f.value].at == at;
      FindUnique(after, f.value);
    } else if at == o.at {
      FindUnique(after, |held|);
    }
  }

  /** The codes reported for one endpoint, in order. */
  function CodesFor(os: seq<Entry>, at: Endpoint): seq<string> {
    if |os| == 0 then []
    else
      var before, o := CodesFor(os[..|os| - 1], at), os[|os| - 1];
      if o.at == at then before + [o.country] else before
  }

  lemma MergeAllSnoc(cs: seq<string>, c: string)
    ensures MergeAll(cs + [c]) == if |cs| == 0 then c else Merge(MergeAll(cs), c)
  {
    assert (cs + [c])[..|cs|] == cs;
  }

  /** An endpoint is held exactly if it was reported, under the merge of its reports. */
  lemma {:induction false} HeldCountry(os: seq<Entry>, at: Endpoint)
    ensures CountryAt(Held(os), at)
      == if CodesFor(os, at) == [] then None else Some(MergeAll(CodesFor(os, at)))
    decreases |os|
  {
    if |os| > 0 {
      var front, o := os[..|os| - 1], os[|os| - 1];
      HeldCountry(front, at);
      HeldDistinct(front);
      AbsorbCountry(Held(front), o, at);
      MergeAllSnoc(CodesFor(front, at), o.country);
    }
  }

  /** The country of an endpoint is the least code reported for it, unless "XX" is the
      least and another code came last. */
  lemma HeldCountryIsLeast(os: seq<Entry>, i: nat)
    requires i < |Held(os)|
    ensures
      var e := Held(os)[i];
      var cs := CodesFor(os, e.at);
      |cs| > 0 && (e.country == Least(cs) <==> Least(cs) != UNKNOWN || cs[|cs| - 1] == UNKNOWN)
  {
    var e := Held(os)[i];
    HeldDistinct(os);
    FindUnique(Held(os), i);
    HeldCountry(os, e.at);
    MergeAllIsLeast(CodesFor(os, e.at));
  }

  ghost predicate Sound(e: Entry) {
    IsUsable(e.at.ip) && IsSupported(e.at.port) && IsCode(e.country)
  }

  ghost predicate AllSound(es: seq<Entry>) {
    forall i :: 0 <= i < |es| ==> Sound(es[i])
  }

  lemma OffersSound(r: Record)
    ensures AllSound(Offers(r))
  {
    PortsMeaning(r);
    NormalizeGivesCode(r.country);
  }

  lemma {:induction false} AllOffersSound(records: seq<Record>)
    ensures AllSound(AllOffers(records))
    decreases |records|
  {
    if |records| > 0 {
      AllOffersSound(records[..|records| - 1]);
      OffersSound(records[|records| - 1]);
    }
  }

  lemma {:induction false} HeldSound(os: seq<Entry>)
    requires AllSound(os)
    ensures AllSound(Held(os))
    decreases |os|
  {
    if |os| > 0 {
      HeldSound(os[..|os| - 1]);
    }
  }

  // ---------------------------------------------------------------- the ingest loop

  /** `positions` is the index of `entries`. */
  ghost predicate Indexed(entries: seq<Entry>, positions: map<Endpoint, nat>) {
    && (forall at :: at in positions ==> positions[at] < |entries| && entries[positions[at]].at == at)
    && (forall i :: 0 <= i < |entries| ==> entries[i].at in positions)
  }

  datatype Tally = Tally(entries: seq<Entry>, positions: map<Endpoint, nat>, duplicates: nat)

  /** After the reports `os`: entries merged, each report either accepted or a duplicate. */
  ghost predicate Tallied(os: seq<Entry>, t: Tally) {
    && t.entries == Held(os) && Indexed(t.entries, t.positions)
    && |t.entries| + t.duplicates == |os|
  }

  lemma FindIndexed(entries: seq<Entry>, positions: map<Endpoint, nat>, at: Endpoint)
    requires Indexed(entries, positions) && DistinctEndpoints(entries)
    ensures Find(entries, at) == if at in positions then Some(positions[at]) else None
  {
  }

  lemma IndexedAppend(entries: seq<Entry>, positions: map<Endpoint, nat>, o: Entry)
    requires Indexed(entries, positions) && o.at !in positions
    ensures Indexed(entries + [o], positions[o.at := |entries|])
  {
  }

  lemma IndexedUpdate(entries: seq<Entry>, positions: map<Endpoint, nat>, at: Endpoint, country: string)
    requires Indexed(entries, positions) && at in positions
    ensures Indexed(entries[positions[at] := Entry(at, country)], positions)
  {
  }

  lemma HeldSnoc(os: seq<Entry>, o: Entry)
    ensures Held(os + [o]) == Absorb(Held(os), o)
  {
    assert (os + [o])[..|os|] == os;
  }

  method IngestOne(ghost os: seq<Entry>, t: Tally, o: Entry) returns (t': Tally)
    requires Tallied(os, t)
    ensures Tallied(os + [o], t')
  {
    HeldDistinct(os);
    FindIndexed(t.entries, t.positions, o.at);
    HeldSnoc(os, o);
    if o.at in t.positions {
      var index := t.positions[o.at];
      var existing := t.entries[index].country;
      var merged := existing;
      if o.country != existing && (existing == UNKNOWN || Less(o.country, existing)) {
        merged := o.country;
      }
      IndexedUpdate(t.entries, t.positions, o.at, merged);
      t' := Tally(t.entries[index := Entry(o.at, merged)], t.positions, t.duplicates + 1);
    } else {
      IndexedAppend(t.entries, t.positions, o);
      t' := Tally(t.entries + [o], t.positions[o.at := |t.entries|], t.duplicates);
    }
  }

  /** Port number `i` of a record that is not rejected. */
  lemma OfferAt(r: Record, i: nat)
    requires !Rejected(r) && i < |PortsOf(r)|
    ensures Offers(r)[..i + 1] == Offers(r)[..i] + [Entry(Endpoint(r.ip.value, PortsOf(r)[i]), NormalizeCountry(r.country))]
  {
  }

  /** The inner loop of `from_source`, over the ports of one record. */
  method IngestRecord(ghost os: seq<Entry>, t: Tally, r: Record) returns (t': Tally, rejected: bool)
    requires Tallied(os, t)
    ensures Tallied(os + Offers(r), t') && rejected == Rejected(r)
  {
    t' := t;
    NilRight(os);
    if r.ip.None? {
      return t, true;
    }
    if !IsUsable(r.ip.value) {
      return t, true;
    }
    var ports := r.ports;
    if |ports| == 0 && r.metaPort.Some? {
      ports := [r.metaPort.value];
    }
    ports := Retained(Deduped(Sorted(ports)));
    if |ports| == 0 {
      return t, true;
    }
    rejected := false;
    assert !Rejected(r) && ports == PortsOf(r);
    t' := IngestPorts(os, t, r, ports);
  }

  method IngestPorts(ghost os: seq<Entry>, t: Tally, r: Record, ports: seq<u16>) returns (t': Tally)
    requires Tallied(os, t) && !Rejected(r) && ports == PortsOf(r)
    ensures Tallied(os + Offers(r), t')
  {
    t' := t;
    NilRight(os);
    var country := NormalizeCountry(r.country);
    ghost var offers := Offers(r);
    for i := 0 to |ports|
      invariant Tallied(os + offers[..i], t')
    {
      var o := Entry(Endpoint(r.ip.value, ports[i]), country);
      t' := IngestOne(os + offers[..i], t', o);
      OfferAt(r, i);
      Assoc(os, offers[..i], [o]);
    }
    WholeTake(offers);
  }

  /** The loop over the feed: every supported port of a record that is not rejected is
      either accepted or counted as a duplicate. */
  method Ingest(records: seq<Record>) returns (entries: seq<Entry>, rejected: nat, duplicates: nat)
    ensures entries == Held(AllOffers(records)) && DistinctEndpoints(entries) && AllSound(entries)
    ensures |entries| + duplicates == |AllOffers(records)|
    ensures rejected == RejectedCount(records)
  {
    var t := Tally([], map[], 0);
    rejected := 0;
    for i := 0 to |records|
      invariant Tallied(AllOffers(records[..i]), t) && rejected == RejectedCount(records[..i])
    {
      assert records[..i + 1][..i] == records[..i];
      var refused;
      t, refused := IngestRecord(AllOffers(records[..i]), t, records[i]);
      if refused {
        rejected := rejected + 1;
      }
    }
    WholeTake(records);
    entries, duplicates := t.entries, t.duplicates;
    HeldDistinct(AllOffers(records));
    AllOffersSound(records);
    HeldSound(AllOffers(records));
  }
}
