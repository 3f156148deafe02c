/** `build_subscription` of `sub/src/lib.rs`: one signed line per entry, relays taken in turn. */
module Subscription {
  import opened Bytes
  import opened Text
  import UuidCodec
  import Vless

  const TYPE_PROXYIP: byte := 1

  datatype RelayNode = RelayNode(domain: string, keys: UuidCodec.Keys)

  datatype EgressEntry = EgressEntry(host: string, port: u16, country: string)

  /** The varying parts of a line: everything else in it is configuration. */
  datatype Line = Line(uuid: string, entryHost: string, relayHost: string, title: string)

  datatype Built = Built(lines: seq<Line>) | Failed

  function CountryOf(e: EgressEntry): string {
    if e.country == "" then "XX" else e.country
  }

  function Occurrences(entries: seq<EgressEntry>, country: string): nat {
    if |entries| == 0 then 0
    else
      var last := |entries| - 1;
      Occurrences(entries[..last], country) + if CountryOf(entries[last]) == country then 1 else 0
  }

  /** `{:02}`: at least two digits. */
  function Padded(n: nat): string {
    if n < 10 then "0" + Decimal(n) else Decimal(n)
  }

  function LabelText(country: string, counter: nat): string {
    country + "-" + Padded(counter)
  }

  /** The country of an entry, and how many entries up to this one have it. */
  function LabelAt(entries: seq<EgressEntry>, i: nat): string
    requires i < |entries|
  {
    var country := CountryOf(entries[i]);
    LabelText(country, Occurrences(entries[..i + 1], country))
  }

  /** What the relay reached through line `i` makes of its UUID. */
  function RelayReads(hmac: UuidCodec.Mac, keys: UuidCodec.Keys, text: string): Option<Vless.Payload> {
    match UuidCodec.UuidOfText(text)
    case None => None
    case Some(u) => UuidCodec.Decoded(hmac, keys, u, [])
  }

  /** What a subscription is rendered from: relays, entries, preferred entry hosts, and the
      IPv4 parser and HMAC it calls. */
  datatype Job = Job(relays: seq<RelayNode>, entries: seq<EgressEntry>, optimized: seq<string>,
                     ipv4: string -> Option<Octets>, hmac: UuidCodec.Mac)

  ghost predicate LineFor(job: Job, i: nat, line: Line)
    requires i < |job.entries|
  {
    var entry := job.entries[i];
    && |job.relays| > 0
    && var relay := job.relays[i % |job.relays|];
    && job.ipv4(entry.host).Some?
    && RelayReads(job.hmac, relay.keys, line.uuid)
       == Some(Vless.Payload(TYPE_PROXYIP, job.ipv4(entry.host).value, entry.port))
    && line.relayHost == relay.domain
    && line.entryHost == (if |job.optimized| == 0 then relay.domain else job.optimized[i % |job.optimized|])
    && line.title == LabelAt(job.entries, i)
  }

  ghost predicate Buildable(job: Job, nonces: bytes) {
    && |job.relays| > 0 && |job.entries| > 0 && |nonces| == 4 * |job.entries|
    && forall i :: 0 <= i < |job.entries| ==> job.ipv4(job.entries[i].host).Some?
  }

  ghost predicate Counted(counters: map<string, nat>, entries: seq<EgressEntry>) {
    forall c: string :: Occurrences(entries, c) == if c in counters then counters[c] else 0
  }

  lemma CountOne(counters: map<string, nat>, entries: seq<EgressEntry>, n: nat)
    requires n < |entries| && Counted(counters, entries[..n])
    ensures
      var c := CountryOf(entries[n]);
      var k := if c in counters then counters[c] else 0;
      Counted(counters[c := k + 1], entries[..n + 1]) && k + 1 == Occurrences(entries[..n + 1], c)
  {
    assert entries[..n + 1][..n] == entries[..n];
  }

  /** The loop of `build_subscription` has written `lines` and counted their countries. */
  ghost predicate Written(job: Job, lines: seq<Line>, counters: map<string, nat>) {
    && |lines| <= |job.entries|
    && (forall i :: 0 <= i < |lines| ==> LineFor(job, i, lines[i]))
    && Counted(counters, job.entries[..|lines|])
  }

  lemma WriteOne(job: Job, lines: seq<Line>, counters: map<string, nat>, line: Line, country: string, counter: nat)
    requires Written(job, lines, counters) && |lines| < |job.entries|
    requires LineFor(job, |lines|, line) && country == CountryOf(job.entries[|lines|])
    requires counter == (if country in counters then counters[country] else 0) + 1
    ensures Written(job, lines + [line], counters[country := counter])
  {
    CountOne(counters, job.entries, |lines|);
  }

  /** Fails exactly on an empty list, a wrong nonce count or a host that is not IPv4. Line
      `i` decodes under the key of relay `i mod n` to entry `i`, and carries its label. */
  method BuildSubscription(job: Job, nonces: bytes) returns (r: Built)
    ensures r.Built? <==> Buildable(job, nonces)
    ensures r.Built? ==> |r.lines| == |job.entries|
    ensures r.Built? ==> forall i :: 0 <= i < |r.lines| ==> LineFor(job, i, r.lines[i])
  {
    if |job.relays| == 0 || |job.entries| == 0 {
      return Failed;
    }
    if |nonces| != |job.entries| * 4 {
      return Failed;
    }
    var lines: seq<Line> := [];
    var counters: map<string, nat> := map[];
    for index := 0 to |job.entries|
      invariant |lines| == index && Written(job, lines, counters)
    {
      var octets := job.ipv4(job.entries[index].host);
      if octets.None? {
        return Failed;
      }
      var entry := job.entries[index];
      var country := if entry.country == "" then "XX" else entry.country;
      var counter := (if country in counters then counters[country] else 0) + 1;
      CountOne(counters, job.entries, index);
      var line := WriteLine(job, country, counter, index, octets.value, nonces[index * 4..index * 4 + 4]);
      WriteOne(job, lines, counters, line, country, counter);
      counters := counters[country := counter];
      lines := lines + [line];
    }
    forall i | 0 <= i < |job.entries| ensures job.ipv4(job.entries[i].host).Some? {
      assert LineFor(job, i, lines[i]);
    }
    return Built(lines);
  }

  method WriteLine(job: Job, country: string, counter: nat, index: nat, octets: Octets, nonce: Octets)
      returns (line: Line)
    requires |job.relays| > 0 && index < |job.entries|
    requires job.ipv4(job.entries[index].host) == Some(octets)
    requires LabelText(country, counter) == LabelAt(job.entries, index)
    ensures LineFor(job, index, line)
  {
    var entry, relay := job.entries[index], job.relays[index % |job.relays|];
    var uuid := SignEntry(job.hmac, relay.keys, octets, entry.port, nonce);
    var entryHost := if |job.optimized| == 0 then relay.domain else job.optimized[index % |job.optimized|];
    line := Line(uuid, entryHost, relay.domain, country + "-" + Padded(counter));
  }

  method SignEntry(hmac: UuidCodec.Mac, keys: UuidCodec.Keys, octets: Octets, port: u16, nonce: Octets)
      returns (text: string)
    ensures RelayReads(hmac, keys, text) == Some(Vless.Payload(TYPE_PROXYIP, octets, port))
  {
    var payload := Vless.Payload(TYPE_PROXYIP, octets, port);
    var uuid := UuidCodec.Encode(hmac, keys, payload, nonce);
    text := UuidCodec.FormatUuid(uuid);
    UuidCodec.SignedTextReads(hmac, keys, payload, nonce);
  }

  // ---------------------------------------------------------------- through the relay

  /** The relay a line is for, when it verifies UUIDs. */
  ghost predicate Verifies(job: Job, i: nat, out: Vless.Outside)
    requires |job.relays| > 0
  {
    forall u: UuidCodec.Uuid :: out.decode(u) == UuidCodec.Decoded(job.hmac, job.relays[i % |job.relays|].keys, u, [])
  }

  /** A request under the UUID of a line, as far as the client chooses it. */
  ghost predicate Requests(h: Vless.Header, line: Line, out: Vless.Outside) {
    && UuidCodec.UuidOfText(line.uuid) == Some(h.uuid)
    && |h.addons| < 256 && (h.command == 1 || h.command == 2) && Vless.LegalAddress(h.address, out)
  }

  /** Whoever sends a request under the UUID of line `i` to the relay of that line, whatever
      follows the header: the relay goes through the proxy of entry `i`, at its address and
      port, and refuses exactly if that port is 0. */
  lemma LineReaches(job: Job, i: nat, line: Line, h: Vless.Header, tail: bytes, out: Vless.Outside)
    requires i < |job.entries| && LineFor(job, i, line) && Verifies(job, i, out) && Requests(h, line, out)
    ensures
      var parsed, entry := Vless.Parse(Vless.Encode(h) + tail, out), job.entries[i];
      && (parsed.Some? <==> entry.port != 0)
      && (parsed.Some? ==>
            && parsed.value.egress.ProxyIp? && parsed.value.egress.port == entry.port
            && SpellsIpv4(parsed.value.egress.host, job.ipv4(entry.host).value))
  {
    var payload := Vless.Payload(TYPE_PROXYIP, job.ipv4(job.entries[i].host).value, job.entries[i].port);
    assert out.decode(h.uuid) == Some(payload);
    if job.entries[i].port != 0 {
      Vless.HeaderReads(h, tail, out);
    } else {
      Vless.FrontReads(h, tail);
      Vless.EgressExactly(payload);
    }
  }

  lemma {:induction false} OccurrencesGrow(entries: seq<EgressEntry>, i: nat, j: nat, country: string)
    requires i <= j <= |entries|
    ensures Occurrences(entries[..i], country) <= Occurrences(entries[..j], country)
    decreases j
  {
    if i < j {
      assert entries[..j][..j - 1] == entries[..j - 1];
      OccurrencesGrow(entries, i, j - 1, country);
    }
  }

  // ---------------------------------------------------------------- labels

  lemma PaddedReads(n: nat)
    ensures DigitsOnly(Padded(n)) && DecimalValue(Padded(n)) == n
  {
    DecimalSpells(n);
    if n < 10 {
      assert Padded(n)[..1] == "0" && "0"[..0] == "";
    }
  }

  /** Behind the last dash there are only digits. */
  lemma DashBefore(text: string, c: string, d: string, at: nat)
    requires DigitsOnly(d) && text == c + "-" + d && at < |text| && text[at] == '-'
    ensures at <= |c|
  {
    assert forall k :: |c| < k < |text| ==> text[k] == d[k - |c| - 1];
  }

  lemma LastDash(c: string, c': string, d: string, d': string)
    requires DigitsOnly(d) && DigitsOnly(d') && c + "-" + d == c' + "-" + d'
    ensures c == c' && d == d'
  {
    var text := c + "-" + d;
    assert text[|c|] == '-' && text[|c'|] == '-';
    DashBefore(text, c, d, |c'|);
    DashBefore(text, c', d', |c|);
    assert c == text[..|c|] && d == text[|c| + 1..];
    assert c' == text[..|c'|] && d' == text[|c'| + 1..];
  }

  /** The text of a label gives back the country and the counter. */
  lemma LabelReads(country: string, counter: nat, country': string, counter': nat)
    requires LabelText(country, counter) == LabelText(country', counter')
    ensures country == country' && counter == counter'
  {
    PaddedReads(counter);
    PaddedReads(counter');
    LastDash(country, country', Padded(counter), Padded(counter'));
  }

  /** No two lines of a subscription carry the same label, whatever the countries are called. */
  lemma LabelsDistinct(entries: seq<EgressEntry>, i: nat, j: nat)
    requires i < j < |entries|
    ensures LabelAt(entries, i) != LabelAt(entries, j)
  {
    OccurrencesGrow(entries, i + 1, j, CountryOf(entries[i]));
    assert entries[..j + 1][..j] == entries[..j];
    if LabelAt(entries, i) == LabelAt(entries, j) {
      LabelReads(CountryOf(entries[i]), Occurrences(entries[..i + 1], CountryOf(entries[i])),
                 CountryOf(entries[j]), Occurrences(entries[..j + 1], CountryOf(entries[j])));
    }
  }
}
