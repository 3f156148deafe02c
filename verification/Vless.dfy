/** The VLESS request header of `relay/src/vless.rs`: the parser, the wire grammar it
    recognises, and its stability under fragmentation. */
module Vless {
  import opened Bytes
  import opened Text

  const VLESS_VERSION: byte := 0

  /** What answers a header: the version, and no add-ons. */
  const VLESS_RESPONSE: bytes := [VLESS_VERSION, 0]

  /** No header is longer: 1 + 16 + 1 + 255 + 1 + 2 + 1 + 1 + 255. */
  const MAX_HEADER := 533

  /** The caller gives up on an unparseable header of this many bytes. */
  const HEADER_CUTOFF := 1024

  datatype Payload = Payload(typeByte: byte, ipv4: Octets, port: u16)

  datatype ProxyAuth = ProxyAuth(host: string, port: u16, user: Option<string>, pass: Option<string>)

  datatype Egress = Direct | ProxyIp(host: string, port: u16) | Socks5(auth: ProxyAuth) | Http(auth: ProxyAuth)

  datatype Command = Tcp | Udp | Mux

  datatype VlessRequest = VlessRequest(command: Command, host: string, port: u16)

  datatype Parsed = Parsed(req: VlessRequest, consumed: nat, egress: Egress)

  /** The two calls that leave this module: verifying a UUID, and UTF-8 validation. */
  datatype Outside = Outside(decode: bytes -> Option<Payload>, utf8: bytes -> Option<string>)

  /** `build_egress` */
  function BuildEgress(p: Payload): Option<Egress> {
    if p.typeByte == 0 then Some(Direct)
    else if p.port == 0 then None
    else
      var ip := Dotted(p.ipv4);
      if p.typeByte == 1 then Some(ProxyIp(ip, p.port))
      else if p.typeByte == 2 then Some(Socks5(ProxyAuth(ip, p.port, None, None)))
      else if p.typeByte == 3 then Some(Http(ProxyAuth(ip, p.port, None, None)))
      else None
  }

  function CommandOf(b: byte): Option<Command> {
    if b == 1 then Some(Tcp) else if b == 2 then Some(Udp) else if b == 3 then Some(Mux) else None
  }

  datatype Located = Located(host: string, end: nat)

  /** The address field that starts at `pos` with its type byte. */
  function ParseAddress(buf: bytes, pos: nat, out: Outside): (r: Option<Located>)
    ensures r.Some? ==> pos < r.value.end <= |buf| && r.value.end <= pos + 257
  {
    if |buf| < pos + 1 then None
    else if buf[pos] == 1 then
      if |buf| < pos + 5 then None else Some(Located(Dotted(buf[pos + 1..pos + 5]), pos + 5))
    else if buf[pos] == 3 then
      if |buf| < pos + 17 then None else Some(Located(Bracketed(buf[pos + 1..pos + 17]), pos + 17))
    else if buf[pos] == 2 then
      if |buf| < pos + 2 then None
      else
        var end := pos + 2 + buf[pos + 1];
        if |buf| < end then None
        else
          match out.utf8(buf[pos + 2..end])
          case None => None
          case Some(name) => Some(Located(name, end))
    else None
  }

  /** What follows the UUID and the add-ons, from the command byte at `pos`. */
  function ParseTail(buf: bytes, pos: nat, egress: Egress, out: Outside): (r: Option<Parsed>)
    ensures r.Some? ==> pos < r.value.consumed <= |buf| && r.value.consumed <= pos + 260
    ensures r.Some? ==> r.value.egress == egress
  {
    if |buf| < pos + 1 then None
    else
      match CommandOf(buf[pos])
      case None => None
      case Some(command) =>
        if command.Mux? || |buf| < pos + 3 then None
        else
          match ParseAddress(buf, pos + 3, out)
          case None => None
          case Some(a) =>
            Some(Parsed(VlessRequest(command, a.host, buf[pos + 1] as int * 256 + buf[pos + 2]), a.end, egress))
  }

  /** `parse_vless_header_with` as a function of the bytes received so far. */
  function Parse(buf: bytes, out: Outside): (r: Option<Parsed>)
    ensures r.Some? ==> 0 < r.value.consumed <= |buf| && r.value.consumed <= MAX_HEADER
  {
    if |buf| == 0 || buf[0] != VLESS_VERSION || |buf| < 17 then None
    else
      match out.decode(buf[1..17])
      case None => None
      case Some(payload) =>
        match BuildEgress(payload)
        case None => None
        case Some(egress) =>
          if |buf| < 18 || |buf| < 18 + buf[17] as int then None
          else ParseTail(buf, 18 + buf[17] as int, egress, out)
  }

  // ---------------------------------------------------------------- the parser

  /** The parser as written: a cursor that advances over the buffer and stops at the
      first field that is short or illegal. */
  method ParseVlessHeader(buf: bytes, out: Outside) returns (r: Option<Parsed>)
    ensures r == Parse(buf, out)
  {
    var pos := 0;
    if |buf| == 0 || buf[pos] != VLESS_VERSION {
      return None;
    }
    pos := pos + 1;
    if |buf| < pos + 16 {
      return None;
    }
    var uuid := buf[pos..pos + 16];
    pos := pos + 16;
    var payload := out.decode(uuid);
    if payload.None? {
      return None;
    }
    var egress := BuildEgress(payload.value);
    if egress.None? {
      return None;
    }
    if |buf| < pos + 1 {
      return None;
    }
    var addonLen: nat := buf[pos];
    pos := pos + 1;
    if |buf| < pos + addonLen {
      return None;
    }
    pos := pos + addonLen;
    if |buf| < pos + 1 {
      return None;
    }
    var command := CommandOf(buf[pos]);
    if command.None? {
      return None;
    }
    pos := pos + 1;
    if command.value == Mux {
      return None;
    }
    if |buf| < pos + 2 {
      return None;
    }
    var port := buf[pos] as int * 256 + buf[pos + 1];
    pos := pos + 2;
    var address := ReadAddress(buf, pos, out);
    if address.None? {
      return None;
    }
    r := Some(Parsed(VlessRequest(command.value, address.value.host, port), address.value.end, egress.value));
  }

  method ReadAddress(buf: bytes, start: nat, out: Outside) returns (r: Option<Located>)
    ensures r == ParseAddress(buf, start, out)
  {
    var pos := start;
    if |buf| < pos + 1 {
      return None;
    }
    var kind := buf[pos];
    pos := pos + 1;
    if kind == 1 {
      if |buf| < pos + 4 {
        return None;
      }
      var ip := ReadIpv4(buf[pos..pos + 4]);
      return Some(Located(ip, pos + 4));
    } else if kind == 3 {
      if |buf| < pos + 16 {
        return None;
      }
      var ip := ReadIpv6(buf[pos..pos + 16]);
      return Some(Located(ip, pos + 16));
    } else if kind == 2 {
      if |buf| < pos + 1 {
        return None;
      }
      var dlen: nat := buf[pos];
      pos := pos + 1;
      if |buf| < pos + dlen {
        return None;
      }
      var domain := out.utf8(buf[pos..pos + dlen]);
      if domain.None? {
        return None;
      }
      return Some(Located(domain.value, pos + dlen));
    }
    return None;
  }

  function DottedPrefix(ip: bytes, n: nat): string
    requires n <= |ip|
  {
    if n == 0 then "" else DottedPrefix(ip, n - 1) + (if n > 1 then "." else "") + Decimal(ip[n - 1])
  }

  lemma DottedWhole(ip: bytes)
    requires |ip| == 4
    ensures DottedPrefix(ip, 4) == Dotted(ip)
  {
    assert DottedPrefix(ip, 1) == Decimal(ip[0]);
    assert DottedPrefix(ip, 2) == Decimal(ip[0]) + "." + Decimal(ip[1]);
    assert DottedPrefix(ip, 3) == Decimal(ip[0]) + "." + Decimal(ip[1]) + "." + Decimal(ip[2]);
  }

  method ReadIpv4(ip: bytes) returns (s: string)
    requires |ip| == 4
    ensures s == Dotted(ip)
  {
    s := "";
    for i := 0 to 4
      invariant s == DottedPrefix(ip, i)
    {
      if i > 0 {
        s := s + ".";
      } else {
        NilRight(s);
      }
      s := PushU8Dec(s, ip[i]);
    }
    DottedWhole(ip);
  }

  method ReadIpv6(ip: bytes) returns (s: string)
    requires |ip| == 16
    ensures s == Bracketed(ip)
  {
    s := "[";
    for i := 0 to 8
      invariant s == "[" + HexGroups(ip, i)
    {
      if i > 0 {
        s := s + ":";
      }
      s := s + HexByte(ip[i * 2]);
      s := s + HexByte(ip[i * 2 + 1]);
      GroupStep(ip, i);
    }
    s := s + "]";
    Assoc("[", HexGroups(ip, 8), "]");
  }

  lemma GroupStep(ip: bytes, i: nat)
    requires |ip| == 16 && i < 8
    ensures "[" + HexGroups(ip, i + 1)
         == (if i > 0 then "[" + HexGroups(ip, i) + ":" else "[" + HexGroups(ip, i))
            + HexByte(ip[i * 2]) + HexByte(ip[i * 2 + 1])
  {
  }

  // ---------------------------------------------------------------- the wire grammar

  datatype Address = V4(ip: bytes) | V6(ip: bytes) | Domain(name: bytes)

  /** A request header by its fields; `command` is 1 (TCP) or 2 (UDP). */
  datatype Header = Header(uuid: bytes, addons: bytes, command: byte, port: u16, address: Address)

  ghost predicate LegalAddress(a: Address, out: Outside) {
    match a
    case V4(ip) => |ip| == 4
    case V6(ip) => |ip| == 16
    case Domain(name) => |name| < 256 && out.utf8(name).Some?
  }

  /** Direct with any port, and the three kinds of proxy with a port of their own. */
  predicate Served(p: Payload) {
    p.typeByte == 0 || (p.typeByte <= 3 && p.port != 0)
  }

  /** A proxy at the address of the payload. */
  predicate AtPayload(p: Payload, host: string, port: u16) {
    p.port != 0 && port == p.port && SpellsIpv4(host, p.ipv4)
  }

  /** What a payload stands for: 0 is direct, 1 a plain proxy, 2 SOCKS5, 3 HTTP; credentials
      there are none. */
  predicate Reaches(p: Payload, e: Egress) {
    match e
    case Direct => p.typeByte == 0
    case ProxyIp(host, port) => p.typeByte == 1 && AtPayload(p, host, port)
    case Socks5(a) => p.typeByte == 2 && AtPayload(p, a.host, a.port) && a.user.None? && a.pass.None?
    case Http(a) => p.typeByte == 3 && AtPayload(p, a.host, a.port) && a.user.None? && a.pass.None?
  }

  /** Served payloads get what they stand for, and the others nothing. */
  lemma EgressExactly(p: Payload)
    ensures BuildEgress(p).Some? <==> Served(p)
    ensures BuildEgress(p).Some? ==> Reaches(p, BuildEgress(p).value)
  {
    DottedReads(p.ipv4);
  }

  /** The headers the relay serves. */
  ghost predicate Legal(h: Header, out: Outside) {
    && |h.uuid| == 16
    && |h.addons| < 256
    && (h.command == 1 || h.command == 2)
    && LegalAddress(h.address, out)
    && out.decode(h.uuid).Some?
    && Served(out.decode(h.uuid).value)
  }

  function EncodeAddress(a: Address): bytes {
    match a
    case V4(ip) => [1] + ip
    case V6(ip) => [3] + ip
    case Domain(name) => [2, (|name| % 256) as byte] + name
  }

  function EncodeTail(h: Header): bytes {
    [h.command, h.port / 256, h.port % 256] + EncodeAddress(h.address)
  }

  function Encode(h: Header): bytes {
    [VLESS_VERSION] + h.uuid + [(|h.addons| % 256) as byte] + h.addons + EncodeTail(h)
  }

  function HostOf(a: Address, out: Outside): string
    requires LegalAddress(a, out)
  {
    match a
    case V4(ip) => Dotted(ip)
    case V6(ip) => Bracketed(ip)
    case Domain(name) => out.utf8(name).value
  }

  /** The text names the address. */
  ghost predicate NamesHost(a: Address, host: string, out: Outside) {
    match a
    case V4(ip) => |ip| == 4 && SpellsIpv4(host, ip)
    case V6(ip) => |ip| == 16 && SpellsIpv6(host, ip)
    case Domain(name) => out.utf8(name) == Some(host)
  }

  /** What a header asks for: command, port and host as it spells them, and the egress its
      UUID stands for. */
  ghost predicate Means(h: Header, out: Outside, p: Parsed) {
    && p.req.command == (if h.command == 1 then Tcp else Udp) && p.req.port == h.port
    && NamesHost(h.address, p.req.host, out) && p.consumed == |Encode(h)|
    && out.decode(h.uuid).Some? && Reaches(out.decode(h.uuid).value, p.egress)
  }

  lemma MeaningMeans(h: Header, out: Outside)
    requires Legal(h, out)
    ensures Means(h, out, Meaning(h, out))
  {
    EgressExactly(out.decode(h.uuid).value);
    match h.address
    case V4(ip) => DottedReads(ip);
    case V6(ip) => BracketedReads(ip);
    case Domain(_) =>
  }

  /** The same as the parser writes it. */
  ghost function Meaning(h: Header, out: Outside): Parsed
    requires Legal(h, out)
  {
    EgressExactly(out.decode(h.uuid).value);
    Parsed(VlessRequest(if h.command == 1 then Tcp else Udp, HostOf(h.address, out), h.port),
           |Encode(h)|, BuildEgress(out.decode(h.uuid).value).value)
  }

  lemma AddressReads(pre: bytes, a: Address, tail: bytes, out: Outside)
    requires LegalAddress(a, out)
    ensures ParseAddress(pre + EncodeAddress(a) + tail, |pre|, out)
         == Some(Located(HostOf(a, out), |pre| + |EncodeAddress(a)|))
  {
    var mid, p := EncodeAddress(a), |pre|;
    var buf := pre + mid + tail;
    assert buf[p] == mid[0];
    match a
    case V4(ip) =>
      MiddleSlice(pre, mid, tail, 1, 5);
      assert mid[1..5] == ip;
      assert buf[p + 1..p + 5] == ip;
    case V6(ip) =>
      MiddleSlice(pre, mid, tail, 1, 17);
      assert mid[1..17] == ip;
      assert buf[p + 1..p + 17] == ip;
    case Domain(name) =>
      MiddleSlice(pre, mid, tail, 2, |mid|);
      assert mid[2..|mid|] == name;
      assert buf[p + 1] == |name|;
      assert buf[p + 2..p + 2 + |name|] == name;
  }

  lemma TailReads(pre: bytes, h: Header, tail: bytes, egress: Egress, out: Outside)
    requires Legal(h, out)
    ensures ParseTail(pre + EncodeTail(h) + tail, |pre|, egress, out)
         == Some(Parsed(Meaning(h, out).req, |pre| + |EncodeTail(h)|, egress))
  {
    var mid := [h.command, h.port / 256, h.port % 256];
    var buf, p := pre + EncodeTail(h) + tail, |pre|;
    assert buf == (pre + mid) + EncodeAddress(h.address) + tail;
    AddressReads(pre + mid, h.address, tail, out);
    assert buf[p] == h.command && buf[p + 1] == h.port / 256 && buf[p + 2] == h.port % 256;
  }

  /** What stands before the command. */
  function Front(h: Header): bytes {
    [VLESS_VERSION] + h.uuid + [(|h.addons| % 256) as byte] + h.addons
  }

  lemma FrontReads(h: Header, tail: bytes)
    requires |h.uuid| == 16 && |h.addons| < 256
    ensures
      var buf := Encode(h) + tail;
      && buf == Front(h) + EncodeTail(h) + tail && |Front(h)| == 18 + |h.addons|
      && buf[0] == VLESS_VERSION && buf[1..17] == h.uuid && buf[17] == |h.addons|
  {
    var head, rest := [VLESS_VERSION] + h.uuid, h.addons + EncodeTail(h) + tail;
    var buf := Encode(h) + tail;
    assert buf == head + [(|h.addons| % 256) as byte] + rest;
  }

  /** Completeness: every legal header is recognised, whatever payload follows it. */
  lemma HeaderReads(h: Header, tail: bytes, out: Outside)
    requires Legal(h, out)
    ensures Parse(Encode(h) + tail, out) == Some(Meaning(h, out)) && Means(h, out, Meaning(h, out))
  {
    MeaningMeans(h, out);
    EgressExactly(out.decode(h.uuid).value);
    FrontReads(h, tail);
    TailReads(Front(h), h, tail, Meaning(h, out).egress, out);
  }

  lemma AddressIsWire(buf: bytes, pos: nat, out: Outside) returns (a: Address)
    requires ParseAddress(buf, pos, out).Some?
    ensures LegalAddress(a, out)
    ensures buf[pos..ParseAddress(buf, pos, out).value.end] == EncodeAddress(a)
    ensures ParseAddress(buf, pos, out).value.host == HostOf(a, out)
  {
    var end := ParseAddress(buf, pos, out).value.end;
    if buf[pos] == 1 {
      a := V4(buf[pos + 1..end]);
      OneThenRest(buf, pos, end);
    } else if buf[pos] == 3 {
      a := V6(buf[pos + 1..end]);
      OneThenRest(buf, pos, end);
    } else {
      a := Domain(buf[pos + 2..end]);
      TwoThenRest(buf, pos, end);
    }
  }

  lemma OneThenRest(buf: bytes, c: nat, n: nat)
    requires c + 1 <= n <= |buf|
    ensures [buf[c]] + buf[c + 1..n] == buf[c..n]
  {
  }

  lemma TwoThenRest(buf: bytes, c: nat, n: nat)
    requires c + 2 <= n <= |buf|
    ensures [buf[c], buf[c + 1]] + buf[c + 2..n] == buf[c..n]
  {
  }

  lemma FrontIsWire(buf: bytes, c: nat)
    requires 18 <= c <= |buf|
    ensures [buf[0]] + buf[1..17] + [buf[17]] + buf[18..c] == buf[..c]
  {
  }

  lemma ThreeThenRest(buf: bytes, c: nat, n: nat)
    requires c + 3 <= n <= |buf|
    ensures [buf[c], buf[c + 1], buf[c + 2]] + buf[c + 3..n] == buf[c..n]
  {
  }

  lemma FrontThenRest(buf: bytes, c: nat, n: nat)
    requires c <= n <= |buf|
    ensures buf[..c] + buf[c..n] == buf[..n]
  {
  }

  lemma PortBytes(hi: byte, lo: byte)
    ensures var p := hi as int * 256 + lo; p / 256 == hi && p % 256 == lo
  {
  }

  /** Soundness: what the parser consumed is the encoding of a legal header with that meaning. */
  lemma ParsedIsWire(buf: bytes, out: Outside) returns (h: Header)
    requires Parse(buf, out).Some?
    ensures Legal(h, out) && Encode(h) <= buf && Parse(buf, out).value == Meaning(h, out)
    ensures Means(h, out, Parse(buf, out).value)
  {
    EgressExactly(out.decode(buf[1..17]).value);
    var c := 18 + buf[17] as int;
    var n := Parse(buf, out).value.consumed;
    var a := AddressIsWire(buf, c + 3, out);
    h := Header(buf[1..17], buf[18..c], buf[c], buf[c + 1] as int * 256 + buf[c + 2], a);
    PiecesAreWire(buf, c, n, h);
    MeaningMeans(h, out);
  }

  /** The fields of a header, cut out of the buffer where the parser found them. */
  lemma PiecesAreWire(buf: bytes, c: nat, n: nat, h: Header)
    requires 18 <= c && c + 3 <= n <= |buf|
    requires buf[0] == VLESS_VERSION && buf[17] == |h.addons| == c - 18
    requires h.uuid == buf[1..17] && h.addons == buf[18..c] && h.command == buf[c]
    requires h.port == buf[c + 1] as int * 256 + buf[c + 2] && EncodeAddress(h.address) == buf[c + 3..n]
    ensures Encode(h) == buf[..n]
  {
    PortBytes(buf[c + 1], buf[c + 2]);
    FrontIsWire(buf, c);
    ThreeThenRest(buf, c, n);
    FrontThenRest(buf, c, n);
  }

  // ---------------------------------------------------------------- fragmentation

  /** More bytes never change a successful parse. */
  lemma ParseStable(a: bytes, b: bytes, out: Outside)
    requires Parse(a, out).Some?
    ensures Parse(a + b, out) == Parse(a, out)
  {
    var h := ParsedIsWire(a, out);
    PrefixSplit(Encode(h), a);
    var rest := a[|Encode(h)|..];
    Assoc(Encode(h), rest, b);
    HeaderReads(h, rest + b, out);
  }

  /** A parse needs no byte behind the header. */
  lemma ParseExact(a: bytes, out: Outside)
    requires Parse(a, out).Some?
    ensures Parse(a[..Parse(a, out).value.consumed], out) == Parse(a, out)
  {
    var h := ParsedIsWire(a, out);
    PrefixSplit(Encode(h), a);
    HeaderReads(h, [], out);
    NilRight(Encode(h));
  }

  /** Every strict prefix of a header is still incomplete: no parse ends early. */
  lemma ShorterPrefixFails(a: bytes, m: nat, out: Outside)
    requires Parse(a, out).Some? && m < Parse(a, out).value.consumed
    ensures Parse(a[..m], out).None?
  {
    if Parse(a[..m], out).Some? {
      Split(a, m);
      ParseStable(a[..m], a[m..], out);
      assert false;
    }
  }

  /** A buffer as long as the longest header that fails now fails for ever. */
  lemma LongFailureIsFinal(a: bytes, b: bytes, out: Outside)
    requires Parse(a, out).None? && |a| >= MAX_HEADER
    ensures Parse(a + b, out).None?
  {
    if Parse(a + b, out).Some? {
      var n := Parse(a + b, out).value.consumed;
      ParseExact(a + b, out);
      assert (a + b)[..n] == a[..n];
      Split(a, n);
      ParseStable(a[..n], a[n..], out);
      assert false;
    }
  }

  /** The bound is attained, so it cannot be lowered. */
  lemma LongestHeader(uuid: bytes, addons: bytes, name: bytes, out: Outside)
    requires Legal(Header(uuid, addons, 1, 443, Domain(name)), out)
    requires |addons| == 255 && |name| == 255
    ensures Parse(Encode(Header(uuid, addons, 1, 443, Domain(name))), out).Some?
    ensures Parse(Encode(Header(uuid, addons, 1, 443, Domain(name))), out).value.consumed == MAX_HEADER
  {
    var h := Header(uuid, addons, 1, 443, Domain(name));
    HeaderReads(h, [], out);
    NilRight(Encode(h));
  }

  // ---------------------------------------------------------------- the header phase

  /** One attempt over the bytes accumulated so far: wait, serve, or give up. */
  datatype Attempt = More | Accepted(parsed: Parsed, initial: bytes) | Rejected

  function TryHeader(acc: bytes, out: Outside): Attempt {
    match Parse(acc, out)
    case Some(p) => Accepted(p, acc[p.consumed..])
    case None => if |acc| < HEADER_CUTOFF then More else Rejected
  }

  datatype Fed = Fed(attempt: Attempt, unread: seq<bytes>)

  /** The header phase over a fragmented stream: append a fragment, try again. */
  function FeedHeader(acc: bytes, fragments: seq<bytes>, out: Outside): Fed
    decreases |fragments|
  {
    if |fragments| == 0 then Fed(More, [])
    else
      match TryHeader(acc + fragments[0], out)
      case More => FeedHeader(acc + fragments[0], fragments[1..], out)
      case a => Fed(a, fragments[1..])
  }

  /** Every fragmentation ends as one attempt over the whole stream does: it is served
      exactly when the stream parses, with the same request and the same payload bytes,
      and it is rejected only when no continuation could ever parse. */
  lemma {:induction false} FragmentationIrrelevant(acc: bytes, fragments: seq<bytes>, out: Outside)
    requires Parse(acc, out).None?
    ensures var whole := acc + Concat(fragments);
            var fed := FeedHeader(acc, fragments, out);
            && (fed.attempt.Accepted? <==> Parse(whole, out).Some?)
            && (fed.attempt.Accepted? ==>
                  && Parse(whole, out) == Some(fed.attempt.parsed)
                  && fed.attempt.initial + Concat(fed.unread) == whole[fed.attempt.parsed.consumed..])
            && (fed.attempt.Rejected? ==> forall more: bytes :: Parse(whole + more, out).None?)
    decreases |fragments|
  {
    if |fragments| == 0 {
      NilRight(acc);
    } else {
      var acc' := acc + fragments[0];
      var rest := Concat(fragments[1..]);
      HeadTail(fragments);
      ConcatCons(fragments[0], fragments[1..]);
      Assoc(acc, fragments[0], rest);
      match TryHeader(acc', out)
      case More =>
        FragmentationIrrelevant(acc', fragments[1..], out);
      case Accepted(p, initial) =>
        ParseStable(acc', rest, out);
        TailAppend(acc', rest, p.consumed);
      case Rejected =>
        LongFailureIsFinal(acc', rest, out);
        forall more: bytes ensures Parse(acc' + rest + more, out).None? {
          Assoc(acc', rest, more);
          LongFailureIsFinal(acc', rest + more, out);
        }
    }
  }
}
