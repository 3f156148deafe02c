/** The server handshake of `relay/src/enc.rs` over the in-memory reader of
    `relay/src/wsio.rs`: which bytes it needs, what it decides, which nonces it uses. */
module Handshake {
  import opened Bytes
  import opened Nonce

  const MLKEM_EK := 1184
  const X25519_LEN := 32
  const PFS_LEN := 1216

  /** The data-stream keys: `w` seals downloads, `r` opens uploads. */
  datatype Keys = Keys(w: bytes, r: bytes)

  /** The cryptography the handshake calls. `agree` is the static X25519 exchange, `aead`
      opens `ciphertext ‖ tag` under a (context, key) pair and a nonce, and `commit` is
      everything behind the last read: encapsulation, ephemeral exchange, key derivation. */
  datatype Crypto = Crypto(
    agree: bytes -> bytes,
    aead: (bytes, bytes, Counter, bytes) -> Option<bytes>,
    commit: (bytes, bytes) -> Option<Keys>)

  /** `Aead::open`: short inputs fail, and the plaintext is 16 bytes shorter. */
  function Open(c: Crypto, ctx: bytes, key: bytes, nonce: Counter, data: bytes): (r: Option<bytes>)
    ensures r.Some? ==> |data| >= 16 && |r.value| == |data| - 16
  {
    if |data| < 16 then None
    else
      match c.aead(ctx, key, nonce, data)
      case None => None
      case Some(pt) => if |pt| == |data| - 16 then Some(pt) else None
  }

  function DecodeLength(b: bytes): (l: nat)
    requires |b| >= 2
    ensures l < 0x1_0000
  {
    b[0] as int * 256 + b[1]
  }

  /** Outcome of the read part: a violation, a short buffer, or a whole clientHello that
      ends after `consumed` bytes. */
  datatype Hello = Violation | NeedMore | Whole(pfs: bytes, nfsKey: bytes, consumed: nat)

  /** The read part of `server_handshake` as a function of the buffered bytes. */
  function ReadHello(c: Crypto, buf: bytes): (h: Hello)
    ensures h.Whole? ==> 0 < h.consumed <= |buf| && |h.pfs| == PFS_LEN
  {
    if |buf| < 48 then NeedMore
    else if buf[47] > 127 then Violation
    else
      var iv, nfsKey := buf[..16], c.agree(buf[16..48]);
      if |buf| < 66 then NeedMore
      else
        match Open(c, iv, nfsKey, NonceAt(1), buf[48..66])
        case None => Violation
        case Some(pt) => ReadPfs(c, iv, nfsKey, DecodeLength(pt), buf)
  }

  function ReadPfs(c: Crypto, iv: bytes, nfsKey: bytes, length: nat, buf: bytes): (h: Hello)
    ensures h.Whole? ==> 0 < h.consumed <= |buf| && |h.pfs| == PFS_LEN
  {
    if length == 32 || !(PFS_LEN + 16 <= length <= 16 + PFS_LEN + 16) then Violation
    else if |buf| < 66 + length then NeedMore
    else
      match Open(c, iv, nfsKey, NonceAt(2), buf[66..66 + length])
      case None => Violation
      case Some(pfs) => ReadPadding(c, iv, nfsKey, pfs[..PFS_LEN], 66 + length, buf)
  }

  function ReadPadding(c: Crypto, iv: bytes, nfsKey: bytes, pfs: bytes, at: nat, buf: bytes): (h: Hello)
    requires |pfs| == PFS_LEN
    ensures h.Whole? ==> at < h.consumed <= |buf| && h.pfs == pfs
  {
    if |buf| < at + 18 then NeedMore
    else
      match Open(c, iv, nfsKey, NonceAt(3), buf[at..at + 18])
      case None => Violation
      case Some(pt) =>
        var end := at + 18 + DecodeLength(pt);
        if end == at + 18 then Whole(pfs, nfsKey, end)
        else if |buf| < end then NeedMore
        else if Open(c, iv, nfsKey, NonceAt(4), buf[at + 18..end]).None? then Violation
        else Whole(pfs, nfsKey, end)
  }

  // ---------------------------------------------------------------- the code

  class WsReader {
    var buf: bytes
    var pos: nat

    ghost predicate Valid()
      reads this
    {
      pos <= |buf|
    }

    constructor FromBuffer(buf: bytes)
      ensures Valid() && this.buf == buf && pos == 0
    {
      this.buf, pos := buf, 0;
    }

    /** All `n` bytes or none: a short buffer leaves the cursor where it was. */
    method ReadExact(n: nat) returns (ok: bool, out: bytes)
      requires Valid()
      modifies this`pos
      ensures Valid()
      ensures ok <==> n <= |buf| - old(pos)
      ensures ok ==> out == buf[old(pos)..old(pos) + n] && pos == old(pos) + n
      ensures !ok ==> pos == old(pos)
    {
      if |buf| - pos < n {
        return false, [];
      }
      out := buf[pos..pos + n];
      pos := pos + n;
      ok := true;
    }

    method Leftover() returns (rest: bytes)
      requires Valid()
      ensures rest == buf[pos..]
    {
      rest := buf[pos..];
    }

    /** The whole buffer, cursor ignored. */
    method IntoInner() returns (all: bytes)
      ensures all == buf
    {
      all := buf;
    }
  }

  class Aead {
    const crypto: Crypto
    const ctx: bytes
    const key: bytes
    var nonce: Counter

    constructor (crypto: Crypto, ctx: bytes, key: bytes)
      ensures this.crypto == crypto && this.ctx == ctx && this.key == key && nonce == NonceAt(0)
    {
      this.crypto, this.ctx, this.key, nonce := crypto, ctx, key, ZERO;
    }

    method OpenNext(data: bytes) returns (r: Option<bytes>)
      modifies this
      ensures nonce == Successor(old(nonce))
      ensures r == Open(crypto, ctx, key, nonce, data)
    {
      nonce := NextNonce(nonce);
      r := Open(crypto, ctx, key, nonce, data);
    }

    /** Sealing advances the counter; the nonce it used is reported for the whole-run claim. */
    method SealNext() returns (used: Counter)
      modifies this
      ensures nonce == Successor(old(nonce)) && used == nonce
    {
      nonce := NextNonce(nonce);
      used := nonce;
    }
  }

  /** All clientHello reads of `server_handshake`, in program order. */
  method ReadClientHello(c: Crypto, reader: WsReader) returns (h: Hello)
    requires reader.Valid() && reader.pos == 0
    modifies reader`pos
    ensures h == ReadHello(c, reader.buf)
    ensures reader.Valid() && (h.Whole? ==> reader.pos == h.consumed)
  {
    var ok, ivRelays := reader.ReadExact(48);
    if !ok {
      return NeedMore;
    }
    var iv, relay := ivRelays[..16], ivRelays[16..];
    assert iv == reader.buf[..16] && relay == reader.buf[16..48];
    if relay[31] > 127 {
      return Violation;
    }
    var nfsKey := c.agree(relay);
    var nfs := new Aead(c, iv, nfsKey);
    var lenBuf;
    ok, lenBuf := reader.ReadExact(18);
    if !ok {
      return NeedMore;
    }
    var plain := nfs.OpenNext(lenBuf);
    if plain.None? {
      return Violation;
    }
    var length := DecodeLength(plain.value);
    h := ReadClientPfs(c, reader, nfs, length);
  }

  method ReadClientPfs(c: Crypto, reader: WsReader, nfs: Aead, length: nat) returns (h: Hello)
    requires reader.Valid() && reader.pos == 66
    requires nfs.crypto == c && nfs.nonce == NonceAt(1)
    modifies reader`pos, nfs
    ensures h == ReadPfs(c, nfs.ctx, nfs.key, length, reader.buf)
    ensures reader.Valid() && (h.Whole? ==> reader.pos == h.consumed)
  {
    if length == 32 {
      return Violation;
    }
    if !(MLKEM_EK + X25519_LEN + 16 <= length <= 16 + MLKEM_EK + X25519_LEN + 16) {
      return Violation;
    }
    var ok, encPfs := reader.ReadExact(length);
    if !ok {
      return NeedMore;
    }
    var plain := nfs.OpenNext(encPfs);
    if plain.None? {
      return Violation;
    }
    var pfs := plain.value[..PFS_LEN];
    var at := reader.pos;
    var cpadLen;
    ok, cpadLen := reader.ReadExact(18);
    if !ok {
      return NeedMore;
    }
    plain := nfs.OpenNext(cpadLen);
    if plain.None? {
      return Violation;
    }
    var cplen := DecodeLength(plain.value);
    if cplen > 0 {
      var cpad;
      ok, cpad := reader.ReadExact(cplen);
      if !ok {
        return NeedMore;
      }
      plain := nfs.OpenNext(cpad);
      if plain.None? {
        return Violation;
      }
    }
    h := Whole(pfs, nfs.key, reader.pos);
  }

  /** The seals of the serverHello under the write key: ticket, padding length and, as
      the padding is never below 100 bytes, padding body. */
  method SealServerHello(c: Crypto, ctx: bytes, key: bytes, random: nat) returns (used: seq<Counter>, nonceW: Counter)
    ensures used == Nonces(3) && nonceW == NonceAt(3)
  {
    var padTotal := 100 + random % 0x1_0000 % 901;
    var write := new Aead(c, ctx, key);
    var n := write.SealNext();
    used := [n];
    n := write.SealNext();
    used := used + [n];
    if padTotal > 18 {
      n := write.SealNext();
      used := used + [n];
    }
    nonceW := write.nonce;
    assert NonceAt(3) == Successor(NonceAt(2)) && NonceAt(2) == Successor(NonceAt(1));
    assert Nonces(3) == Nonces(2) + [NonceAt(3)] && Nonces(2) == Nonces(1) + [NonceAt(2)];
  }

  // ---------------------------------------------------------------- the wire grammar

  /** A clientHello by its fields: the IV, the client's public key, and what it seals. */
  datatype ClientHello = ClientHello(iv: bytes, relay: bytes, length: bytes, keys: bytes, padLength: bytes, padding: bytes)

  /** Seal number `n` under the IV and the agreed key opens to `pt`. */
  ghost predicate Sealed(c: Crypto, h: ClientHello, n: nat, data: bytes, pt: bytes) {
    |data| == |pt| + 16 && c.aead(h.iv, c.agree(h.relay), NonceAt(n), data) == Some(pt)
  }

  /** Two bytes, high byte first. */
  function BigEndian(n: nat): bytes {
    [n / 256 % 256, n % 256]
  }

  /** A fresh hello: its public key has the top bit clear, and the first four seals hold the
      length of the keys, the keys, the length of the padding, and the padding, if any. */
  ghost predicate Legal(c: Crypto, h: ClientHello, keys: bytes) {
    && |h.iv| == 16 && |h.relay| == 32 && h.relay[31] < 128
    && MLKEM_EK + X25519_LEN <= |keys| <= MLKEM_EK + X25519_LEN + 16
    && Sealed(c, h, 1, h.length, BigEndian(|h.keys|))
    && Sealed(c, h, 2, h.keys, keys)
    && |h.padding| < 0x1_0000 && Sealed(c, h, 3, h.padLength, BigEndian(|h.padding|))
    && (|h.padding| > 0 ==> exists pt :: Sealed(c, h, 4, h.padding, pt))
  }

  function Encode(h: ClientHello): bytes {
    h.iv + h.relay + h.length + h.keys + h.padLength + h.padding
  }

  /** What the rest of the handshake is given: the first 1216 bytes of the keys, the agreed
      secret, and where the hello ends. */
  function Reading(c: Crypto, h: ClientHello, keys: bytes): Hello
    requires |keys| >= PFS_LEN
  {
    Whole(keys[..PFS_LEN], c.agree(h.relay), |Encode(h)|)
  }

  lemma BigEndianReads(n: nat)
    requires n < 0x1_0000
    ensures DecodeLength(BigEndian(n)) == n
  {
  }

  lemma BigEndianWrites(b: bytes)
    requires |b| == 2
    ensures BigEndian(DecodeLength(b)) == b
  {
    var n: nat := b[0] as int * 256 + b[1];
    assert n / 256 == b[0] && n % 256 == b[1];
  }

  /** The fields of a hello, where the reads find them. */
  lemma Fields(h: ClientHello, tail: bytes)
    requires |h.iv| == 16 && |h.relay| == 32 && |h.length| == 18 && |h.padLength| == 18
    ensures
      var buf, at := Encode(h) + tail, 66 + |h.keys|;
      && |buf| >= at + 18 + |h.padding| == |Encode(h)|
      && buf[..16] == h.iv && buf[16..48] == h.relay && buf[47] == h.relay[31] && buf[48..66] == h.length
      && buf[66..at] == h.keys && buf[at..at + 18] == h.padLength && buf[at + 18..at + 18 + |h.padding|] == h.padding
  {
    var a := h.iv + h.relay;
    var b := a + h.length;
    var d := b + h.keys;
    var e := d + h.padLength;
    var buf := Encode(h) + tail;
    assert buf == e + h.padding + tail;
    assert buf[..|e|] == e && buf[|e|..|e| + |h.padding|] == h.padding;
    assert e[..|d|] == d && e[|d|..] == h.padLength;
    assert d[..|b|] == b && d[|b|..] == h.keys;
    assert b[..48] == a && b[48..] == h.length;
  }

  /** Every legal hello is read, whatever follows it. */
  lemma HelloReads(c: Crypto, h: ClientHello, keys: bytes, tail: bytes)
    requires Legal(c, h, keys)
    ensures ReadHello(c, Encode(h) + tail) == Reading(c, h, keys)
  {
    Fields(h, tail);
    BigEndianReads(|h.keys|);
    BigEndianReads(|h.padding|);
  }

  /** And nothing else is: a hello that was read is a legal one. */
  lemma HelloIsWire(c: Crypto, buf: bytes) returns (h: ClientHello, keys: bytes)
    requires ReadHello(c, buf).Whole?
    ensures Legal(c, h, keys) && Encode(h) <= buf && ReadHello(c, buf) == Reading(c, h, keys)
  {
    var end := ReadHello(c, buf).consumed;
    var iv, secret := buf[..16], c.agree(buf[16..48]);
    var first := Open(c, iv, secret, NonceAt(1), buf[48..66]).value;
    var length := DecodeLength(first);
    keys := Open(c, iv, secret, NonceAt(2), buf[66..66 + length]).value;
    h := ClientHello(iv, buf[16..48], buf[48..66], buf[66..66 + length], buf[66 + length..84 + length], buf[84 + length..end]);
    PiecesAreHello(buf, length, end);
    BigEndianWrites(first);
    BigEndianWrites(Open(c, iv, secret, NonceAt(3), buf[66 + length..84 + length]).value);
    if |h.padding| > 0 {
      assert Sealed(c, h, 4, h.padding, Open(c, iv, secret, NonceAt(4), h.padding).value);
    }
  }

  lemma PiecesAreHello(buf: bytes, length: nat, end: nat)
    requires 84 + length <= end <= |buf|
    ensures buf[..16] + buf[16..48] + buf[48..66] + buf[66..66 + length] + buf[66 + length..84 + length]
            + buf[84 + length..end] == buf[..end]
  {
    assert buf[..16] + buf[16..48] == buf[..48];
    assert buf[..48] + buf[48..66] == buf[..66];
    assert buf[..66] + buf[66..66 + length] == buf[..66 + length];
    assert buf[..66 + length] + buf[66 + length..84 + length] == buf[..84 + length];
  }

  /** A hello that is refused would be refused with any bytes behind it: it is the beginning of
      no legal one. */
  lemma RefusedForGood(c: Crypto, buf: bytes, h: ClientHello, keys: bytes)
    requires ReadHello(c, buf).Violation? && Legal(c, h, keys)
    ensures !(buf <= Encode(h)) && !(Encode(h) <= buf)
  {
    if buf <= Encode(h) {
      PrefixSplit(buf, Encode(h));
      HelloMonotone(c, buf, Encode(h)[|buf|..]);
      HelloReads(c, h, keys, []);
      NilRight(Encode(h));
    }
    if Encode(h) <= buf {
      PrefixSplit(Encode(h), buf);
      HelloReads(c, h, keys, buf[|Encode(h)|..]);
    }
  }

  // ---------------------------------------------------------------- fragmentation

  lemma PaddingMonotone(c: Crypto, iv: bytes, nfsKey: bytes, pfs: bytes, at: nat, a: bytes, b: bytes)
    requires |pfs| == PFS_LEN
    requires !ReadPadding(c, iv, nfsKey, pfs, at, a).NeedMore?
    ensures ReadPadding(c, iv, nfsKey, pfs, at, a + b) == ReadPadding(c, iv, nfsKey, pfs, at, a)
  {
    SliceStable(a, b, at, at + 18);
    var pt := Open(c, iv, nfsKey, NonceAt(3), a[at..at + 18]);
    if pt.Some? {
      var end := at + 18 + DecodeLength(pt.value);
      if end <= |a| {
        SliceStable(a, b, at + 18, end);
      }
    }
  }

  lemma PfsMonotone(c: Crypto, iv: bytes, nfsKey: bytes, length: nat, a: bytes, b: bytes)
    requires !ReadPfs(c, iv, nfsKey, length, a).NeedMore?
    ensures ReadPfs(c, iv, nfsKey, length, a + b) == ReadPfs(c, iv, nfsKey, length, a)
  {
    if length != 32 && PFS_LEN + 16 <= length <= 16 + PFS_LEN + 16 {
      SliceStable(a, b, 66, 66 + length);
      match Open(c, iv, nfsKey, NonceAt(2), a[66..66 + length])
      case None =>
      case Some(pfs) => PaddingMonotone(c, iv, nfsKey, pfs[..PFS_LEN], 66 + length, a, b);
    }
  }

  /** A decision, once reached, is the decision on every longer buffer: violations stay
      violations and a clientHello keeps its end and its contents. */
  lemma HelloMonotone(c: Crypto, a: bytes, b: bytes)
    requires !ReadHello(c, a).NeedMore?
    ensures ReadHello(c, a + b) == ReadHello(c, a)
  {
    SliceStable(a, b, 0, 16);
    SliceStable(a, b, 16, 48);
    if a[47] <= 127 {
      SliceStable(a, b, 48, 66);
      var iv, nfsKey := a[..16], c.agree(a[16..48]);
      match Open(c, iv, nfsKey, NonceAt(1), a[48..66])
      case None =>
      case Some(pt) => PfsMonotone(c, iv, nfsKey, DecodeLength(pt), a, b);
    }
  }

  /** Below its end, a clientHello is only ever incomplete. */
  lemma ShorterHelloWaits(c: Crypto, a: bytes, m: nat)
    requires ReadHello(c, a).Whole? && m < ReadHello(c, a).consumed
    ensures ReadHello(c, a[..m]).NeedMore?
  {
    if !ReadHello(c, a[..m]).NeedMore? {
      Split(a, m);
      HelloMonotone(c, a[..m], a[m..]);
      assert false;
    }
  }

  /** The state between frames: the bytes handed back, or the decision and what followed it. */
  datatype Progress = Waiting(buf: bytes) | Decided(hello: Hello, leftover: bytes, unread: seq<bytes>)

  /** One attempt per frame over everything buffered, as `drive` retries the handshake. */
  function FeedHello(c: Crypto, buf: bytes, frames: seq<bytes>): Progress
    decreases |frames|
  {
    if |frames| == 0 then Waiting(buf)
    else
      var all := buf + frames[0];
      match ReadHello(c, all)
      case NeedMore => FeedHello(c, all, frames[1..])
      case Violation => Decided(Violation, [], frames[1..])
      case Whole(pfs, nfsKey, n) => Decided(Whole(pfs, nfsKey, n), all[n..], frames[1..])
  }

  /** Every fragmentation reaches the one-shot outcome, and no byte is lost: an undecided
      handshake still holds them all, a finished one hands on exactly those behind it. */
  lemma {:induction false} HandshakeReplay(c: Crypto, buf: bytes, frames: seq<bytes>)
    requires ReadHello(c, buf).NeedMore?
    ensures var whole := buf + Concat(frames);
            match FeedHello(c, buf, frames)
            case Waiting(held) => held == whole && ReadHello(c, whole).NeedMore?
            case Decided(hello, leftover, unread) =>
              && ReadHello(c, whole) == hello && !hello.NeedMore?
              && (hello.Whole? ==> leftover + Concat(unread) == whole[hello.consumed..])
    decreases |frames|
  {
    if |frames| == 0 {
      NilRight(buf);
    } else {
      var all, rest := buf + frames[0], Concat(frames[1..]);
      HeadTail(frames);
      ConcatCons(frames[0], frames[1..]);
      Assoc(buf, frames[0], rest);
      match ReadHello(c, all)
      case NeedMore => HandshakeReplay(c, all, frames[1..]);
      case Violation => HelloMonotone(c, all, rest);
      case Whole(_, _, n) =>
        HelloMonotone(c, all, rest);
        TailAppend(all, rest, n);
    }
  }
}
