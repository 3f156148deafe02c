/** The signed UUID: the encoder of the subscription worker (`sub/src/codec.rs`,
    `sub/src/encoding.rs`) and the decoder of the relay (`relay/src/codec.rs`). */
module UuidCodec {
  import opened Bytes
  import opened Bits
  import opened Text
  import Hmac
  import Vless

  type Payload = Vless.Payload

  const NONCE_LEN := 4
  const PLAINTEXT_LEN := 7
  const MAC_LEN := 5

  type Uuid = b: bytes | |b| == 16 witness [0, 0, 0, 0, 0, 0, 0, 0, 0, 0, 0, 0, 0, 0, 0, 0]

  type Cipher = b: bytes | |b| == 7 witness [0, 0, 0, 0, 0, 0, 0]

  type Mac = (bytes, bytes) -> Hmac.Digest

  datatype Keys = Keys(enc: Hmac.Digest, mac: Hmac.Digest)

  /** `derive_keys`; both sides compute it, from the same secret. */
  function DeriveKeys(hmac: Mac, secret: bytes): Keys {
    var prk := hmac(Ascii("signed-uuid-hkdf-salt-v1-20250629"), secret);
    Keys(hmac(prk, Ascii("uuid-enc-v1") + [0x01]), hmac(prk, Ascii("uuid-mac-v1") + [0x01]))
  }

  /** `UuidCodec::new`, with the real HMAC. */
  method New(secret: bytes) returns (k: Keys)
    requires |secret| < Hmac.LIMIT
    ensures k == DeriveKeys(Hmac.Sha256Mac, secret)
  {
    var prk := Hmac.HmacSha256(Ascii("signed-uuid-hkdf-salt-v1-20250629"), secret);
    var enc := Hmac.HkdfExpand(prk, Ascii("uuid-enc-v1"));
    var mac := Hmac.HkdfExpand(prk, Ascii("uuid-mac-v1"));
    k := Keys(enc, mac);
  }

  function Plain(p: Payload): Cipher {
    [p.typeByte] + p.ipv4 + [p.port / 256, p.port % 256]
  }

  function PayloadOf(plain: Cipher): Payload {
    Vless.Payload(plain[0], plain[1..5], plain[5] as int * 256 + plain[6])
  }

  lemma PlainReads(p: Payload)
    ensures PayloadOf(Plain(p)) == p
  {
  }

  lemma PayloadWrites(plain: Cipher)
    ensures Plain(PayloadOf(plain)) == plain
  {
    var port: nat := plain[5] as int * 256 + plain[6];
    assert port / 256 == plain[5] && port % 256 == plain[6];
  }

  function Keystream(hmac: Mac, k: Keys, nonce: Octets): Hmac.Digest {
    hmac(k.enc, nonce + [0])
  }

  /** The key of the tag: derived from the context unless it is empty. */
  function MacKey(hmac: Mac, k: Keys, context: bytes): Hmac.Digest {
    if |context| == 0 then k.mac else hmac(k.mac, context)
  }

  function Tag(hmac: Mac, k: Keys, nonce: Octets, cipher: Cipher, context: bytes): (t: bytes)
    ensures |t| == MAC_LEN
  {
    hmac(MacKey(hmac, k, context), nonce + cipher)[..MAC_LEN]
  }

  function CipherOf(hmac: Mac, k: Keys, p: Payload, nonce: Octets): Cipher {
    Xored(Plain(p), Keystream(hmac, k, nonce))
  }

  /** Nonce, ciphertext, truncated tag. */
  function Encoded(hmac: Mac, k: Keys, p: Payload, nonce: Octets): Uuid {
    var c := CipherOf(hmac, k, p, nonce);
    nonce + c + Tag(hmac, k, nonce, c, [])
  }

  function Decoded(hmac: Mac, k: Keys, u: Uuid, context: bytes): Option<Payload> {
    if u[11..] != Tag(hmac, k, u[..4], u[4..11], context) then None
    else Some(PayloadOf(Xored(u[4..11], Keystream(hmac, k, u[..4]))))
  }

  // ---------------------------------------------------------------- the loops

  method XorLoop(a: Cipher, stream: Hmac.Digest) returns (c: Cipher)
    ensures c == Xored(a, stream)
  {
    var out := new byte[PLAINTEXT_LEN](_ => 0);
    for i := 0 to PLAINTEXT_LEN
      invariant forall j :: 0 <= j < i ==> out[j] == Xor(a[j], stream[j])
    {
      out[i] := Xor(a[i], stream[i]);
    }
    c := out[..];
    assert c == Xored(a, stream);
  }

  method Encode(hmac: Mac, k: Keys, p: Payload, nonce: Octets) returns (u: Uuid)
    ensures u == Encoded(hmac, k, p, nonce)
  {
    var cipher := XorLoop(Plain(p), hmac(k.enc, nonce + [0]));
    var mac := hmac(k.mac, nonce + cipher);
    u := nonce + cipher + mac[..MAC_LEN];
  }

  /** Equality without an early exit: the disjunction of all the differences. */
  method ConstantTimeEq(a: bytes, b: bytes) returns (equal: bool)
    ensures equal <==> a == b
  {
    if |a| != |b| {
      return false;
    }
    var v: byte := 0;
    for i := 0 to |a|
      invariant v == 0 <==> a[..i] == b[..i]
    {
      OrNatZero(v, Xor(a[i], b[i]));
      XorNatZero(a[i], b[i]);
      InitLast(a[..i + 1]);
      InitLast(b[..i + 1]);
      assert a[..i + 1][..i] == a[..i] && b[..i + 1][..i] == b[..i];
      v := Or(v, Xor(a[i], b[i]));
    }
    WholeTake(a);
    WholeTake(b);
    return v == 0;
  }

  method DecodeWithContext(hmac: Mac, k: Keys, u: Uuid, context: bytes) returns (r: Option<Payload>)
    ensures r == Decoded(hmac, k, u, context)
  {
    var nonce, cipher, mac := u[..NONCE_LEN], u[NONCE_LEN..11], u[11..];
    var derived := if |context| == 0 then k.mac else hmac(k.mac, context);
    var expected := hmac(derived, nonce + cipher);
    var authentic := ConstantTimeEq(mac, expected[..MAC_LEN]);
    if !authentic {
      return None;
    }
    var plain := XorLoop(cipher, hmac(k.enc, nonce + [0]));
    return Some(Vless.Payload(plain[0], plain[1..5], plain[5] as int * 256 + plain[6]));
  }

  // ---------------------------------------------------------------- round trip

  lemma Parts(nonce: Octets, c: Cipher, t: bytes)
    requires |t| == MAC_LEN
    ensures (nonce + c + t)[..4] == nonce && (nonce + c + t)[4..11] == c && (nonce + c + t)[11..] == t
  {
  }

  /** The relay reads back exactly what the subscription worker signed. */
  lemma RoundTrip(hmac: Mac, k: Keys, p: Payload, nonce: Octets)
    ensures Decoded(hmac, k, Encoded(hmac, k, p, nonce), []) == Some(p)
  {
    var c := CipherOf(hmac, k, p, nonce);
    Parts(nonce, c, Tag(hmac, k, nonce, c, []));
    XoredTwice(Plain(p), Keystream(hmac, k, nonce));
    PlainReads(p);
  }

  /** And the relay accepts nothing else: a UUID decodes exactly if it is the encoding of
      its payload under its own nonce. */
  lemma OnlyEncodedDecode(hmac: Mac, k: Keys, u: Uuid, p: Payload)
    ensures Decoded(hmac, k, u, []) == Some(p) <==> u == Encoded(hmac, k, p, u[..4])
  {
    if u == Encoded(hmac, k, p, u[..4]) {
      RoundTrip(hmac, k, p, u[..4]);
    }
    if Decoded(hmac, k, u, []) == Some(p) {
      var stream := Keystream(hmac, k, u[..4]);
      XoredTwice(u[4..11], stream);
      PayloadWrites(Xored(u[4..11], stream));
      assert u == u[..4] + u[4..11] + u[11..];
    }
  }

  // ---------------------------------------------------------------- in terms of the MAC

  /** A UUID is accepted exactly if its last five bytes are the first five of the MAC over all
      the others, under the key of the context. */
  lemma AcceptsExactly(hmac: Mac, k: Keys, u: Uuid, context: bytes)
    ensures Decoded(hmac, k, u, context).Some?
       <==> u[11..] == hmac(if context == [] then k.mac else hmac(k.mac, context), u[..11])[..5]
  {
    assert u[..4] + u[4..11] == u[..11];
  }

  /** And then its payload is what is masked by the MAC of the nonce and a zero byte: type,
      address, port. */
  lemma PayloadUnmasked(hmac: Mac, k: Keys, u: Uuid, context: bytes)
    requires Decoded(hmac, k, u, context).Some?
    ensures
      var p := Decoded(hmac, k, u, context).value;
      var plain := [p.typeByte] + p.ipv4 + [p.port / 256, p.port % 256];
      forall i :: 0 <= i < 7 ==> plain[i] == Xor(u[4 + i], hmac(k.enc, u[..4] + [0x00])[i])
  {
    var masked, stream := u[4..11], Keystream(hmac, k, u[..4]);
    PayloadWrites(Xored(masked, stream));
    assert forall i :: 0 <= i < 7 ==> Xored(masked, stream)[i] == Xor(masked[i], stream[i]);
  }

  /** "signed-uuid-hkdf-salt-v1-20250629" */
  const SALT: bytes := [
    115, 105, 103, 110, 101, 100, 45, 117, 117, 105, 100, 45, 104, 107, 100, 102, 45, 115, 97, 108, 116, 45, 118, 49, 45, 50, 48,
    50, 53, 48, 54, 50, 57]

  /** "uuid-enc-v1" and "uuid-mac-v1" with the counter of the first block. */
  const ENC_INFO: bytes := [117, 117, 105, 100, 45, 101, 110, 99, 45, 118, 49, 1]

  const MAC_INFO: bytes := [117, 117, 105, 100, 45, 109, 97, 99, 45, 118, 49, 1]

  lemma SaltBytes()
    ensures Ascii("signed-uuid-hkdf-salt-v1-20250629") == SALT
  {
  }

  lemma InfoBytes()
    ensures Ascii("uuid-enc-v1") + [0x01] == ENC_INFO && Ascii("uuid-mac-v1") + [0x01] == MAC_INFO
  {
  }

  /** The salt and the two labels byte for byte: HKDF with one block of output each. */
  lemma KeysByBytes(hmac: Mac, secret: bytes)
    ensures
      var prk := hmac(SALT, secret);
      DeriveKeys(hmac, secret) == Keys(hmac(prk, ENC_INFO), hmac(prk, MAC_INFO))
  {
    SaltBytes();
    InfoBytes();
  }

  // ---------------------------------------------------------------- text

  predicate DashBefore(i: nat) {
    i == 4 || i == 6 || i == 8 || i == 10
  }

  /** The first `n` bytes in the 8-4-4-4-12 form. */
  function Formatted(u: Uuid, n: nat): string
    requires n <= 16
  {
    if n == 0 then ""
    else Formatted(u, n - 1) + (if DashBefore(n - 1) then "-" else "") + HexByte(u[n - 1])
  }

  function UuidText(u: Uuid): string {
    Formatted(u, 16)
  }

  /** Where byte `k` stands in the text, behind its dash. */
  function Place(k: nat): nat {
    2 * k + (if k >= 10 then 4 else if k >= 8 then 3 else if k >= 6 then 2 else if k >= 4 then 1 else 0)
  }

  /** Two lower-case digits for every byte in order, and dashes between 4, 2, 2, 2 and 6 of
      them. */
  predicate SpellsUuid(s: string, u: Uuid) {
    && |s| == 36 && s[8] == '-' && s[13] == '-' && s[18] == '-' && s[23] == '-'
    && forall k :: 0 <= k < 16 ==> SpellsByte(s, Place(k), u[k])
  }

  lemma {:induction false} FormattedLength(u: Uuid, n: nat)
    requires n <= 16
    ensures |Formatted(u, n)| == if n == 0 then 0 else Place(n - 1) + 2
  {
    if n > 0 {
      FormattedLength(u, n - 1);
    }
  }

  lemma FormattedLast(u: Uuid, n: nat)
    requires 0 < n <= 16
    ensures |Formatted(u, n - 1)| <= |Formatted(u, n)| == Place(n - 1) + 2
    ensures forall i :: 0 <= i < |Formatted(u, n - 1)| ==> Formatted(u, n)[i] == Formatted(u, n - 1)[i]
    ensures SpellsByte(Formatted(u, n), Place(n - 1), u[n - 1])
    ensures DashBefore(n - 1) ==> Formatted(u, n)[Place(n - 1) - 1] == '-'
  {
    FormattedLength(u, n);
    FormattedLength(u, n - 1);
    ByteBehind(Formatted(u, n - 1), if DashBefore(n - 1) then "-" else "", u[n - 1]);
  }

  lemma {:induction false} FormattedReads(u: Uuid, n: nat, k: nat)
    requires k < n <= 16
    ensures |Formatted(u, n)| == Place(n - 1) + 2 && SpellsByte(Formatted(u, n), Place(k), u[k])
    ensures DashBefore(k) ==> Formatted(u, n)[Place(k) - 1] == '-'
    decreases n
  {
    FormattedLast(u, n);
    if k < n - 1 {
      FormattedReads(u, n - 1, k);
    }
  }

  lemma ByteBehind(front: string, dash: string, b: byte)
    ensures
      var s := front + dash + HexByte(b);
      && (forall i :: 0 <= i < |front| ==> s[i] == front[i]) && (|dash| == 1 ==> s[|front|] == dash[0])
      && SpellsByte(s, |front| + |dash|, b)
  {
  }

  lemma TextLayout(u: Uuid)
    ensures SpellsUuid(UuidText(u), u)
  {
    forall k | 0 <= k < 16
      ensures SpellsByte(UuidText(u), Place(k), u[k]) && (DashBefore(k) ==> UuidText(u)[Place(k) - 1] == '-')
    {
      FormattedReads(u, 16, k);
    }
    FormattedReads(u, 16, 0);
    assert DashBefore(4) && DashBefore(6) && DashBefore(8) && DashBefore(10);
    assert Place(4) == 9 && Place(6) == 14 && Place(8) == 19 && Place(10) == 24;
  }

  method FormatUuid(u: Uuid) returns (s: string)
    ensures s == UuidText(u)
  {
    s := "";
    for i := 0 to 16
      invariant s == Formatted(u, i)
    {
      if i == 4 || i == 6 || i == 8 || i == 10 {
        s := s + "-";
      } else {
        NilRight(s);
      }
      ghost var before := s;
      s := s + [HexDigit(u[i] / 16)];
      s := s + [HexDigit(u[i] % 16)];
      Assoc(before, [HexDigit(u[i] / 16)], [HexDigit(u[i] % 16)]);
    }
  }

  /** The digits of a text once its dashes are dropped; none if some character is neither. */
  function Digits(s: string): (d: Option<seq<nat>>)
    ensures d.Some? ==> forall i :: 0 <= i < |d.value| ==> d.value[i] < 16
  {
    if |s| == 0 then Some([])
    else
      match Digits(s[..|s| - 1])
      case None => None
      case Some(d) =>
        var c := s[|s| - 1];
        if c == '-' then Some(d)
        else
          match HexValue(c)
          case None => None
          case Some(v) => Some(d + [v])
  }

  /** Digits two by two, high nibble first; an odd last digit is not part of a byte. */
  function Paired(d: seq<nat>): (b: bytes)
    requires forall i :: 0 <= i < |d| ==> d[i] < 16
    ensures |b| == |d| / 2
  {
    seq(|d| / 2, i requires 0 <= i < |d| / 2 => d[2 * i] * 16 + d[2 * i + 1])
  }

  /** What `from_str` accepts: 32 hexadecimal digits, with dashes anywhere. */
  function UuidOfText(s: string): Option<Uuid> {
    match Digits(s)
    case None => None
    case Some(d) => if |d| == 32 then Some(Paired(d)) else None
  }

  /** A text extends: its digits fail or grow. */
  lemma {:induction false} DigitsPrefix(s: string, n: nat)
    requires n <= |s| && Digits(s).Some?
    ensures Digits(s[..n]).Some? && |Digits(s[..n]).value| <= |Digits(s).value|
    decreases |s|
  {
    if n == |s| {
      WholeTake(s);
    } else {
      assert s[..|s| - 1][..n] == s[..n];
      DigitsPrefix(s[..|s| - 1], n);
    }
  }

  /** `from_str` holds a pending high nibble in `hi` and `idx` finished bytes in `hex`. */
  ghost predicate Scanned(s: string, hex: seq<byte>, idx: nat, hi: Option<nat>) {
    && idx <= 32 && |hex| == 32
    && Digits(s).Some?
    && var d := Digits(s).value;
    && |d| == 2 * idx + (if hi.Some? then 1 else 0)
    && Paired(d) == hex[..idx]
    && (hi.Some? ==> hi.value == d[|d| - 1])
  }

  lemma ScanHigh(s: string, c: char, hex: seq<byte>, idx: nat, v: nat)
    requires Scanned(s, hex, idx, None) && c != '-' && HexValue(c) == Some(v)
    ensures Scanned(s + [c], hex, idx, Some(v))
  {
    var d := Digits(s).value;
    assert (s + [c])[..|s|] == s;
    assert Paired(d + [v]) == Paired(d);
  }

  lemma ScanLow(s: string, c: char, hex: seq<byte>, idx: nat, h: nat, v: nat)
    requires Scanned(s, hex, idx, Some(h)) && c != '-' && HexValue(c) == Some(v) && idx < 32
    requires h < 16
    ensures Scanned(s + [c], hex[idx := h * 16 + v], idx + 1, None)
  {
    var d := Digits(s).value;
    assert (s + [c])[..|s|] == s;
    assert d + [v] == Digits(s + [c]).value;
    assert (d + [v])[2 * idx] == h && (d + [v])[2 * idx + 1] == v;
    assert Paired(d + [v]) == Paired(d) + [h * 16 + v];
    assert hex[idx := h * 16 + v][..idx + 1] == hex[..idx] + [h * 16 + v];
  }

  lemma ScanDash(s: string, hex: seq<byte>, idx: nat, hi: Option<nat>)
    requires Scanned(s, hex, idx, hi)
    ensures Scanned(s + ['-'], hex, idx, hi)
  {
    assert (s + ['-'])[..|s|] == s;
  }

  method FromStr(s: string) returns (u: Option<Uuid>)
    ensures u == UuidOfText(s)
  {
    var hex := new byte[32](_ => 0);
    var hi: Option<nat> := None;
    var idx := 0;
    assert Paired([]) == [];
    for n := 0 to |s|
      invariant Scanned(s[..n], hex[..], idx, hi)
    {
      var c := s[n];
      assert s[..n + 1] == s[..n] + [c];
      if c == '-' {
        ScanDash(s[..n], hex[..], idx, hi);
      } else {
        var v := HexValue(c);
        if v.None? {
          Refused(s, n);
          return None;
        }
        if hi.Some? {
          if idx >= 32 {
            TooLong(s, n);
            return None;
          }
          ScanLow(s[..n], c, hex[..], idx, hi.value, v.value);
          hex[idx] := hi.value * 16 + v.value;
          idx := idx + 1;
          hi := None;
        } else {
          ScanHigh(s[..n], c, hex[..], idx, v.value);
          hi := v;
        }
      }
    }
    WholeTake(s);
    if hi.Some? || idx != 16 {
      return None;
    }
    return Some(hex[..16]);
  }

  lemma Refused(s: string, n: nat)
    requires n < |s| && s[n] != '-' && HexValue(s[n]).None?
    ensures UuidOfText(s).None?
  {
    if Digits(s).Some? {
      DigitsPrefix(s, n + 1);
    }
  }

  lemma TooLong(s: string, n: nat)
    requires n < |s| && Digits(s[..n]).Some? && |Digits(s[..n]).value| > 32
    ensures UuidOfText(s).None?
  {
    if Digits(s).Some? {
      DigitsPrefix(s, n);
    }
  }

  // ---------------------------------------------------------------- text round trip

  /** The digits of the first `n` bytes. */
  function Nibbles(u: Uuid, n: nat): (d: seq<nat>)
    requires n <= 16
    ensures |d| == 2 * n && forall i :: 0 <= i < n ==> d[2 * i] == u[i] / 16 && d[2 * i + 1] == u[i] % 16
  {
    if n == 0 then [] else Nibbles(u, n - 1) + [u[n - 1] / 16, u[n - 1] % 16]
  }

  lemma DigitsSnoc(s: string, c: char, d: seq<nat>, v: nat)
    requires Digits(s) == Some(d) && c != '-' && HexValue(c) == Some(v)
    ensures Digits(s + [c]) == Some(d + [v])
  {
    assert (s + [c])[..|s|] == s;
  }

  lemma DigitsDash(s: string)
    ensures Digits(s + "-") == Digits(s)
  {
    assert (s + "-")[..|s|] == s;
  }

  lemma {:induction false} FormattedDigits(u: Uuid, n: nat)
    requires n <= 16
    ensures Digits(Formatted(u, n)) == Some(Nibbles(u, n))
  {
    if n > 0 {
      FormattedDigits(u, n - 1);
      var head := Formatted(u, n - 1) + (if DashBefore(n - 1) then "-" else "");
      DigitsDash(Formatted(u, n - 1));
      NilRight(Formatted(u, n - 1));
      AppendByte(head, Nibbles(u, n - 1), u[n - 1]);
    }
  }

  lemma AppendByte(s: string, d: seq<nat>, b: byte)
    requires Digits(s) == Some(d)
    ensures Digits(s + HexByte(b)) == Some(d + [b / 16, b % 16])
  {
    HexDigitReads(b / 16);
    HexDigitReads(b % 16);
    DigitsSnoc(s, HexDigit(b / 16), d, b / 16);
    DigitsSnoc(s + [HexDigit(b / 16)], HexDigit(b % 16), d + [b / 16], b % 16);
    assert s + HexByte(b) == s + [HexDigit(b / 16)] + [HexDigit(b % 16)];
    assert d + [b / 16, b % 16] == d + [b / 16] + [b % 16];
  }

  /** What the subscription worker prints, the relay parses to the same sixteen bytes. */
  lemma TextRoundTrip(u: Uuid)
    ensures UuidOfText(UuidText(u)) == Some(u)
  {
    FormattedDigits(u, 16);
    var d := Nibbles(u, 16);
    forall i | 0 <= i < 16 ensures Paired(d)[i] == u[i] {
      assert d[2 * i] == u[i] / 16 && d[2 * i + 1] == u[i] % 16;
    }
    assert Paired(d) == u;
  }

  /** Printing, parsing and decoding together. */
  lemma SignedTextReads(hmac: Mac, k: Keys, p: Payload, nonce: Octets)
    ensures UuidOfText(UuidText(Encoded(hmac, k, p, nonce))).Some?
    ensures Decoded(hmac, k, UuidOfText(UuidText(Encoded(hmac, k, p, nonce))).value, []) == Some(p)
  {
    TextRoundTrip(Encoded(hmac, k, p, nonce));
    RoundTrip(hmac, k, p, nonce);
  }
}
