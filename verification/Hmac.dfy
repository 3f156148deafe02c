/** HMAC-SHA256 and the one-block HKDF of `relay/src/hmac.rs` against RFC 2104 and RFC 5869. */
module Hmac {
  import opened Bytes
  import opened Bits
  import Fips
  import Sha256

  const BLOCK := 64

  type Digest = b: bytes | |b| == 32
    witness [0, 0, 0, 0, 0, 0, 0, 0, 0, 0, 0, 0, 0, 0, 0, 0, 0, 0, 0, 0, 0, 0, 0, 0, 0, 0, 0, 0, 0, 0, 0, 0]

  /** A hash function, and how `update` calls may feed it. */
  type Hash = bytes -> Digest

  function Repeat(b: byte, n: nat): (r: bytes)
    ensures |r| == n && forall i :: 0 <= i < n ==> r[i] == b
  {
    seq(n, _ => b)
  }

  /** Section 2 of RFC 2104: hash a long key, then pad with zeros to a block. */
  function KeyBlock(hash: Hash, key: bytes): (k: bytes)
    ensures |k| == BLOCK
  {
    var k: bytes := if |key| > BLOCK then hash(key) else key;
    k + Repeat(0, BLOCK - |k|)
  }

  /** H(K XOR opad, H(K XOR ipad, text)) */
  function HmacOf(hash: Hash, key: bytes, message: bytes): Digest {
    var k := KeyBlock(hash, key);
    hash(Xored(Repeat(0x5c, BLOCK), k) + hash(Xored(Repeat(0x36, BLOCK), k) + message))
  }

  /** The first and only block of HKDF-Expand, section 2.3 of RFC 5869. */
  function Expand(hash: Hash, prk: bytes, info: bytes): Digest {
    HmacOf(hash, prk, info + [0x01])
  }

  // ---------------------------------------------------------------- SHA-256 as a hash

  function Sha(m: bytes): Digest {
    Fips.Sha256(m)
  }

  const LIMIT: nat := Sha256.TWO64 / 8 - BLOCK

  /** `key_block`: the source copies the short key, or the digest of the long one, over zeros. */
  method FillKeyBlock(key: bytes) returns (block: array<byte>)
    requires |key| < LIMIT
    ensures fresh(block) && block[..] == KeyBlock(Sha, key)
  {
    block := new byte[BLOCK](_ => 0);
    var k: bytes := key;
    if |key| > BLOCK {
      k := HashTwo(key, []);
      NilRight(key);
    }
    forall i | 0 <= i < |k| {
      block[i] := k[i];
    }
    assert block[..] == k + Repeat(0, BLOCK - |k|);
  }

  /** Two updates and a finalize. */
  method HashTwo(first: bytes, second: bytes) returns (digest: Digest)
    requires |first| + |second| < LIMIT + BLOCK
    ensures digest == Sha(first + second)
  {
    ConcatSnoc([first], second);
    ConcatSnoc([], first);
    assert [] + [first] == [first];
    NilLeft(first);
    var d := Sha256.HashPieces([first, second]);
    assert [first] + [second] == [first, second];
    digest := d;
  }

  method HmacSha256(key: bytes, message: bytes) returns (mac: Digest)
    requires |key| < LIMIT && |message| < LIMIT
    ensures mac == HmacOf(Sha, key, message)
  {
    var block := FillKeyBlock(key);
    ghost var k := block[..];
    var ipad := new byte[BLOCK](_ => 0x36);
    var opad := new byte[BLOCK](_ => 0x5c);
    for i := 0 to BLOCK
      invariant block[..] == k
      invariant forall j :: 0 <= j < i ==> ipad[j] == Xor(0x36, k[j]) && opad[j] == Xor(0x5c, k[j])
      invariant forall j :: i <= j < BLOCK ==> ipad[j] == 0x36 && opad[j] == 0x5c
    {
      ipad[i] := Xor(ipad[i], block[i]);
      opad[i] := Xor(opad[i], block[i]);
    }
    assert ipad[..] == Xored(Repeat(0x36, BLOCK), k);
    assert opad[..] == Xored(Repeat(0x5c, BLOCK), k);
    var inner := HashTwo(ipad[..], message);
    mac := HashTwo(opad[..], inner);
  }

  /** HMAC-SHA256 as a function, for the modules above. */
  function Sha256Mac(key: bytes, message: bytes): Digest {
    HmacOf(Sha, key, message)
  }

  /** `hkdf_expand`: the source's 64-byte buffer has room for the info and one counter byte. */
  method HkdfExpand(prk: Digest, info: bytes) returns (okm: Digest)
    requires |info| < BLOCK
    ensures okm == Expand(Sha, prk, info)
  {
    var input := new byte[BLOCK](_ => 0);
    forall i | 0 <= i < |info| {
      input[i] := info[i];
    }
    input[|info|] := 0x01;
    assert input[..|info| + 1] == info + [0x01];
    okm := HmacSha256(prk, input[..|info| + 1]);
  }
}
