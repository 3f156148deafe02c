/** SHA-256 as FIPS 180-4 defines it: the reference the streaming code is held to. The
    definitions are parametric in the word arithmetic, so that everything above single
    words is proved once, and the bit-level facts stay in a handful of one-line lemmas. */
module Fips {
  import opened Bytes

  type Block = b: bytes | |b| == 64
    witness [0, 0, 0, 0, 0, 0, 0, 0, 0, 0, 0, 0, 0, 0, 0, 0, 0, 0, 0, 0, 0, 0, 0, 0, 0, 0, 0, 0, 0, 0, 0, 0,
             0, 0, 0, 0, 0, 0, 0, 0, 0, 0, 0, 0, 0, 0, 0, 0, 0, 0, 0, 0, 0, 0, 0, 0, 0, 0, 0, 0, 0, 0, 0, 0]

  /** Eight working variables, or an intermediate hash value. */
  datatype Words<W> = Words(a: W, b: W, c: W, d: W, e: W, f: W, g: W, h: W)

  /** Word arithmetic: addition, the six functions of section 4.1.2, the constants, and the
      big-endian conversions. */
  datatype Arith<!W> = Arith(
    add: (W, W) -> W,
    ch: (W, W, W) -> W,
    maj: (W, W, W) -> W,
    big0: W -> W,
    big1: W -> W,
    small0: W -> W,
    small1: W -> W,
    constant: u32 -> W,
    fromBytes: (byte, byte, byte, byte) -> W,
    toBytes: W -> Quad,
    lengthField: nat -> Eight)

  type Quad = b: bytes | |b| == 4 witness [0, 0, 0, 0]

  type Eight = b: bytes | |b| == 8 witness [0, 0, 0, 0, 0, 0, 0, 0]

  // ---------------------------------------------------------------- parsing and schedule

  function WordAt<W>(ar: Arith<W>, b: Block, t: nat): W
    requires t < 16
  {
    ar.fromBytes(b[t * 4], b[t * 4 + 1], b[t * 4 + 2], b[t * 4 + 3])
  }

  /** Step 1 of section 6.2.2. */
  function Schedule<W>(ar: Arith<W>, b: Block, t: nat): W
    requires t < 64
  {
    if t < 16 then WordAt(ar, b, t)
    else ar.add(ar.add(ar.add(ar.small1(Schedule(ar, b, t - 2)), Schedule(ar, b, t - 7)),
                       ar.small0(Schedule(ar, b, t - 15))), Schedule(ar, b, t - 16))
  }

  // ---------------------------------------------------------------- computation, section 6.2.2

  /** Step 3 for one `t`. */
  function Round<W>(ar: Arith<W>, v: Words<W>, k: W, w: W): Words<W> {
    var t1 := ar.add(ar.add(ar.add(ar.add(v.h, ar.big1(v.e)), ar.ch(v.e, v.f, v.g)), k), w);
    var t2 := ar.add(ar.big0(v.a), ar.maj(v.a, v.b, v.c));
    Words(ar.add(t1, t2), v.a, v.b, v.c, ar.add(v.d, t1), v.e, v.f, v.g)
  }

  function Rounds<W>(ar: Arith<W>, v: Words<W>, b: Block, t: nat): Words<W>
    requires t <= 64
  {
    if t == 0 then v else Round(ar, Rounds(ar, v, b, t - 1), ar.constant(K(t - 1)), Schedule(ar, b, t - 1))
  }

  function AddAll<W>(ar: Arith<W>, v: Words<W>, r: Words<W>): Words<W> {
    Words(ar.add(v.a, r.a), ar.add(v.b, r.b), ar.add(v.c, r.c), ar.add(v.d, r.d),
          ar.add(v.e, r.e), ar.add(v.f, r.f), ar.add(v.g, r.g), ar.add(v.h, r.h))
  }

  /** Step 4. */
  function Compress<W>(ar: Arith<W>, v: Words<W>, b: Block): Words<W> {
    AddAll(ar, v, Rounds(ar, v, b, 64))
  }

  function InitialHash<W>(ar: Arith<W>): Words<W> {
    Words(ar.constant(IV[0]), ar.constant(IV[1]), ar.constant(IV[2]), ar.constant(IV[3]),
          ar.constant(IV[4]), ar.constant(IV[5]), ar.constant(IV[6]), ar.constant(IV[7]))
  }

  /** A whole number of blocks. */
  predicate Aligned(n: nat) {
    n == 0 || (n >= 64 && Aligned(n - 64))
  }

  lemma {:induction false} AlignedIff(n: nat)
    ensures Aligned(n) <==> n % 64 == 0
  {
    if n >= 64 {
      AlignedIff(n - 64);
    }
  }

  lemma {:induction false} AlignedSum(a: nat, b: nat)
    requires Aligned(a)
    ensures Aligned(a + b) <==> Aligned(b)
  {
    if a > 0 {
      AlignedSum(a - 64, b);
    }
  }

  /** All blocks of a padded message, in order. */
  function HashBlocks<W>(ar: Arith<W>, v: Words<W>, m: bytes): Words<W>
    requires Aligned(|m|)
    decreases |m|
  {
    if |m| == 0 then v
    else HashBlocks(ar, Compress(ar, v, m[..64]), m[64..])
  }

  lemma {:induction false} HashAppend<W>(ar: Arith<W>, v: Words<W>, a: bytes, b: bytes)
    requires Aligned(|a|) && Aligned(|b|) && Aligned(|a| + |b|)
    ensures HashBlocks(ar, v, a + b) == HashBlocks(ar, HashBlocks(ar, v, a), b)
    decreases |a|
  {
    if |a| == 0 {
      NilLeft(b);
    } else {
      SliceStable(a, b, 0, 64);
      TailAppend(a, b, 64);
      HashAppend(ar, Compress(ar, v, a[..64]), a[64..], b);
    }
  }

  lemma HashOne<W>(ar: Arith<W>, v: Words<W>, b: Block)
    ensures HashBlocks(ar, v, b) == Compress(ar, v, b)
  {
    WholeTake(b);
  }

  /** One more block at the end. */
  lemma HashSnoc<W>(ar: Arith<W>, v: Words<W>, m: bytes, b: Block)
    requires Aligned(|m|)
    ensures Aligned(|m + b|)
    ensures HashBlocks(ar, v, m + b) == Compress(ar, HashBlocks(ar, v, m), b)
  {
    AlignedSum(|m|, 64);
    HashAppend(ar, v, m, b);
    HashOne(ar, HashBlocks(ar, v, m), b);
  }

  // ---------------------------------------------------------------- constants, sections 4.2.2 and 5.3.3

  const K_ROWS: seq<seq<u32>> := [
    [0x428a2f98, 0x71374491, 0xb5c0fbcf, 0xe9b5dba5, 0x3956c25b, 0x59f111f1, 0x923f82a4, 0xab1c5ed5],
    [0xd807aa98, 0x12835b01, 0x243185be, 0x550c7dc3, 0x72be5d74, 0x80deb1fe, 0x9bdc06a7, 0xc19bf174],
    [0xe49b69c1, 0xefbe4786, 0x0fc19dc6, 0x240ca1cc, 0x2de92c6f, 0x4a7484aa, 0x5cb0a9dc, 0x76f988da],
    [0x983e5152, 0xa831c66d, 0xb00327c8, 0xbf597fc7, 0xc6e00bf3, 0xd5a79147, 0x06ca6351, 0x14292967],
    [0x27b70a85, 0x2e1b2138, 0x4d2c6dfc, 0x53380d13, 0x650a7354, 0x766a0abb, 0x81c2c92e, 0x92722c85],
    [0xa2bfe8a1, 0xa81a664b, 0xc24b8b70, 0xc76c51a3, 0xd192e819, 0xd6990624, 0xf40e3585, 0x106aa070],
    [0x19a4c116, 0x1e376c08, 0x2748774c, 0x34b0bcb5, 0x391c0cb3, 0x4ed8aa4a, 0x5b9cca4f, 0x682e6ff3],
    [0x748f82ee, 0x78a5636f, 0x84c87814, 0x8cc70208, 0x90befffa, 0xa4506ceb, 0xbef9a3f7, 0xc67178f2]]

  const IV: seq<u32> := [0x6a09e667, 0xbb67ae85, 0x3c6ef372, 0xa54ff53a, 0x510e527f, 0x9b05688c, 0x1f83d9ab, 0x5be0cd19]

  const PRIME_ROWS: seq<seq<nat>> := [
    [2, 3, 5, 7, 11, 13, 17, 19],
    [23, 29, 31, 37, 41, 43, 47, 53],
    [59, 61, 67, 71, 73, 79, 83, 89],
    [97, 101, 103, 107, 109, 113, 127, 131],
    [137, 139, 149, 151, 157, 163, 167, 173],
    [179, 181, 191, 193, 197, 199, 211, 223],
    [227, 229, 233, 239, 241, 251, 257, 263],
    [269, 271, 277, 281, 283, 293, 307, 311]]

  /** The round constants, eight to a row. */
  function K(t: nat): u32
    requires t < 64
  {
    K_ROWS[t / 8][t % 8]
  }

  /** The first 64 primes. */
  function Prime(t: nat): nat
    requires t < 64
  {
    PRIME_ROWS[t / 8][t % 8]
  }

  const TWO32: nat := 0x1_0000_0000

  /** `k` is the first 32 bits of the fractional part of the cube root of `p`. */
  predicate CubeRootBits(p: nat, k: nat) {
    var whole := if p < 8 then 1 else if p < 27 then 2 else if p < 64 then 3
                 else if p < 125 then 4 else if p < 216 then 5 else 6;
    var n := whole * TWO32 + k;
    n * n * n <= p * TWO32 * TWO32 * TWO32 < (n + 1) * (n + 1) * (n + 1)
  }

  /** `k` is the first 32 bits of the fractional part of the square root of `p`. */
  predicate SquareRootBits(p: nat, k: nat) {
    var whole := if p < 4 then 1 else if p < 9 then 2 else if p < 16 then 3 else 4;
    var n := whole * TWO32 + k;
    n * n <= p * TWO32 * TWO32 < (n + 1) * (n + 1)
  }

  /** The tables of the source are the constants the standard derives from the primes. */
  lemma ConstantsAreRoots(t: nat)
    requires t < 64
    ensures CubeRootBits(Prime(t), K(t))
    ensures t < 8 ==> SquareRootBits(Prime(t), IV[t])
  {
    match t / 8
    case 0 => Row0(t % 8);
    case 1 => Row1(t % 8);
    case 2 => Row2(t % 8);
    case 3 => Row3(t % 8);
    case 4 => Row4(t % 8);
    case 5 => Row5(t % 8);
    case 6 => Row6(t % 8);
    case 7 => Row7(t % 8);
  }

  lemma Row0(i: nat)
    requires i < 8
    ensures CubeRootBits(PRIME_ROWS[0][i], K_ROWS[0][i])
    ensures SquareRootBits(PRIME_ROWS[0][i], IV[i])
  {
    assert SquareRootBits(2, 0x6a09e667) && SquareRootBits(3, 0xbb67ae85);
    assert SquareRootBits(5, 0x3c6ef372) && SquareRootBits(7, 0xa54ff53a);
    assert SquareRootBits(11, 0x510e527f) && SquareRootBits(13, 0x9b05688c);
    assert SquareRootBits(17, 0x1f83d9ab) && SquareRootBits(19, 0x5be0cd19);
    assert CubeRootBits(2, 0x428a2f98) && CubeRootBits(3, 0x71374491);
    assert CubeRootBits(5, 0xb5c0fbcf) && CubeRootBits(7, 0xe9b5dba5);
    assert CubeRootBits(11, 0x3956c25b) && CubeRootBits(13, 0x59f111f1);
    assert CubeRootBits(17, 0x923f82a4) && CubeRootBits(19, 0xab1c5ed5);
  }

  lemma Row1(i: nat)
    requires i < 8
    ensures CubeRootBits(PRIME_ROWS[1][i], K_ROWS[1][i])
  {
    assert CubeRootBits(23, 0xd807aa98) && CubeRootBits(29, 0x12835b01);
    assert CubeRootBits(31, 0x243185be) && CubeRootBits(37, 0x550c7dc3);
    assert CubeRootBits(41, 0x72be5d74) && CubeRootBits(43, 0x80deb1fe);
    assert CubeRootBits(47, 0x9bdc06a7) && CubeRootBits(53, 0xc19bf174);
  }

  lemma Row2(i: nat)
    requires i < 8
    ensures CubeRootBits(PRIME_ROWS[2][i], K_ROWS[2][i])
  {
    assert CubeRootBits(59, 0xe49b69c1) && CubeRootBits(61, 0xefbe4786);
    assert CubeRootBits(67, 0x0fc19dc6) && CubeRootBits(71, 0x240ca1cc);
    assert CubeRootBits(73, 0x2de92c6f) && CubeRootBits(79, 0x4a7484aa);
    assert CubeRootBits(83, 0x5cb0a9dc) && CubeRootBits(89, 0x76f988da);
  }

  lemma Row3(i: nat)
    requires i < 8
    ensures CubeRootBits(PRIME_ROWS[3][i], K_ROWS[3][i])
  {
    assert CubeRootBits(97, 0x983e5152) && CubeRootBits(101, 0xa831c66d);
    assert CubeRootBits(103, 0xb00327c8) && CubeRootBits(107, 0xbf597fc7);
    assert CubeRootBits(109, 0xc6e00bf3) && CubeRootBits(113, 0xd5a79147);
    assert CubeRootBits(127, 0x06ca6351) && CubeRootBits(131, 0x14292967);
  }

  lemma Row4(i: nat)
    requires i < 8
    ensures CubeRootBits(PRIME_ROWS[4][i], K_ROWS[4][i])
  {
    assert CubeRootBits(137, 0x27b70a85) && CubeRootBits(139, 0x2e1b2138);
    assert CubeRootBits(149, 0x4d2c6dfc) && CubeRootBits(151, 0x53380d13);
    assert CubeRootBits(157, 0x650a7354) && CubeRootBits(163, 0x766a0abb);
    assert CubeRootBits(167, 0x81c2c92e) && CubeRootBits(173, 0x92722c85);
  }

  lemma Row5(i: nat)
    requires i < 8
    ensures CubeRootBits(PRIME_ROWS[5][i], K_ROWS[5][i])
  {
    assert CubeRootBits(179, 0xa2bfe8a1) && CubeRootBits(181, 0xa81a664b);
    assert CubeRootBits(191, 0xc24b8b70) && CubeRootBits(193, 0xc76c51a3);
    assert CubeRootBits(197, 0xd192e819) && CubeRootBits(199, 0xd6990624);
    assert CubeRootBits(211, 0xf40e3585) && CubeRootBits(223, 0x106aa070);
  }

  lemma Row6(i: nat)
    requires i < 8
    ensures CubeRootBits(PRIME_ROWS[6][i], K_ROWS[6][i])
  {
    assert CubeRootBits(227, 0x19a4c116) && CubeRootBits(229, 0x1e376c08);
    assert CubeRootBits(233, 0x2748774c) && CubeRootBits(239, 0x34b0bcb5);
    assert CubeRootBits(241, 0x391c0cb3) && CubeRootBits(251, 0x4ed8aa4a);
    assert CubeRootBits(257, 0x5b9cca4f) && CubeRootBits(263, 0x682e6ff3);
  }

  lemma Row7(i: nat)
    requires i < 8
    ensures CubeRootBits(PRIME_ROWS[7][i], K_ROWS[7][i])
  {
    assert CubeRootBits(269, 0x748f82ee) && CubeRootBits(271, 0x78a5636f);
    assert CubeRootBits(277, 0x84c87814) && CubeRootBits(281, 0x8cc70208);
    assert CubeRootBits(283, 0x90befffa) && CubeRootBits(293, 0xa4506ceb);
    assert CubeRootBits(307, 0xbef9a3f7) && CubeRootBits(311, 0xc67178f2);
  }

  // ---------------------------------------------------------------- padding, section 5.1.1

  /** How many zero bytes go between the `0x80` and the length field. */
  function PadZeros(l: nat): nat {
    if l >= 64 then PadZeros(l - 64) else if l > 55 then 119 - l else 55 - l
  }

  /** The standard's k: the least for which the message, the bit 1 and k zeros end eight bytes
      short of a block. */
  lemma {:induction false} PadZerosLeast(l: nat)
    ensures PadZeros(l) < 64 && (l + 1 + PadZeros(l)) % 64 == 56
  {
    if l >= 64 {
      PadZerosLeast(l - 64);
    }
  }

  /** `r` bytes of the message past its last whole block. */
  lemma {:induction false} PadZerosCases(l: nat, r: nat)
    requires r < 64 && r <= l && Aligned(l - r)
    ensures PadZeros(l) == if r > 55 then 119 - r else 55 - r
    decreases l
  {
    if l > r {
      PadZerosCases(l - 64, r);
    }
  }

  lemma ZerosJoin(a: nat, b: nat)
    ensures Zeros(a) + Zeros(b) == Zeros(a + b)
  {
  }

  function Be64(n: nat): Eight {
    [n / 0x100_0000_0000_0000 % 256, n / 0x1_0000_0000_0000 % 256, n / 0x100_0000_0000 % 256, n / 0x1_0000_0000 % 256,
     n / 0x100_0000 % 256, n / 0x1_0000 % 256, n / 0x100 % 256, n % 256]
  }

  /** The padded message up to its length field. */
  function PaddedFront(m: bytes): bytes {
    m + [0x80] + Zeros(PadZeros(|m|))
  }

  function Pad<W>(ar: Arith<W>, m: bytes): (p: bytes)
    ensures Aligned(|p|)
  {
    PadZerosLeast(|m|);
    AlignedIff(|m| + 1 + PadZeros(|m|) + 8);
    PaddedFront(m) + ar.lengthField(8 * |m|)
  }

  function DigestOf<W>(ar: Arith<W>, v: Words<W>): bytes {
    ar.toBytes(v.a) + ar.toBytes(v.b) + ar.toBytes(v.c) + ar.toBytes(v.d)
    + ar.toBytes(v.e) + ar.toBytes(v.f) + ar.toBytes(v.g) + ar.toBytes(v.h)
  }

  function HashWith<W>(ar: Arith<W>, m: bytes): bytes {
    DigestOf(ar, HashBlocks(ar, InitialHash(ar), Pad(ar, m)))
  }

  // ---------------------------------------------------------------- words of 32 bits, section 4.1.2

  // A rotation to the right by n is the disjunction of the two shifts, as in section 3.2.

  function Ch(x: bv32, y: bv32, z: bv32): bv32 {
    (x & y) ^ (!x & z)
  }

  function Maj(x: bv32, y: bv32, z: bv32): bv32 {
    (x & y) ^ (x & z) ^ (y & z)
  }

  function BigSigma0(x: bv32): bv32 {
    ((x >> 2) | (x << 30)) ^ ((x >> 13) | (x << 19)) ^ ((x >> 22) | (x << 10))
  }

  function BigSigma1(x: bv32): bv32 {
    ((x >> 6) | (x << 26)) ^ ((x >> 11) | (x << 21)) ^ ((x >> 25) | (x << 7))
  }

  function SmallSigma0(x: bv32): bv32 {
    ((x >> 7) | (x << 25)) ^ ((x >> 18) | (x << 14)) ^ (x >> 3)
  }

  function SmallSigma1(x: bv32): bv32 {
    ((x >> 17) | (x << 15)) ^ ((x >> 19) | (x << 13)) ^ (x >> 10)
  }

  function BeWord(b0: byte, b1: byte, b2: byte, b3: byte): bv32 {
    (b0 as int * 0x100_0000 + b1 as int * 0x1_0000 + b2 as int * 0x100 + b3) as bv32
  }

  function BeBytes(w: bv32): Quad {
    var n := w as int;
    [n / 0x100_0000 % 256, n / 0x1_0000 % 256, n / 0x100 % 256, n % 256]
  }

  function Standard(): Arith<bv32> {
    Arith((x: bv32, y: bv32) => x + y, Ch, Maj, BigSigma0, BigSigma1, SmallSigma0, SmallSigma1,
          (k: u32) => k as bv32, BeWord, BeBytes, Be64)
  }

  /** The hash of a message of fewer than 2^64 bits. */
  function Sha256(m: bytes): bytes {
    HashWith(Standard(), m)
  }

  // ---------------------------------------------------------------- exchanging arithmetics

  ghost predicate Agree<W(!new)>(p: Arith<W>, q: Arith<W>) {
    && (forall x: W, y: W :: p.add(x, y) == q.add(x, y))
    && (forall x: W, y: W, z: W :: p.ch(x, y, z) == q.ch(x, y, z))
    && (forall x: W, y: W, z: W :: p.maj(x, y, z) == q.maj(x, y, z))
    && (forall x: W :: p.big0(x) == q.big0(x))
    && (forall x: W :: p.big1(x) == q.big1(x))
    && (forall x: W :: p.small0(x) == q.small0(x))
    && (forall x: W :: p.small1(x) == q.small1(x))
    && (forall k: u32 :: p.constant(k) == q.constant(k))
    && (forall a: byte, b: byte, c: byte, d: byte :: p.fromBytes(a, b, c, d) == q.fromBytes(a, b, c, d))
    && (forall x: W :: p.toBytes(x) == q.toBytes(x))
    && (forall n: nat :: p.lengthField(n) == q.lengthField(n))
  }

  lemma {:induction false} AgreeSchedule<W(!new)>(p: Arith<W>, q: Arith<W>, b: Block, t: nat)
    requires Agree(p, q) && t < 64
    ensures Schedule(p, b, t) == Schedule(q, b, t)
  {
    if t >= 16 {
      AgreeSchedule(p, q, b, t - 2);
      AgreeSchedule(p, q, b, t - 7);
      AgreeSchedule(p, q, b, t - 15);
      AgreeSchedule(p, q, b, t - 16);
    }
  }

  lemma {:induction false} AgreeRounds<W(!new)>(p: Arith<W>, q: Arith<W>, v: Words<W>, b: Block, t: nat)
    requires Agree(p, q) && t <= 64
    ensures Rounds(p, v, b, t) == Rounds(q, v, b, t)
  {
    if t > 0 {
      AgreeRounds(p, q, v, b, t - 1);
      AgreeSchedule(p, q, b, t - 1);
    }
  }

  lemma {:induction false} AgreeBlocks<W(!new)>(p: Arith<W>, q: Arith<W>, v: Words<W>, m: bytes)
    requires Agree(p, q) && Aligned(|m|)
    ensures HashBlocks(p, v, m) == HashBlocks(q, v, m)
    decreases |m|
  {
    if |m| > 0 {
      AgreeRounds(p, q, v, m[..64], 64);
      AgreeBlocks(p, q, Compress(p, v, m[..64]), m[64..]);
    }
  }

  /** Arithmetics that agree on words agree on hashes. */
  lemma AgreeHash<W(!new)>(p: Arith<W>, q: Arith<W>, m: bytes)
    requires Agree(p, q)
    ensures HashWith(p, m) == HashWith(q, m)
  {
    AgreeBlocks(p, q, InitialHash(p), Pad(p, m));
  }
}
