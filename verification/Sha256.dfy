/** The streaming hasher of `relay/src/sha256.rs` (and its copy in `sub/src/sha256.rs`)
    against FIPS 180-4. */
module Sha256 {
  import opened Bytes
  import opened Fips

  const TWO64: nat := 0x1_0000_0000_0000_0000

  // ---------------------------------------------------------------- the pure functions

  function Sigma0(x: bv32): (r: bv32)
    ensures r == BigSigma0(x)
  {
    x.RotateRight(2) ^ x.RotateRight(13) ^ x.RotateRight(22)
  }

  function Sigma1(x: bv32): (r: bv32)
    ensures r == BigSigma1(x)
  {
    x.RotateRight(6) ^ x.RotateRight(11) ^ x.RotateRight(25)
  }

  function Gamma0(x: bv32): (r: bv32)
    ensures r == SmallSigma0(x)
  {
    x.RotateRight(7) ^ x.RotateRight(18) ^ (x >> 3)
  }

  function Gamma1(x: bv32): (r: bv32)
    ensures r == SmallSigma1(x)
  {
    x.RotateRight(17) ^ x.RotateRight(19) ^ (x >> 10)
  }

  /** The word arithmetic of the source: `rotate_right` and `wrapping_add`. */
  function Source(): Arith<bv32> {
    Arith((x: bv32, y: bv32) => x + y, Ch, Maj, Sigma0, Sigma1, Gamma0, Gamma1,
          (k: u32) => k as bv32, BeWord, BeBytes, Be64)
  }

  lemma SourceIsStandard()
    ensures Agree(Source(), Standard())
  {
  }

  // ---------------------------------------------------------------- one block

  ghost predicate Scheduled<W>(ar: Arith<W>, block: Block, w: array<W>, n: nat)
    requires n <= w.Length == 64
    reads w
  {
    forall t {:trigger w[t]} :: 0 <= t < n ==> w[t] == Schedule(ar, block, t)
  }

  /** The message schedule array `w`. */
  method FillSchedule<W>(ar: Arith<W>, block: Block) returns (w: array<W>)
    ensures fresh(w) && w.Length == 64
    ensures Scheduled(ar, block, w, 64)
  {
    w := new W[64](_ => ar.constant(0));
    for i := 0 to 16
      invariant Scheduled(ar, block, w, i)
    {
      LoadWord(ar, block, w, i);
    }
    for i := 16 to 64
      invariant Scheduled(ar, block, w, i)
    {
      ExtendSchedule(ar, block, w, i);
    }
  }

  method LoadWord<W>(ar: Arith<W>, block: Block, w: array<W>, i: nat)
    requires w.Length == 64 && i < 16 && Scheduled(ar, block, w, i)
    modifies w
    ensures Scheduled(ar, block, w, i + 1)
  {
    w[i] := ar.fromBytes(block[i * 4], block[i * 4 + 1], block[i * 4 + 2], block[i * 4 + 3]);
  }

  method ExtendSchedule<W>(ar: Arith<W>, block: Block, w: array<W>, i: nat)
    requires w.Length == 64 && 16 <= i < 64 && Scheduled(ar, block, w, i)
    modifies w
    ensures Scheduled(ar, block, w, i + 1)
  {
    w[i] := ar.add(ar.add(ar.add(ar.small1(w[i - 2]), w[i - 7]), ar.small0(w[i - 15])), w[i - 16]);
  }

  function WordsOf<W>(s: seq<W>): Words<W>
    requires |s| == 8
  {
    Words(s[0], s[1], s[2], s[3], s[4], s[5], s[6], s[7])
  }

  /** `process_block`: the 64 rounds over eight locals, then the sum into the state. */
  method ProcessBlock<W>(ar: Arith<W>, state: array<W>, block: Block)
    requires state.Length == 8
    modifies state
    ensures WordsOf(state[..]) == Compress(ar, WordsOf(old(state[..])), block)
  {
    ghost var start := WordsOf(state[..]);
    var w := FillSchedule(ar, block);
    var v := RunRounds(ar, state, w, block);
    AddWords(ar, state, v);
  }

  method RunRounds<W>(ar: Arith<W>, state: array<W>, w: array<W>, ghost block: Block) returns (v: Words<W>)
    requires state.Length == 8 && w.Length == 64
    requires Scheduled(ar, block, w, 64)
    ensures v == Rounds(ar, WordsOf(state[..]), block, 64)
  {
    var a, b, c, d := state[0], state[1], state[2], state[3];
    var e, f, g, h := state[4], state[5], state[6], state[7];
    ghost var start := WordsOf(state[..]);
    for i := 0 to 64
      invariant Words(a, b, c, d, e, f, g, h) == Rounds(ar, start, block, i)
    {
      var t1 := ar.add(ar.add(ar.add(ar.add(h, ar.big1(e)), ar.ch(e, f, g)), ar.constant(K(i))), w[i]);
      var t2 := ar.add(ar.big0(a), ar.maj(a, b, c));
      h := g;
      g := f;
      f := e;
      e := ar.add(d, t1);
      d := c;
      c := b;
      b := a;
      a := ar.add(t1, t2);
    }
    v := Words(a, b, c, d, e, f, g, h);
  }

  method AddWords<W>(ar: Arith<W>, state: array<W>, v: Words<W>)
    requires state.Length == 8
    modifies state
    ensures WordsOf(state[..]) == AddAll(ar, WordsOf(old(state[..])), v)
  {
    state[0] := ar.add(state[0], v.a);
    state[1] := ar.add(state[1], v.b);
    state[2] := ar.add(state[2], v.c);
    state[3] := ar.add(state[3], v.d);
    state[4] := ar.add(state[4], v.e);
    state[5] := ar.add(state[5], v.f);
    state[6] := ar.add(state[6], v.g);
    state[7] := ar.add(state[7], v.h);
  }

  // ---------------------------------------------------------------- what a hasher holds

  /** Of the message `m`, all but the last `|rest|` bytes are hashed into `v`. */
  ghost predicate Absorbed<W>(ar: Arith<W>, m: bytes, v: Words<W>, rest: bytes) {
    && |rest| <= |m| && Aligned(|m| - |rest|)
    && rest == m[|m| - |rest|..]
    && v == HashBlocks(ar, InitialHash(ar), m[..|m| - |rest|])
  }

  lemma AbsorbBlock<W>(ar: Arith<W>, m: bytes, v: Words<W>, block: Block)
    requires Absorbed(ar, m, v, [])
    ensures Absorbed(ar, m + block, Compress(ar, v, block), [])
  {
    WholeTake(m);
    WholeTake(m + block);
    HashSnoc(ar, InitialHash(ar), m, block);
  }

  /** Bytes that do not complete a block only join the rest. */
  lemma AbsorbRest<W>(ar: Arith<W>, m: bytes, v: Words<W>, rest: bytes, more: bytes)
    requires Absorbed(ar, m, v, rest)
    ensures Absorbed(ar, m + more, v, rest + more)
  {
    var n := |m| - |rest|;
    assert |m + more| - |rest + more| == n;
    TailAppend(m, more, n);
    SliceStable(m, more, 0, n);
  }

  /** A full rest is a block, and hashing it empties the rest. */
  lemma AbsorbFull<W>(ar: Arith<W>, m: bytes, v: Words<W>, block: Block)
    requires Absorbed(ar, m, v, block)
    ensures Absorbed(ar, m, Compress(ar, v, block), [])
  {
    var front := m[..|m| - 64];
    Split(m, |m| - 64);
    WholeTake(front);
    AbsorbBlock(ar, front, v, block);
  }

  /** Once the whole padded message is absorbed, the state is its hash. */
  lemma Sealed<W>(ar: Arith<W>, m: bytes, padded: bytes, v: Words<W>)
    requires padded == Pad(ar, m) && Absorbed(ar, padded, v, [])
    ensures DigestOf(ar, v) == HashWith(ar, m)
  {
    WholeTake(padded);
  }

  lemma NextPiece(m: bytes, data: bytes, i: nat, j: nat)
    requires i <= j <= |data|
    ensures m + data[..j] == (m + data[..i]) + data[i..j]
  {
  }

  lemma LastPiece(m: bytes, data: bytes, i: nat)
    requires i <= |data|
    ensures m + data == (m + data[..i]) + data[i..]
  {
    Split(data, i);
    Assoc(m, data[..i], data[i..]);
  }

  // ---------------------------------------------------------------- streaming

  /** `seen` is every byte given to `update`: whole blocks of it are in `state`, the rest
      in the front of `buffer`, and its length, as 64 bits count it, in `totalLen`. */
  class Hasher<W> {
    const ar: Arith<W>
    const state: array<W>
    const buffer: array<byte>
    var bufferLen: nat
    var totalLen: nat
    ghost var seen: bytes

    ghost predicate Holds(m: bytes)
      reads `bufferLen, state, buffer
    {
      && state.Length == 8 && buffer.Length == 64 && bufferLen <= 64
      && Absorbed(ar, m, WordsOf(state[..]), buffer[..bufferLen])
    }

    ghost predicate Valid()
      reads this, state, buffer
    {
      Holds(seen) && bufferLen < 64 && totalLen == Counted(|seen|)
    }

    constructor (ar: Arith<W>)
      ensures Valid() && seen == [] && fresh(state) && fresh(buffer) && this.ar == ar
    {
      this.ar := ar;
      state := new W[8](i requires 0 <= i < 8 => ar.constant(IV[i]));
      buffer := new byte[64](_ => 0);
      bufferLen, totalLen, seen := 0, 0, [];
    }

    method Process(ghost m: bytes)
      requires Holds(m) && bufferLen == 64
      modifies state, `bufferLen
      ensures Holds(m) && bufferLen == 0
    {
      var block := buffer[..];
      ghost var v := WordsOf(state[..]);
      assert buffer[..64] == block;
      ProcessBlock(ar, state, block);
      AbsorbFull(ar, m, v, block);
      bufferLen := 0;
    }

    /** Copies to the end of the pending bytes. */
    method Append(ghost m: bytes, data: bytes)
      requires Holds(m) && bufferLen + |data| <= 64
      modifies buffer, `bufferLen
      ensures Holds(m + data) && bufferLen == old(bufferLen) + |data|
    {
      ghost var rest := buffer[..bufferLen];
      forall i | 0 <= i < |data| {
        buffer[bufferLen + i] := data[i];
      }
      bufferLen := bufferLen + |data|;
      assert buffer[..bufferLen] == rest + data;
      AbsorbRest(ar, m, WordsOf(state[..]), rest, data);
    }

    /** The first step of `update`: what fits joins a block already begun. */
    method TopUp(ghost before: bytes, data: bytes) returns (offset: nat)
      requires Holds(before) && bufferLen < 64
      modifies state, buffer, `bufferLen
      ensures offset <= |data| && Holds(before + data[..offset])
      ensures bufferLen < 64 && (offset < |data| ==> bufferLen == 0)
    {
      offset := 0;
      NilRight(before);
      if bufferLen > 0 {
        offset := if 64 - bufferLen < |data| then 64 - bufferLen else |data|;
        Append(before, data[..offset]);
        if bufferLen == 64 {
          Process(before + data[..offset]);
        }
      }
    }

    /** The loop of `update`: whole blocks straight from the input. */
    method WholeBlocks(ghost before: bytes, data: bytes, start: nat) returns (offset: nat)
      requires start <= |data| && Holds(before + data[..start])
      requires bufferLen < 64 && (start < |data| ==> bufferLen == 0)
      modifies state
      ensures offset <= |data| < offset + 64 && Holds(before + data[..offset])
      ensures offset < |data| ==> bufferLen == 0
    {
      offset := start;
      while offset + 64 <= |data|
        invariant offset <= |data| && (offset < |data| ==> bufferLen == 0)
        invariant Holds(before + data[..offset])
      {
        HashInput(before, data, offset);
        offset := offset + 64;
      }
    }

    method Count(data: bytes)
      requires totalLen == Counted(|seen|)
      modifies `totalLen, `seen
      ensures totalLen == Counted(|seen|) && seen == old(seen) + data
    {
      CountWraps(|seen|, |data|);
      totalLen := Counted(totalLen + |data|);
      seen := seen + data;
    }

    /** `update` but for the length count. */
    method KeepRest(ghost before: bytes, data: bytes)
      requires Holds(before) && bufferLen < 64
      modifies state, buffer, `bufferLen
      ensures Holds(before + data) && bufferLen < 64
    {
      var offset := TopUp(before, data);
      offset := WholeBlocks(before, data, offset);
      Remainder(before, data, offset);
    }

    /** The last step of `update`: what is left starts the next block. */
    method Remainder(ghost before: bytes, data: bytes, offset: nat)
      requires offset <= |data| < offset + 64 && Holds(before + data[..offset])
      requires bufferLen < 64 && (offset < |data| ==> bufferLen == 0)
      modifies buffer, `bufferLen
      ensures Holds(before + data) && bufferLen < 64
    {
      if offset < |data| {
        LastPiece(before, data, offset);
        Append(before + data[..offset], data[offset..]);
      } else {
        WholeTake(data);
      }
    }

    /** Fills the pending block first, hashes whole blocks straight from the input, and
        keeps the remainder. */
    method Update(data: bytes)
      requires Valid()
      modifies this, state, buffer
      ensures Valid() && seen == old(seen) + data
    {
      ghost var before := seen;
      Count(data);
      KeepRest(before, data);
    }

    method HashInput(ghost before: bytes, data: bytes, offset: nat)
      requires offset + 64 <= |data| && bufferLen == 0 && Holds(before + data[..offset])
      modifies state
      ensures Holds(before + data[..offset + 64])
    {
      var block := data[offset..offset + 64];
      ghost var v := WordsOf(state[..]);
      ProcessBlock(ar, state, block);
      AbsorbBlock(ar, before + data[..offset], v, block);
      NextPiece(before, data, offset, offset + 64);
    }

    method CloseBlock(ghost m: bytes) returns (ghost padded: bytes)
      requires Holds(m)
      modifies state, buffer, `bufferLen
      ensures padded == m + Zeros(64 - old(bufferLen)) && Holds(padded) && bufferLen == 0
    {
      padded := FillZeros(m, 64);
      Process(padded);
    }

    /** The `0x80` byte, and a block of its own if the length field no longer fits. */
    method BeginPadding() returns (ghost begun: bytes)
      requires Valid()
      modifies state, buffer, `bufferLen
      ensures bufferLen <= 56 && Holds(begun) && Begun(seen, begun, 56 - bufferLen)
    {
      ghost var l := bufferLen;
      ghost var m := seen;
      Begins(ar, m, WordsOf(state[..]), buffer[..l]);
      Append(m, [0x80]);
      begun := m + [0x80];
      if bufferLen > 56 {
        begun := CloseBlock(begun);
      }
    }

    /** Zeros up to the length field. */
    method PadToLength() returns (ghost padded: bytes)
      requires Valid()
      modifies state, buffer, `bufferLen
      ensures bufferLen == 56 && Holds(padded) && padded == PaddedFront(seen)
    {
      ghost var begun := BeginPadding();
      padded := FillZeros(begun, 56);
    }

    method FillZeros(ghost m: bytes, upTo: nat) returns (ghost padded: bytes)
      requires Holds(m) && bufferLen <= upTo <= 64
      modifies buffer, `bufferLen
      ensures padded == m + Zeros(upTo - old(bufferLen)) && Holds(padded) && bufferLen == upTo
    {
      var z := Zeros(upTo - bufferLen);
      padded := m + z;
      Append(m, z);
    }

    /** `total_len * 8` in eight bytes. */
    method LengthField() returns (field: bytes)
      requires totalLen == Counted(|seen|)
      ensures |field| == 8
      ensures |seen| < TWO64 / 8 ==> field == ar.lengthField(8 * |seen|)
    {
      field := ar.lengthField(Counted(totalLen * 8));
      if |seen| < TWO64 / 8 {
        BitLength(|seen|);
      }
    }

    /** Padding and the last one or two blocks. For every message below 2^61 bytes, fed in
        any pieces, this is the hash of the standard. */
    method Finalize() returns (digest: bytes)
      requires Valid()
      modifies this, state, buffer
      ensures |old(seen)| < TWO64 / 8 ==> digest == HashWith(ar, old(seen))
    {
      var field := LengthField();
      ghost var padded := PadToLength();
      Append(padded, field);
      padded := padded + field;
      Process(padded);
      digest := DigestOf(ar, WordsOf(state[..]));
      if |seen| < TWO64 / 8 {
        Sealed(ar, seen, padded, WordsOf(state[..]));
      }
    }
  }

  /** With `n` more zeros, `begun` is `m` padded up to its length field. */
  ghost predicate Begun(m: bytes, begun: bytes, n: nat) {
    begun + Zeros(n) == PaddedFront(m)
  }

  lemma Begins<W>(ar: Arith<W>, m: bytes, v: Words<W>, rest: bytes)
    requires Absorbed(ar, m, v, rest) && |rest| < 64
    ensures if |rest| > 55 then Begun(m, m + [0x80] + Zeros(63 - |rest|), 56) else Begun(m, m + [0x80], 55 - |rest|)
  {
    PadZerosCases(|m|, |rest|);
    if |rest| > 55 {
      ZerosJoin(63 - |rest|, 56);
      Assoc(m + [0x80], Zeros(63 - |rest|), Zeros(56));
    }
  }

  /** What a 64-bit counter shows after `n` increments. */
  function Counted(n: nat): nat {
    n % TWO64
  }

  lemma CountWraps(n: nat, more: nat)
    ensures Counted(Counted(n) + more) == Counted(n + more)
  {
  }

  lemma BitLength(n: nat)
    requires n < TWO64 / 8
    ensures Counted(Counted(n) * 8) == 8 * n
  {
  }

  /** `sha256`, and every other way of splitting a message into updates: the result is the
      hash that FIPS 180-4 defines. */
  method HashPieces(pieces: seq<bytes>) returns (digest: bytes)
    requires |Concat(pieces)| < TWO64 / 8
    ensures digest == Fips.Sha256(Concat(pieces))
  {
    var hasher := new Hasher(Source());
    for i := 0 to |pieces|
      invariant hasher.Valid() && fresh(hasher) && fresh(hasher.state) && fresh(hasher.buffer)
      invariant hasher.seen == Concat(pieces[..i])
    {
      hasher.Update(pieces[i]);
      ConcatTake(pieces, i);
    }
    WholeTake(pieces);
    digest := hasher.Finalize();
    SourceIsStandard();
    AgreeHash(Source(), Standard(), Concat(pieces));
  }
}
