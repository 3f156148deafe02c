/** The download direction of `relay/src/datapath.rs`: chunks of the target stream are
    coalesced without waiting, cut into records of at most 16 KiB, sealed, and sent one
    record per frame through a reused staging buffer. */
module Download {
  import opened Bytes
  import opened Nonce
  import opened Records

  const DL_RECORD := 16384
  const TAG_LEN := 16
  const STAGING_LEN := 5 + DL_RECORD + TAG_LEN

  /** How the k-th read of the target stream resolves. */
  datatype Read = Chunk(data: bytes) | Eof | Failed

  /** Ended at EOF, failed, or waiting for a read that has not resolved. */
  datatype Outcome = Ended | Error | Waiting

  /** One frame given to the socket, with what was sealed in it. */
  datatype Sent = Sent(nonce: Counter, plain: bytes, frame: bytes)

  /** The environment: AES-GCM sealing, which polls find their read resolved, which sends
      succeed. Polls and sends are numbered in program order. */
  datatype World = World(
    seal: (bytes, Counter, bytes, bytes) -> Option<bytes>,
    ready: nat -> bool,
    sendOk: nat -> bool)

  /** Sealing adds the 16-byte tag or fails. */
  function Seal(w: World, key: bytes, nonce: Counter, hdr: bytes, plain: bytes): (ct: Option<bytes>)
    ensures ct.Some? ==> |ct.value| == |plain| + TAG_LEN
  {
    match w.seal(key, nonce, hdr, plain)
    case None => None
    case Some(ct) => if |ct| == |plain| + TAG_LEN then Some(ct) else None
  }

  // ---------------------------------------------------------------- the target stream

  /** How many reads deliver data before the stream ends, fails or falls silent. */
  function Delivering(input: seq<Read>): (n: nat)
    ensures n <= |input|
    ensures forall i :: 0 <= i < n ==> input[i].Chunk?
    ensures n < |input| ==> !input[n].Chunk?
  {
    if |input| == 0 || !input[0].Chunk? then 0 else 1 + Delivering(input[1..])
  }

  /** The bytes of the first `n` reads. */
  function Arrived(input: seq<Read>, n: nat): bytes
    requires n <= Delivering(input)
  {
    if n == 0 then [] else Arrived(input, n - 1) + input[n - 1].data
  }

  function TargetBytes(input: seq<Read>): bytes {
    Arrived(input, Delivering(input))
  }

  lemma {:induction false} ArrivedPrefix(input: seq<Read>, m: nat, n: nat)
    requires m <= n <= Delivering(input)
    ensures Arrived(input, m) <= Arrived(input, n)
  {
    if m < n {
      ArrivedPrefix(input, m, n - 1);
    }
  }

  function Plain(sent: seq<Sent>): bytes {
    if |sent| == 0 then [] else Plain(sent[..|sent| - 1]) + sent[|sent| - 1].plain
  }

  lemma PlainSnoc(sent: seq<Sent>, x: Sent)
    ensures Plain(sent + [x]) == Plain(sent) + x.plain
  {
    assert (sent + [x])[..|sent|] == sent;
  }

  /** A frame the client can read: its header announces the body, and the body is the
      sealing of 1 to 16384 bytes under the recorded nonce. */
  ghost predicate GoodFrame(w: World, key: bytes, x: Sent) {
    && 1 <= |x.plain| <= DL_RECORD
    && |x.frame| == 5 + |x.plain| + TAG_LEN <= STAGING_LEN
    && x.frame[..5] == EncodeHeader(|x.plain| + TAG_LEN)
    && DecodeHeader(x.frame[..5]) == Some(|x.frame| - 5)
    && Seal(w, key, x.nonce, x.frame[..5], x.plain) == Some(x.frame[5..])
  }

  ghost predicate GoodFrames(w: World, key: bytes, start: nat, sent: seq<Sent>) {
    forall i :: 0 <= i < |sent| ==> sent[i].nonce == NonceAt(start + i + 1) && GoodFrame(w, key, sent[i])
  }

  // ---------------------------------------------------------------- the code

  /** `coalesce`: one chunk is passed on as it is, several are copied into one buffer. */
  method Coalesce(parts: seq<bytes>, total: nat) returns (data: bytes)
    requires |parts| > 0 && total == |Concat(parts)|
    ensures data == Concat(parts)
  {
    if |parts| == 1 {
      assert parts[..0] == [];
      return parts[0];
    }
    var buf := new byte[total](_ => 0);
    var off, i := 0, 0;
    while i < |parts|
      invariant 0 <= i <= |parts| && off == |Concat(parts[..i])| <= total
      invariant buf[..off] == Concat(parts[..i])
    {
      ConcatTake(parts, i);
      ConcatPrefix(parts, i + 1);
      ghost var done := buf[..off];
      var p := parts[i];
      forall k | 0 <= k < |p| {
        buf[off + k] := p[k];
      }
      assert buf[..off] == done;
      assert buf[..off + |p|] == done + p;
      off := off + |p|;
      i := i + 1;
    }
    assert parts[..i] == parts;
    data := buf[..];
  }

  /** `send_record`: header and ciphertext overwrite the front of the staging buffer, and
      exactly those bytes are sent, whatever an earlier record left behind them. */
  method SendRecord(staging: array<byte>, hdr: bytes, ct: bytes) returns (frame: bytes)
    requires |hdr| == 5 && 5 + |ct| <= staging.Length
    modifies staging
    ensures frame == hdr + ct
  {
    for i := 0 to 5
      invariant forall k :: 0 <= k < i ==> staging[k] == hdr[k]
    {
      staging[i] := hdr[i];
    }
    forall k | 0 <= k < |ct| {
      staging[5 + k] := ct[k];
    }
    frame := staging[..5 + |ct|];
  }

  /** Sealing one coalesced batch, one record at a time. */
  method SendBatch(w: World, key: bytes, staging: array<byte>, ghost start: nat,
                   data: bytes, nonce: Counter, sent: seq<Sent>)
    returns (ok: bool, nonce': Counter, sent': seq<Sent>)
    requires staging.Length == STAGING_LEN
    requires GoodFrames(w, key, start, sent) && nonce == NonceAt(start + |sent|)
    modifies staging
    ensures GoodFrames(w, key, start, sent')
    ensures nonce' == NonceAt(start + |sent'|) || !ok
    ensures Plain(sent') <= Plain(sent) + data
    ensures ok ==> Plain(sent') == Plain(sent) + data
  {
    nonce', sent' := nonce, sent;
    var len := |data|;
    var off := 0;
    ghost var base := Plain(sent);
    NilRight(base);
    while off < len
      invariant Counted(w, key, start, sent', nonce') && Shipped(sent', base, data, off)
    {
      var sending, n;
      sending, nonce', sent', n := SendNext(w, key, staging, start, base, data, off, nonce', sent');
      if !sending {
        ShippedSome(sent', base, data, off);
        return false, nonce', sent';
      }
      off := off + n;
    }
    ShippedSome(sent', base, data, off);
    ok := true;
  }

  /** The next record of the batch. */
  method SendNext(w: World, key: bytes, staging: array<byte>, ghost start: nat, ghost base: bytes, data: bytes, off: nat,
                  nonce: Counter, sent: seq<Sent>)
    returns (ok: bool, nonce': Counter, sent': seq<Sent>, n: nat)
    requires staging.Length == STAGING_LEN && off < |data|
    requires Counted(w, key, start, sent, nonce) && Shipped(sent, base, data, off)
    modifies staging
    ensures Counted(w, key, start, sent', nonce')
    ensures if ok then n > 0 && Shipped(sent', base, data, off + n) else sent' == sent
  {
    n := if |data| - off < DL_RECORD then |data| - off else DL_RECORD;
    var x;
    ok, x := SealAndSend(w, key, staging, data[off..off + n], nonce, |sent|);
    if !ok {
      return false, nonce, sent, n;
    }
    CountedOn(w, key, start, sent, nonce, x);
    ShippedOn(sent, base, data, off, n, x);
    nonce', sent' := x.nonce, sent + [x];
  }

  /** Good frames under consecutive nonces, the last of them `nonce`. */
  ghost predicate Counted(w: World, key: bytes, start: nat, sent: seq<Sent>, nonce: Counter) {
    GoodFrames(w, key, start, sent) && nonce == NonceAt(start + |sent|)
  }

  /** `off` bytes of the batch are out. */
  ghost predicate Shipped(sent: seq<Sent>, base: bytes, data: bytes, off: nat) {
    off <= |data| && Plain(sent) == base + data[..off]
  }

  lemma CountedOn(w: World, key: bytes, start: nat, sent: seq<Sent>, nonce: Counter, x: Sent)
    requires Counted(w, key, start, sent, nonce) && GoodFrame(w, key, x) && x.nonce == Successor(nonce)
    ensures Counted(w, key, start, sent + [x], x.nonce)
  {
    GoodSnoc(w, key, start, sent, x);
    NonceFollows(start, |sent|);
  }

  lemma ShippedOn(sent: seq<Sent>, base: bytes, data: bytes, off: nat, n: nat, x: Sent)
    requires Shipped(sent, base, data, off) && off + n <= |data| && x.plain == data[off..off + n]
    ensures Shipped(sent + [x], base, data, off + n)
  {
    PlainSnoc(sent, x);
    SliceOn(base, data, off, n);
  }

  lemma ShippedSome(sent: seq<Sent>, base: bytes, data: bytes, off: nat)
    requires Shipped(sent, base, data, off)
    ensures Plain(sent) <= base + data
    ensures off == |data| ==> Plain(sent) == base + data
  {
  }

  lemma SliceOn(base: bytes, data: bytes, off: nat, n: nat)
    requires off + n <= |data|
    ensures base + data[..off] + data[off..off + n] == base + data[..off + n]
  {
  }

  lemma NonceFollows(start: nat, n: nat)
    ensures Successor(NonceAt(start + n)) == NonceAt(start + (n + 1))
  {
  }

  /** One record: advance the counter, seal, frame, send. */
  method SealAndSend(w: World, key: bytes, staging: array<byte>, plain: bytes, nonce: Counter, index: nat)
    returns (ok: bool, x: Sent)
    requires staging.Length == STAGING_LEN && 1 <= |plain| <= DL_RECORD
    modifies staging
    ensures ok ==> GoodFrame(w, key, x) && x.plain == plain && x.nonce == Successor(nonce)
  {
    var next := NextNonce(nonce);
    var hdr := EncodeHeader(|plain| + TAG_LEN);
    var ct := Seal(w, key, next, hdr, plain);
    if ct.None? {
      return false, Sent(next, plain, []);
    }
    var frame := SendRecord(staging, hdr, ct.value);
    x := Sent(next, plain, frame);
    FrameIsGood(w, key, x, hdr, ct.value);
    ok := w.sendOk(index);
  }

  lemma GoodSnoc(w: World, key: bytes, start: nat, sent: seq<Sent>, x: Sent)
    requires GoodFrames(w, key, start, sent) && GoodFrame(w, key, x)
    requires x.nonce == Successor(NonceAt(start + |sent|))
    ensures GoodFrames(w, key, start, sent + [x])
  {
  }

  lemma FrameIsGood(w: World, key: bytes, x: Sent, hdr: bytes, ct: bytes)
    requires 1 <= |x.plain| <= DL_RECORD && hdr == EncodeHeader(|x.plain| + TAG_LEN)
    requires Seal(w, key, x.nonce, hdr, x.plain) == Some(ct) && x.frame == hdr + ct
    ensures GoodFrame(w, key, x)
  {
    HeaderRoundTrip(|x.plain| + TAG_LEN);
    assert x.frame[..5] == hdr && x.frame[5..] == ct;
  }

  /** Why a batch is no longer filled: it is large enough or nothing is ready, or the stream
      is at its end or has failed. */
  datatype Stop = Filled | AtEof | AtError

  /** The inner loop of `relay_download`: chunks that are ready join the batch. */
  method Gather(w: World, input: seq<Read>, first: nat, polls: nat)
    returns (parts: seq<bytes>, total: nat, next: nat, polls': nat, stop: Stop)
    requires first < Delivering(input)
    ensures first < next <= Delivering(input)
    ensures |parts| > 0 && total == |Concat(parts)|
    ensures Arrived(input, next) == Arrived(input, first) + Concat(parts)
    ensures stop.AtEof? ==> next < |input| && input[next].Eof?
  {
    parts, total := [input[first].data], |input[first].data|;
    next, polls' := first + 1, polls;
    PartsFirst(input, first);
    while total < DL_RECORD
      invariant first < next <= Delivering(input)
      invariant |parts| > 0 && total == |Concat(parts)|
      invariant Arrived(input, next) == Arrived(input, first) + Concat(parts)
      decreases |input| - next
    {
      var resolved := next < |input| && w.ready(polls');
      polls' := polls' + 1;
      if !resolved {
        break;
      }
      if input[next].Failed? {
        stop := AtError;
        return;
      }
      if input[next].Eof? {
        stop := AtEof;
        return;
      }
      ConcatSnoc(parts, input[next].data);
      Assoc(Arrived(input, first), Concat(parts), input[next].data);
      parts, total := parts + [input[next].data], total + |input[next].data|;
      next := next + 1;
    }
    stop := Filled;
  }

  /** Sealed so far, under consecutive nonces: exactly the first `n` reads. */
  ghost predicate Relayed(w: World, input: seq<Read>, key: bytes, start: nat, sent: seq<Sent>, counter: Counter,
                          n: nat) {
    && n <= Delivering(input)
    && GoodFrames(w, key, start, sent) && counter == NonceAt(start + |sent|)
    && Plain(sent) == Arrived(input, n)
  }

  /** One batch: what is ready is gathered, coalesced and sealed. */
  method Batch(w: World, input: seq<Read>, key: bytes, staging: array<byte>, ghost start: nat, sent: seq<Sent>,
               counter: Counter, first: nat, polls: nat)
    returns (ok: bool, sent': seq<Sent>, counter': Counter, next: nat, polls': nat, stop: Stop)
    requires staging.Length == STAGING_LEN && first < Delivering(input)
    requires Relayed(w, input, key, start, sent, counter, first)
    modifies staging
    ensures first < next <= Delivering(input)
    ensures ok ==> Relayed(w, input, key, start, sent', counter', next)
    ensures ok && stop.AtEof? ==> next < |input| && input[next].Eof?
    ensures GoodFrames(w, key, start, sent') && Plain(sent') <= TargetBytes(input)
  {
    sent', counter' := sent, counter;
    ArrivedPrefix(input, first, Delivering(input));
    var parts, total;
    parts, total, next, polls', stop := Gather(w, input, first, polls);
    ok := !stop.AtError?;
    if ok {
      ArrivedPrefix(input, next, Delivering(input));
      var data := Coalesce(parts, total);
      ok, counter', sent' := SendBatch(w, key, staging, start, data, counter, sent);
    }
  }

  /** `relay_download`: for every chunking, every ready or pending poll, and every failure,
      the sealed plaintexts concatenate to a prefix of the target's bytes, to all of them
      at EOF, and to all that have arrived whenever the loop waits for more. */
  method RelayDownload(w: World, input: seq<Read>, key: bytes, nonce: Counter, ghost start: nat)
    returns (outcome: Outcome, sent: seq<Sent>)
    requires nonce == NonceAt(start)
    ensures GoodFrames(w, key, start, sent)
    ensures Plain(sent) <= TargetBytes(input)
    ensures !outcome.Error? ==> Plain(sent) == TargetBytes(input)
    ensures outcome.Ended? ==> Delivering(input) < |input| && input[Delivering(input)].Eof?
    ensures outcome.Waiting? ==> Delivering(input) == |input|
  {
    sent := [];
    var counter := nonce;
    var staging := new byte[STAGING_LEN](_ => 0);
    var next, polls := 0, 0;
    while true
      invariant fresh(staging) && Relayed(w, input, key, start, sent, counter, next)
      decreases |input| - next
    {
      ArrivedPrefix(input, next, Delivering(input));
      if next >= |input| {
        return Waiting, sent;
      }
      if input[next].Failed? {
        return Error, sent;
      }
      if input[next].Eof? {
        return Ended, sent;
      }
      var ok, stop;
      ok, sent, counter, next, polls, stop := Batch(w, input, key, staging, start, sent, counter, next, polls);
      if !ok {
        return Error, sent;
      }
      if stop.AtEof? {
        return Ended, sent;
      }
    }
  }

  lemma PartsFirst(input: seq<Read>, first: nat)
    requires first < Delivering(input)
    ensures Concat([input[first].data]) == input[first].data
    ensures Arrived(input, first + 1) == Arrived(input, first) + Concat([input[first].data])
  {
    assert [input[first].data][..0] == [];
    NilLeft(input[first].data);
  }

  // ---------------------------------------------------------------- the client's view

  function Frames(sent: seq<Sent>): seq<bytes> {
    seq(|sent|, i requires 0 <= i < |sent| => sent[i].frame)
  }

  function RecordsOf(sent: seq<Sent>): (r: seq<Rec>)
    requires forall i :: 0 <= i < |sent| ==> |sent[i].frame| >= 5
  {
    seq(|sent|, i requires 0 <= i < |sent| => RecordOf(sent[i]))
  }

  function RecordOf(x: Sent): Rec
    requires |x.frame| >= 5
  {
    Rec(x.frame[..5], x.frame[5..])
  }

  /** One more record on the wire. */
  lemma WireSnoc(w: World, key: bytes, front: seq<Sent>, x: Sent)
    requires GoodFrame(w, key, x) && forall i :: 0 <= i < |front| ==> |front[i].frame| >= 5
    requires WireAll(RecordsOf(front)) == Concat(Frames(front))
    ensures WireAll(RecordsOf(front + [x])) == Concat(Frames(front + [x]))
  {
    FramesSnoc(front, x);
    ConcatSnoc(Frames(front), x.frame);
    WireAllAppend(RecordsOf(front), [RecordOf(x)]);
    OneOnWire(RecordOf(x), x.frame);
  }

  lemma FramesWellFormed(w: World, key: bytes, start: nat, sent: seq<Sent>)
    requires GoodFrames(w, key, start, sent)
    ensures AllWellFormed(RecordsOf(sent))
  {
    forall i | 0 <= i < |sent| ensures WellFormed(RecordsOf(sent)[i]) {
      assert GoodFrame(w, key, sent[i]);
    }
  }

  lemma {:induction false} FramesAreWire(w: World, key: bytes, start: nat, sent: seq<Sent>)
    requires GoodFrames(w, key, start, sent)
    ensures AllWellFormed(RecordsOf(sent))
    ensures WireAll(RecordsOf(sent)) == Concat(Frames(sent))
  {
    FramesWellFormed(w, key, start, sent);
    if |sent| > 0 {
      var front, x := sent[..|sent| - 1], sent[|sent| - 1];
      FramesAreWire(w, key, start, front);
      InitLast(sent);
      WireSnoc(w, key, front, x);
    }
  }

  lemma FramesSnoc(front: seq<Sent>, x: Sent)
    requires |x.frame| >= 5 && forall i :: 0 <= i < |front| ==> |front[i].frame| >= 5
    ensures Frames(front + [x]) == Frames(front) + [x.frame]
    ensures RecordsOf(front + [x]) == RecordsOf(front) + [RecordOf(x)]
  {
  }

  lemma OneOnWire(r: Rec, frame: bytes)
    requires |frame| >= 5 && r == Rec(frame[..5], frame[5..])
    ensures WireAll([r]) == frame
  {
    assert [r][1..] == [];
    NilRight(Wire(r));
    Split(frame, 5);
  }

  /** However the network cuts the frames, the client recovers the sealed records in
      order, and an opening that inverts the sealing gives it back every plaintext. */
  lemma DownloadReads(w: World, key: bytes, start: nat, sent: seq<Sent>, cut: seq<bytes>,
                      open: (bytes, Counter, bytes, bytes) -> Option<bytes>)
    requires GoodFrames(w, key, start, sent) && Concat(cut) == Concat(Frames(sent))
    requires forall n: Counter, h: bytes, p: bytes, c: bytes {:trigger w.seal(key, n, h, p), open(key, n, h, c)} ::
               w.seal(key, n, h, p) == Some(c) ==> open(key, n, h, c) == Some(p)
    ensures Deframe(Concat(cut)).rest == [] && |Deframe(Concat(cut)).recs| == |sent|
    ensures forall i :: 0 <= i < |sent| ==>
              var r := Deframe(Concat(cut)).recs[i];
              open(key, NonceAt(start + i + 1), r.hdr, r.body) == Some(sent[i].plain)
  {
    FramesAreWire(w, key, start, sent);
    FragmentedRecords(RecordsOf(sent), cut);
    forall i | 0 <= i < |sent|
      ensures open(key, NonceAt(start + i + 1), RecordsOf(sent)[i].hdr, RecordsOf(sent)[i].body) == Some(sent[i].plain)
    {
      assert GoodFrame(w, key, sent[i]);
    }
  }
}
