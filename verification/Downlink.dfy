/** The encrypted path down from an HTTP proxy: the VLESS response, the proxy's leftover and
    the download loop, all sealed under one write counter (`relay/src/session.rs`). */
module Downlink {
  import opened Bytes
  import opened Nonce
  import opened Records
  import opened Download
  import opened Text
  import C = Connect
  import Status
  import V = Vless

  /** A frame as `seal_record_wasm` builds it, for a plaintext of any length. */
  ghost predicate SealedFrame(w: World, key: bytes, x: Sent) {
    && |x.frame| == 5 + |x.plain| + TAG_LEN
    && x.frame[..5] == EncodeHeader(|x.plain| + TAG_LEN)
    && Seal(w, key, x.nonce, x.frame[..5], x.plain) == Some(x.frame[5..])
  }

  ghost predicate SealedFrames(w: World, key: bytes, start: nat, sent: seq<Sent>) {
    forall i :: 0 <= i < |sent| ==> sent[i].nonce == NonceAt(start + i + 1) && SealedFrame(w, key, sent[i])
  }

  /** The client's framing accepts the header and reads the whole body. */
  predicate Readable(x: Sent) {
    |x.frame| >= 5 && DecodeHeader(x.frame[..5]) == Some(|x.frame| - 5)
  }

  /** A sealed frame is readable exactly if its plaintext has 1 to 16624 bytes. */
  lemma ReadableExactly(w: World, key: bytes, x: Sent)
    requires SealedFrame(w, key, x)
    ensures Readable(x) <==> 1 <= |x.plain| <= MAX_BODY - TAG_LEN
  {
    var l := |x.plain| + TAG_LEN;
    if l < 0x1_0000 {
      HeaderRoundTrip(l);
    }
  }

  method SealRecord(w: World, key: bytes, plain: bytes, nonce: Counter) returns (x: Option<Sent>)
    ensures x.Some? ==> SealedFrame(w, key, x.value) && x.value.plain == plain && x.value.nonce == Successor(nonce)
  {
    var hdr := EncodeHeader(|plain| + TAG_LEN);
    var next := NextNonce(nonce);
    var ct := Seal(w, key, next, hdr, plain);
    if ct.None? {
      return None;
    }
    var frame := hdr + ct.value;
    assert frame[..5] == hdr && frame[5..] == ct.value;
    return Some(Sent(next, plain, frame));
  }

  // ---------------------------------------------------------------- the reads still to come

  lemma {:induction false} ArrivedCons(input: seq<Read>, m: nat)
    requires 0 < m <= Delivering(input)
    ensures Arrived(input, m) == input[0].data + Arrived(input[1..], m - 1)
  {
    if m == 1 {
      NilLeft(input[0].data);
      NilRight(input[0].data);
    } else {
      ArrivedCons(input, m - 1);
      Assoc(input[0].data, Arrived(input[1..], m - 2), input[m - 1].data);
    }
  }

  /** The stream behind the first `n` reads is a stream of its own. */
  lemma {:induction false} BehindIsStream(input: seq<Read>, n: nat)
    requires n <= Delivering(input)
    ensures TargetBytes(input[n..]) == C.Behind(input, n)
    ensures TargetBytes(input) == Arrived(input, n) + C.Behind(input, n)
    decreases n
  {
    ArrivedPrefix(input, n, Delivering(input));
    PrefixSplit(Arrived(input, n), TargetBytes(input));
    if n == 0 {
      assert input[0..] == input;
    } else {
      var rest := input[1..];
      BehindIsStream(rest, n - 1);
      assert input[n..] == rest[n - 1..];
      ArrivedCons(input, n);
      ArrivedCons(input, Delivering(input));
      Assoc(input[0].data, Arrived(rest, n - 1), C.Behind(rest, n - 1));
      SameTail(Arrived(input, n), C.Behind(rest, n - 1), C.Behind(input, n));
    }
  }

  lemma SameTail(a: bytes, b: bytes, c: bytes)
    requires a + b == a + c
    ensures b == c
  {
    assert b == (a + b)[|a|..];
    assert c == (a + c)[|a|..];
  }

  // ---------------------------------------------------------------- sending

  lemma SealedSnoc(w: World, key: bytes, start: nat, sent: seq<Sent>, x: Sent)
    requires SealedFrames(w, key, start, sent) && SealedFrame(w, key, x)
    requires x.nonce == Successor(NonceAt(start + |sent|))
    ensures SealedFrames(w, key, start, sent + [x]) && x.nonce == NonceAt(start + |sent + [x]|)
    ensures Plain(sent + [x]) == Plain(sent) + x.plain
  {
    PlainSnoc(sent, x);
  }

  /** The VLESS response. */
  method SealResponse(w: World, key: bytes, nonce: Counter, ghost start: nat) returns (x: Option<Sent>)
    requires nonce == NonceAt(start)
    ensures x.Some? ==> SealedFrames(w, key, start, [x.value]) && x.value.nonce == NonceAt(start + 1)
    ensures x.Some? ==> x.value.plain == Plain([x.value]) == V.VLESS_RESPONSE
  {
    x := SealRecord(w, key, V.VLESS_RESPONSE, nonce);
    if x.Some? {
      SealedSnoc(w, key, start, [], x.value);
      assert [] + [x.value] == [x.value];
      NilLeft(V.VLESS_RESPONSE);
    }
  }

  lemma HeadSnoc(w: World, key: bytes, start: nat, response: Sent, rest: Sent)
    requires SealedFrames(w, key, start, [response]) && response.nonce == NonceAt(start + 1)
    requires SealedFrame(w, key, rest) && rest.nonce == Successor(response.nonce)
    ensures SealedFrames(w, key, start, [response, rest]) && rest.nonce == NonceAt(start + 2)
    ensures Plain([response, rest]) == Plain([response]) + rest.plain
  {
    NonceFollows(start, 1);
    SealedSnoc(w, key, start, [response], rest);
    assert [response] + [rest] == [response, rest];
  }

  /** The response, and the leftover if there is one; the counter goes on to the download loop. */
  method SealHead(w: World, key: bytes, nonce: Counter, ghost start: nat, leftover: bytes)
    returns (ok: bool, sent: seq<Sent>, counter: Counter)
    requires nonce == NonceAt(start)
    ensures SealedFrames(w, key, start, sent) && |sent| <= 2
    ensures Plain(sent) <= V.VLESS_RESPONSE + leftover
    ensures ok ==> Plain(sent) == V.VLESS_RESPONSE + leftover && counter == NonceAt(start + |sent|)
    ensures ok ==> |sent| == if |leftover| > 0 then 2 else 1
    ensures forall i :: 0 <= i < |sent| ==> sent[i].plain == if i == 0 then V.VLESS_RESPONSE else leftover
  {
    sent, counter := [], nonce;
    var response := SealResponse(w, key, nonce, start);
    if response.None? || !w.sendOk(0) {
      return false, sent, counter;
    }
    sent, counter := [response.value], response.value.nonce;
    NilRight(V.VLESS_RESPONSE);
    if |leftover| == 0 {
      return true, sent, counter;
    }
    var rest := SealRecord(w, key, leftover, counter);
    if rest.None? || !w.sendOk(1) {
      return false, sent, counter;
    }
    HeadSnoc(w, key, start, response.value, rest.value);
    return true, [response.value, rest.value], rest.value.nonce;
  }

  lemma {:induction false} PlainAppend(a: seq<Sent>, b: seq<Sent>)
    ensures Plain(a + b) == Plain(a) + Plain(b)
    decreases |b|
  {
    if |b| == 0 {
      NilRight(a);
      NilRight(Plain(a));
    } else {
      var front, last := b[..|b| - 1], b[|b| - 1];
      PlainAppend(a, front);
      InitLast(b);
      Assoc(a, front, [last]);
      PlainSnoc(a + front, last);
      Assoc(Plain(a), Plain(front), last.plain);
    }
  }

  lemma FramesAppend(w: World, key: bytes, start: nat, a: seq<Sent>, b: seq<Sent>)
    requires SealedFrames(w, key, start, a) && GoodFrames(w, key, start + |a|, b)
    ensures SealedFrames(w, key, start, a + b)
  {
    forall i | 0 <= i < |a + b|
      ensures (a + b)[i].nonce == NonceAt(start + i + 1) && SealedFrame(w, key, (a + b)[i])
    {
      if i >= |a| {
        assert GoodFrame(w, key, b[i - |a|]);
      }
    }
  }

  /** All frames are readable but possibly the leftover's, number 1. */
  ghost predicate ReadableBut(sent: seq<Sent>, leftover: bytes) {
    && (forall i :: 0 <= i < |sent| && i != 1 ==> Readable(sent[i]))
    && (|sent| > 1 && |leftover| > 0 ==> (Readable(sent[1]) <==> |leftover| <= MAX_BODY - TAG_LEN))
  }

  /** Frames sealed under consecutive nonces whose plaintexts are the response, the leftover
      and then the first bytes of `rest`; the leftover is a record of its own. */
  ghost predicate Descended(w: World, key: bytes, start: nat, sent: seq<Sent>, leftover: bytes, rest: bytes) {
    && SealedFrames(w, key, start, sent) && ReadableBut(sent, leftover)
    && Plain(sent) <= V.VLESS_RESPONSE + leftover + rest
    && (|leftover| > 0 && |sent| > 1 ==> sent[1].plain == leftover)
  }

  lemma JoinSent(w: World, key: bytes, start: nat, head: seq<Sent>, frames: seq<Sent>, leftover: bytes, rest: bytes)
    requires SealedFrames(w, key, start, head) && ReadableBut(head, leftover)
    requires Plain(head) == V.VLESS_RESPONSE + leftover
    requires |head| == if |leftover| > 0 then 2 else 1
    requires |leftover| > 0 ==> head[1].plain == leftover
    requires GoodFrames(w, key, start + |head|, frames) && Plain(frames) <= rest
    ensures Descended(w, key, start, head + frames, leftover, rest)
    ensures Plain(head + frames) == V.VLESS_RESPONSE + leftover + Plain(frames)
  {
    FramesAppend(w, key, start, head, frames);
    JoinReadable(w, key, start, head, frames, leftover);
    PlainAppend(head, frames);
    Longer(V.VLESS_RESPONSE + leftover, Plain(frames), rest);
  }

  lemma Longer(a: bytes, b: bytes, c: bytes)
    requires b <= c
    ensures a + b <= a + c
  {
  }

  lemma JoinReadable(w: World, key: bytes, start: nat, head: seq<Sent>, frames: seq<Sent>, leftover: bytes)
    requires 1 <= |head| <= 2 && (|leftover| > 0 ==> |head| == 2) && ReadableBut(head, leftover)
    requires GoodFrames(w, key, start + |head|, frames)
    ensures ReadableBut(head + frames, leftover)
  {
    RestReadable(w, key, start + |head|, frames);
    BothReadable(head, frames, leftover);
  }

  /** The head, then the download loop over the reads still to come. */
  method SendDown(w: World, rest: seq<Read>, key: bytes, nonce: Counter, ghost start: nat, leftover: bytes)
    returns (outcome: Outcome, sent: seq<Sent>)
    requires nonce == NonceAt(start)
    ensures Descended(w, key, start, sent, leftover, TargetBytes(rest))
    ensures !outcome.Error? ==> Plain(sent) == V.VLESS_RESPONSE + leftover + TargetBytes(rest)
    ensures !outcome.Error? && |leftover| > 0 ==> |sent| > 1
  {
    var ok, head, counter := SealHead(w, key, nonce, start, leftover);
    HeadReadable(w, key, start, head, leftover);
    if !ok {
      return Error, head;
    }
    var frames;
    outcome, frames := RelayDownload(w, rest, key, counter, start + |head|);
    JoinSent(w, key, start, head, frames, leftover, TargetBytes(rest));
    sent := head + frames;
  }

  lemma BothReadable(head: seq<Sent>, frames: seq<Sent>, leftover: bytes)
    requires 1 <= |head| <= 2 && (|leftover| > 0 ==> |head| == 2) && ReadableBut(head, leftover)
    requires forall i :: 0 <= i < |frames| ==> Readable(frames[i])
    ensures ReadableBut(head + frames, leftover)
  {
  }

  /** For every chunking of the proxy's stream: one run of consecutive nonces, and plaintexts
      that are the response and then exactly what the proxy sent behind its header. All frames
      are readable but possibly the leftover's, which is readable exactly up to 16624 bytes. */
  method TunnelSealed(polls: nat -> nat, w: World, input: seq<Read>, key: bytes, nonce: Counter, ghost start: nat)
    returns (r: C.Connected, outcome: Outcome, sent: seq<Sent>, taken: nat)
    requires nonce == NonceAt(start)
    ensures r.Tunnel? <==> C.Accepted(input)
    ensures !r.Tunnel? ==> sent == []
    ensures r.Tunnel? ==> SealedFrames(w, key, start, sent) && ReadableBut(sent, r.leftover)
    ensures r.Tunnel? ==>
      var due := V.VLESS_RESPONSE + TargetBytes(input)[C.Find(TargetBytes(input)).value + 4..];
      Plain(sent) <= due && (!outcome.Error? ==> Plain(sent) == due)
    ensures r.Tunnel? ==> LeftoverIs(input, taken, r.leftover)
    ensures r.Tunnel? && |r.leftover| > 0 ==>
      (|sent| > 1 ==> sent[1].plain == r.leftover) && (!outcome.Error? ==> |sent| > 1)
  {
    var conn := new C.Conn(input);
    r := C.HttpConnect(conn, polls);
    outcome, sent, taken := Error, [], conn.next;
    if r.Tunnel? {
      BehindIsStream(input, taken);
      C.DueBehindHeader(input, taken, C.Find(TargetBytes(input)).value + 4, r.leftover);
      outcome, sent := SendDown(w, input[taken..], key, nonce, start, r.leftover);
    }
  }

  /** The leftover is what the first `taken` reads hold behind the header. */
  ghost predicate LeftoverIs(input: seq<Read>, taken: nat, leftover: bytes) {
    && taken <= Delivering(input) && C.Find(TargetBytes(input)).Some?
    && Arrived(input, taken) == TargetBytes(input)[..C.Find(TargetBytes(input)).value + 4] + leftover
  }

  /** A proxy that answers with one chunk: the leftover is all of it behind the header. */
  lemma OneChunkLeftover(data: bytes, taken: nat, leftover: bytes)
    requires LeftoverIs([Chunk(data)], taken, leftover)
    ensures C.Find(data).Some? && leftover == data[C.Find(data).value + 4..]
  {
    OneChunkBytes(data);
    var all := Arrived([Chunk(data)], taken);
    assert |all| >= 4;
    assert taken == 1;
    assert leftover == all[C.Find(data).value + 4..];
  }

  /** A 2xx header with more than 16624 bytes behind it in the same chunk: whatever else
      happens, the record of the leftover is one that the client cannot read. */
  method LongLeftover(polls: nat -> nat, w: World, data: bytes, key: bytes, nonce: Counter, ghost start: nat)
    returns (outcome: Outcome, sent: seq<Sent>)
    requires nonce == NonceAt(start) && C.Accepted([Chunk(data)])
    requires |data| - (C.Find(TargetBytes([Chunk(data)])).value + 4) > MAX_BODY - TAG_LEN
    ensures |sent| > 1 ==> !Readable(sent[1])
    ensures !outcome.Error? ==> |sent| > 1
  {
    var r, taken;
    r, outcome, sent, taken := TunnelSealed(polls, w, [Chunk(data)], key, nonce, start);
    OneChunkBytes(data);
    OneChunkLeftover(data, taken, r.leftover);
  }

  lemma OneChunkBytes(data: bytes)
    ensures TargetBytes([Chunk(data)]) == data
  {
    assert Delivering([Chunk(data)][1..]) == 0;
    assert Arrived([Chunk(data)], 1) == [] + data == data;
  }

  const CRLF_CRLF: bytes := [13, 10, 13, 10]

  /** A response header without fields: a version, a code, and the end. */
  function BareHeader(version: bytes, code: u16): bytes {
    version + [32] + Ascii(Decimal(code)) + CRLF_CRLF
  }

  lemma BareHeaderEnds(version: bytes, code: u16, body: bytes)
    requires Status.Visible(version)
    ensures C.Find(BareHeader(version, code) + body) == Some(|BareHeader(version, code)| - 4)
  {
    var digits := Ascii(Decimal(code));
    Status.DecimalDigits(code);
    var line := version + [32] + digits;
    var data := line + CRLF_CRLF + body;
    assert forall k :: 0 <= k < |line| ==> data[k] == line[k] && line[k] != 13;
    assert data[|line|..|line| + 4] == CRLF_CRLF;
    assert C.CrlfCrlfAt(data, |line|) by {
      assert forall k :: 0 <= k < 4 ==> data[|line| + k] == CRLF_CRLF[k];
    }
    assert forall k :: 0 <= k < |line| ==> !C.CrlfCrlfAt(data, k);
  }

  lemma BareHeaderReads(version: bytes, code: u16, body: bytes)
    requires Status.Visible(version) && |BareHeader(version, code)| <= 256
    ensures Status.Code(C.StatusLine(BareHeader(version, code) + body, |BareHeader(version, code)|)) == code
  {
    var head := BareHeader(version, code);
    assert C.StatusLine(head + body, |head|) == head;
    Status.CodeReads(version, code, CRLF_CRLF);
  }

  lemma OneChunkAccepted(data: bytes)
    requires C.Find(data).Some? && C.Find(data).value + 4 <= C.SCAN_LEN
    ensures C.Accepted([Chunk(data)]) <==> 200 <= Status.Code(C.StatusLine(data, C.Find(data).value + 4)) < 300
  {
    OneChunkBytes(data);
    assert Delivering([Chunk(data)][1..]) == 0;
    assert C.Answers([Chunk(data)]);
  }

  /** There are such chunks: any code from 200 to 299 behind any version, in a header that
      ends within the scanned status line, and any body. */
  lemma LongChunkAccepted(version: bytes, code: u16, body: bytes)
    requires Status.Visible(version) && |BareHeader(version, code)| <= 256
    ensures
      var data := BareHeader(version, code) + body;
      && C.Find(TargetBytes([Chunk(data)])) == Some(|BareHeader(version, code)| - 4)
      && (C.Accepted([Chunk(data)]) <==> 200 <= code < 300)
  {
    var data := BareHeader(version, code) + body;
    OneChunkBytes(data);
    BareHeaderEnds(version, code, body);
    BareHeaderReads(version, code, body);
    OneChunkAccepted(data);
  }

  lemma HeadReadable(w: World, key: bytes, start: nat, head: seq<Sent>, leftover: bytes)
    requires SealedFrames(w, key, start, head) && |head| <= 2
    requires forall i :: 0 <= i < |head| ==> head[i].plain == if i == 0 then V.VLESS_RESPONSE else leftover
    ensures ReadableBut(head, leftover)
  {
    if |head| > 0 {
      ReadableExactly(w, key, head[0]);
    }
    if |head| > 1 {
      ReadableExactly(w, key, head[1]);
    }
  }

  lemma RestReadable(w: World, key: bytes, start: nat, rest: seq<Sent>)
    requires GoodFrames(w, key, start, rest)
    ensures forall i :: 0 <= i < |rest| ==> Readable(rest[i])
  {
    forall i | 0 <= i < |rest| ensures Readable(rest[i]) {
      assert GoodFrame(w, key, rest[i]);
    }
  }
}
