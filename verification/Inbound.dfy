/** `Inner` of `relay/src/session.rs`: the per-connection state that survives between
    messages, its framing buffer with a cursor, and the framing claim about both. */
module Inbound {
  import opened Bytes
  import opened Nonce
  import opened Records
  import H = Handshake
  import V = Vless

  datatype Phase =
    | Handshake | Header | Data | Udp
    | PlainHeader | PlainData | PlainUdp
    | Closed

  /** The values of the fields of `Inner` at one moment. */
  datatype Fields = Fields(
    phase: Phase,
    buf: bytes,
    pos: nat,
    pumping: bool,
    keys: Option<H.Keys>,
    nonceW: Counter,
    nonceR: Counter,
    acc: bytes,
    writer: bool,
    udpTarget: Option<V.VlessRequest>)

  /** The cursor never passes the end of the buffer. */
  type State = s: Fields | s.pos <= |s.buf|
    witness Fields(Handshake, [], 0, false, None, ZERO, ZERO, [], false, None)

  function Fresh(plaintext: bool): State {
    Fields(if plaintext then PlainHeader else Handshake, [], 0, false, None, ZERO, ZERO, [], false, None)
  }

  /** The bytes not yet consumed. */
  function Window(s: State): bytes {
    s.buf[s.pos..]
  }

  /** `take_record`: the cursor and the read nonce move only with a complete record. */
  function Advance(s: State, r: Rec): State
    requires Wire(r) <= Window(s)
  {
    s.(pos := s.pos + |Wire(r)|, nonceR := Successor(s.nonceR))
  }

  function Compacted(s: State): State {
    s.(buf := Window(s), pos := 0)
  }

  /** `has_pending`: work that arrived during the pump's awaits. */
  predicate HasPending(s: State) {
    match s.phase
    case PlainHeader | Handshake | Closed => false
    case PlainData | PlainUdp => |s.buf| > s.pos
    case Header | Data | Udp => !PeekRecord(Window(s)).Incomplete?
  }

  lemma AdvanceWindow(s: State, r: Rec)
    requires Wire(r) <= Window(s)
    ensures Window(s) == Wire(r) + Window(Advance(s, r))
  {
    var w := Window(s);
    PrefixSplit(Wire(r), w);
    assert w[|Wire(r)|..] == s.buf[s.pos + |Wire(r)|..];
  }

  class Inner {
    var phase: Phase
    var buf: bytes
    var pos: nat
    var pumping: bool
    var keys: Option<H.Keys>
    var nonceW: Counter
    var nonceR: Counter
    var acc: bytes
    var writer: bool
    var udpTarget: Option<V.VlessRequest>

    function View(): State
      reads this
      requires Valid()
    {
      Fields(phase, buf, pos, pumping, keys, nonceW, nonceR, acc, writer, udpTarget)
    }

    ghost predicate Valid()
      reads this
    {
      pos <= |buf|
    }

    constructor (plaintext: bool)
      ensures Valid() && View() == Fresh(plaintext)
    {
      phase := if plaintext then PlainHeader else Handshake;
      buf, pos, pumping, keys := [], 0, false, None;
      nonceW, nonceR, acc, writer, udpTarget := ZERO, ZERO, [], false, None;
    }

    method TakeRecord() returns (f: Front)
      requires Valid()
      modifies this`pos, this`nonceR
      ensures Valid()
      ensures f == PeekRecord(Window(old(View())))
      ensures View() == if f.Ready? then Advance(old(View()), f.rec) else old(View())
    {
      var avail := |buf| - pos;
      ghost var w := Window(View());
      if avail < 5 {
        return Incomplete;
      }
      var hdr := buf[pos..pos + 5];
      assert hdr == w[..5];
      var l := DecodeHeader(hdr);
      if l.None? {
        return Malformed;
      }
      if avail < 5 + l.value {
        return Incomplete;
      }
      nonceR := NextNonce(nonceR);
      var body := buf[pos + 5..pos + 5 + l.value];
      assert body == w[5..5 + l.value];
      pos := pos + (5 + l.value);
      f := Ready(Rec(hdr, body));
    }

    method Compact()
      requires Valid()
      modifies this`buf, this`pos
      ensures Valid() && View() == Compacted(old(View()))
    {
      if pos == 0 {
        return;
      }
      if pos >= |buf| {
        buf := [];
      } else {
        buf := buf[pos..];
      }
      pos := 0;
    }

    method Pending() returns (more: bool)
      requires Valid()
      ensures more == HasPending(View())
    {
      match phase
      case PlainHeader | Handshake | Closed =>
        more := false;
      case PlainData | PlainUdp =>
        more := |buf| > pos;
      case Header | Data | Udp =>
        var avail := |buf| - pos;
        if avail < 5 {
          return false;
        }
        var hdr := buf[pos..pos + 5];
        assert hdr == Window(View())[..5];
        var l := DecodeHeader(hdr);
        more := l.None? || avail >= 5 + l.value;
    }

    /** The synchronous first half of `websocket_message`: drop, enqueue, or become the pump. */
    method Enqueue(data: bytes) returns (pump: bool)
      requires Valid()
      modifies this`buf, this`pos, this`pumping
      ensures Valid()
      ensures pump <==> !old(phase).Closed? && !old(pumping)
      ensures View() == if old(phase).Closed? then old(View())
                        else if old(pumping) then old(View()).(buf := old(buf) + data)
                        else Compacted(old(View())).(buf := Window(old(View())) + data, pumping := true)
    {
      if phase == Closed {
        return false;
      }
      if pumping {
        buf := buf + data;
        return false;
      }
      Compact();
      if |buf| == 0 {
        buf := data;
      } else {
        buf := buf + data;
      }
      pumping := true;
      pump := true;
    }
  }

  // ---------------------------------------------------------------- framing over a run

  /** Frames in, records out: `append`, then `take_record` until it stops, for each frame,
      up to the first malformed header. Whatever the split into frames, the records are
      those of the whole stream in order, the i-th opened under read nonce i, and the
      malformed header is met behind the same record. */
  method Reframe(frames: seq<bytes>) returns (recs: seq<Rec>, nonces: seq<Counter>, malformed: bool)
    ensures recs == Deframe(Concat(frames)).recs
    ensures malformed == Deframe(Concat(frames)).malformed
    ensures nonces == Nonces(|recs|)
  {
    var inner := new Inner(false);
    recs, nonces, malformed := [], [], false;
    var i := 0;
    assert frames[..0] == [];
    while i < |frames|
      invariant 0 <= i <= |frames| && !malformed && fresh(inner)
      invariant inner.Valid() && inner.phase.Handshake? && !inner.pumping
      invariant AllWellFormed(recs) && nonces == Nonces(|recs|) && inner.nonceR == NonceAt(|recs|)
      invariant Concat(frames[..i]) == WireAll(recs) + Window(inner.View())
      invariant PeekRecord(Window(inner.View())).Incomplete?
    {
      ghost var w := Window(inner.View());
      var pump := inner.Enqueue(frames[i]);
      ConcatTake(frames, i);
      Assoc(WireAll(recs), w, frames[i]);
      assert Window(inner.View()) == w + frames[i];
      i := i + 1;
      recs, nonces, malformed := Drain(inner, recs, nonces, Concat(frames[..i]));
      if malformed {
        FramesAhead(frames, i, recs, Window(inner.View()));
        return;
      }
      inner.pumping := false;
    }
    assert frames[..i] == frames;
    DeframeWire(recs, Window(inner.View()));
    DeframeNone(Window(inner.View()));
    NilRight(recs);
  }

  lemma FramesAhead(frames: seq<bytes>, i: nat, recs: seq<Rec>, w: bytes)
    requires i <= |frames| && AllWellFormed(recs)
    requires Concat(frames[..i]) == WireAll(recs) + w && PeekRecord(w).Malformed?
    ensures Deframe(Concat(frames)).recs == recs && Deframe(Concat(frames)).malformed
  {
    Split(frames, i);
    ConcatAppend(frames[..i], frames[i..]);
    DeframeWire(recs, w);
    DeframeNone(w);
    NilRight(recs);
    DeframeExtends(Concat(frames[..i]), Concat(frames[i..]));
  }

  /** The `take_record` loop of every encrypted phase. */
  method Drain(inner: Inner, recs: seq<Rec>, nonces: seq<Counter>, ghost stream: bytes)
    returns (recs': seq<Rec>, nonces': seq<Counter>, malformed: bool)
    requires inner.Valid() && AllWellFormed(recs)
    requires nonces == Nonces(|recs|) && inner.nonceR == NonceAt(|recs|)
    requires stream == WireAll(recs) + Window(inner.View())
    modifies inner`pos, inner`nonceR
    ensures inner.Valid() && AllWellFormed(recs')
    ensures nonces' == Nonces(|recs'|) && inner.nonceR == NonceAt(|recs'|)
    ensures stream == WireAll(recs') + Window(inner.View())
    ensures PeekRecord(Window(inner.View())) == if malformed then Malformed else Incomplete
  {
    recs', nonces', malformed := recs, nonces, false;
    while true
      invariant inner.Valid() && AllWellFormed(recs') && !malformed
      invariant nonces' == Nonces(|recs'|) && inner.nonceR == NonceAt(|recs'|)
      invariant stream == WireAll(recs') + Window(inner.View())
      decreases |inner.buf| - inner.pos
    {
      ghost var before := inner.View();
      var f := inner.TakeRecord();
      match f
      case Incomplete =>
        return;
      case Malformed =>
        malformed := true;
        return;
      case Ready(r) =>
        AdvanceWindow(before, r);
        Consumed(recs', r, Window(inner.View()));
        recs', nonces' := recs' + [r], nonces' + [inner.nonceR];
    }
  }

  /** Moving one record from the window to the consumed list keeps the stream. */
  lemma Consumed(recs: seq<Rec>, r: Rec, w: bytes)
    ensures WireAll(recs) + (Wire(r) + w) == WireAll(recs + [r]) + w
  {
    WireAllAppend(recs, [r]);
    assert [r][1..] == [];
    NilRight(Wire(r));
    Assoc(WireAll(recs), Wire(r), w);
  }
}
