/** The record layer of `relay/src/enc.rs` and `relay/src/session.rs`: five header bytes,
    then an AEAD body of the announced length. */
module Records {
  import opened Bytes

  const MIN_BODY := 17
  const MAX_BODY := 16640

  datatype Rec = Rec(hdr: bytes, body: bytes)

  /** `encode_header`: the two length bytes truncate like the `as u8` casts. */
  function EncodeHeader(l: nat): (h: bytes)
    ensures |h| == 5
  {
    [23, 3, 3, l / 256 % 256, l % 256]
  }

  /** `decode_header`: a wrong prefix counts as length 0, which the range test rejects. */
  function DecodeHeader(h: bytes): (l: Option<nat>)
    requires |h| == 5
  {
    var announced := h[3] as int * 256 + h[4];
    var l := if h[0] != 23 || h[1] != 3 || h[2] != 3 then 0 else announced;
    if MIN_BODY <= l <= MAX_BODY then Some(l) else None
  }

  /** Reading back a written header: exactly the lengths in range survive. */
  lemma HeaderRoundTrip(l: nat)
    requires l < 0x1_0000
    ensures DecodeHeader(EncodeHeader(l)) == if MIN_BODY <= l <= MAX_BODY then Some(l) else None
  {
    assert l / 256 % 256 == l / 256;
  }

  /** A header is determined by the length it decodes to. */
  lemma HeaderCanonical(h: bytes)
    requires |h| == 5 && DecodeHeader(h).Some?
    ensures h == EncodeHeader(DecodeHeader(h).value)
  {
    var l := DecodeHeader(h).value;
    assert l / 256 == h[3] && l % 256 == h[4];
  }

  ghost predicate WellFormed(r: Rec) {
    |r.hdr| == 5 && DecodeHeader(r.hdr) == Some(|r.body|)
  }

  ghost predicate AllWellFormed(recs: seq<Rec>) {
    forall i :: 0 <= i < |recs| ==> WellFormed(recs[i])
  }

  function Wire(r: Rec): bytes {
    r.hdr + r.body
  }

  function WireAll(recs: seq<Rec>): bytes {
    if |recs| == 0 then [] else Wire(recs[0]) + WireAll(recs[1..])
  }

  lemma {:induction false} WireAllAppend(a: seq<Rec>, b: seq<Rec>)
    ensures WireAll(a + b) == WireAll(a) + WireAll(b)
  {
    if |a| == 0 {
      assert a + b == b;
    } else {
      assert (a + b)[1..] == a[1..] + b;
      WireAllAppend(a[1..], b);
      assert Wire(a[0]) + (WireAll(a[1..]) + WireAll(b)) == (Wire(a[0]) + WireAll(a[1..])) + WireAll(b);
    }
  }

  /** What stands at the front of a window of received bytes. */
  datatype Front = Incomplete | Malformed | Ready(rec: Rec)

  function PeekRecord(window: bytes): (f: Front)
    ensures f.Ready? ==> WellFormed(f.rec) && Wire(f.rec) <= window && |Wire(f.rec)| > 0
  {
    if |window| < 5 then Incomplete
    else
      match DecodeHeader(window[..5])
      case None => Malformed
      case Some(l) =>
        if |window| < 5 + l then Incomplete
        else
          var r := Rec(window[..5], window[5..5 + l]);
          assert window[..5 + l] == Wire(r);
          Ready(r)
  }

  /** The records of a byte stream, the unfinished tail, and whether that tail starts
      with a header that can never become a record. */
  datatype Framing = Framing(recs: seq<Rec>, rest: bytes, malformed: bool)

  function Deframe(stream: bytes): (f: Framing)
    ensures AllWellFormed(f.recs)
    decreases |stream|
  {
    match PeekRecord(stream)
    case Incomplete => Framing([], stream, false)
    case Malformed => Framing([], stream, true)
    case Ready(r) =>
      var f := Deframe(stream[|Wire(r)|..]);
      Framing([r] + f.recs, f.rest, f.malformed)
  }

  /** Bytes behind the first record do not change it. */
  lemma PeekStable(a: bytes, b: bytes)
    ensures PeekRecord(a).Ready? ==> PeekRecord(a + b) == PeekRecord(a)
    ensures PeekRecord(a).Malformed? ==> PeekRecord(a + b).Malformed?
  {
    if |a| >= 5 {
      assert (a + b)[..5] == a[..5];
      match DecodeHeader(a[..5])
      case None =>
      case Some(l) =>
        if |a| >= 5 + l {
          assert (a + b)[5..5 + l] == a[5..5 + l];
        }
    }
  }

  lemma PeekWire(r: Rec, tail: bytes)
    requires WellFormed(r)
    ensures PeekRecord(Wire(r) + tail) == Ready(r)
  {
    var w := Wire(r) + tail;
    assert w[..5] == r.hdr;
    assert w[5..5 + |r.body|] == r.body;
  }

  lemma DeframeStep(r: Rec, more: bytes)
    requires WellFormed(r)
    ensures Deframe(Wire(r) + more)
         == Framing([r] + Deframe(more).recs, Deframe(more).rest, Deframe(more).malformed)
  {
    PeekWire(r, more);
    assert (Wire(r) + more)[|Wire(r)|..] == more;
  }

  function Prepend(recs: seq<Rec>, f: Framing): Framing {
    Framing(recs + f.recs, f.rest, f.malformed)
  }

  lemma WireCons(r: Rec, recs: seq<Rec>, tail: bytes)
    ensures WireAll([r] + recs) + tail == Wire(r) + (WireAll(recs) + tail)
  {
    assert ([r] + recs)[1..] == recs;
    Assoc(Wire(r), WireAll(recs), tail);
  }

  /** Framing reads back every list of well-formed records, whatever follows it. */
  lemma {:induction false} DeframeWire(recs: seq<Rec>, tail: bytes)
    requires AllWellFormed(recs)
    ensures Deframe(WireAll(recs) + tail) == Prepend(recs, Deframe(tail))
  {
    var f := Deframe(tail);
    if |recs| == 0 {
      NilLeft(tail);
      NilLeft(f.recs);
    } else {
      var more := WireAll(recs[1..]) + tail;
      DeframeWire(recs[1..], tail);
      DeframeStep(recs[0], more);
      HeadTail(recs);
      WireCons(recs[0], recs[1..], tail);
      Assoc([recs[0]], recs[1..], f.recs);
    }
  }

  /** Nothing is lost: records and tail together are the stream. */
  lemma {:induction false} DeframeConserves(stream: bytes)
    ensures stream == WireAll(Deframe(stream).recs) + Deframe(stream).rest
    ensures !PeekRecord(Deframe(stream).rest).Ready?
    ensures Deframe(stream).malformed <==> PeekRecord(Deframe(stream).rest).Malformed?
    decreases |stream|
  {
    match PeekRecord(stream)
    case Incomplete =>
    case Malformed =>
    case Ready(r) =>
      var more := stream[|Wire(r)|..];
      DeframeConserves(more);
      Split(stream, |Wire(r)|);
      WireCons(r, Deframe(more).recs, Deframe(more).rest);
  }

  lemma DeframeNone(stream: bytes)
    requires !PeekRecord(stream).Ready?
    ensures Deframe(stream) == Framing([], stream, PeekRecord(stream).Malformed?)
  {
  }

  /** More bytes only add records at the end, and a malformed header stays where it is. */
  lemma DeframeExtends(a: bytes, b: bytes)
    ensures Deframe(a).recs <= Deframe(a + b).recs
    ensures Deframe(a).malformed ==> Deframe(a + b).malformed && Deframe(a + b).recs == Deframe(a).recs
  {
    var f := Deframe(a);
    DeframeConserves(a);
    Assoc(WireAll(f.recs), f.rest, b);
    DeframeWire(f.recs, f.rest + b);
    if f.malformed {
      PeekStable(f.rest, b);
      DeframeNone(f.rest + b);
    }
  }

  /** However well-formed records are cut into frames, framing the frames returns them. */
  lemma FragmentedRecords(recs: seq<Rec>, frames: seq<bytes>)
    requires AllWellFormed(recs) && Concat(frames) == WireAll(recs)
    ensures Deframe(Concat(frames)) == Framing(recs, [], false)
  {
    NilRight(WireAll(recs));
    DeframeWire(recs, []);
    DeframeNone([]);
    NilRight(recs);
  }
}
