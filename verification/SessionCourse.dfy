/** The course of a session: which target it serves at each await, and that it gives up only
    on bytes no client may send. `Judge` says from the received bytes alone where a session
    must be; every step is shown to follow it. */
module SessionCourse {
  import opened Bytes
  import opened Nonce
  import opened Records
  import opened Inbound
  import opened Session
  import opened Payload
  import opened SessionInvariant
  import opened SessionSafety
  import opened SessionClaims
  import H = Handshake
  import V = Vless

  // ---------------------------------------------------------------- what the bytes call for

  /** The bytes are refused, the greeting or the header is not complete yet, or a header is
      there to be served. */
  datatype Verdict = Bad | Greeting | HeaderWanted | Serving(parsed: V.Parsed)

  function Judged(a: V.Attempt): Verdict {
    match a
    case More => HeaderWanted
    case Rejected => Bad
    case Accepted(p, _) => Serving(p)
  }

  /** Behind the handshake: every record must be well-formed and open. */
  function JudgeRecords(env: Env, key: bytes, stream: bytes): Verdict {
    match OpenAll(env, key, Deframe(stream).recs)
    case None => Bad
    case Some(pt) => if Deframe(stream).malformed then Bad else Judged(V.TryHeader(pt, env.outside))
  }

  function Judge(env: Env, rx: bytes): Verdict {
    if env.plaintext then Judged(V.TryHeader(rx, env.outside))
    else
      match H.ReadHello(env.crypto, rx)
      case NeedMore => Greeting
      case Violation => Bad
      case Whole(pfs, nfsKey, consumed) =>
        match env.crypto.commit(pfs, nfsKey)
        case None => Bad
        case Some(keys) => JudgeRecords(env, keys.r, rx[consumed..])
  }

  lemma RejectedStays(env: Env, a: bytes, b: bytes)
    requires a <= b && V.TryHeader(a, env.outside).Rejected?
    ensures V.TryHeader(b, env.outside).Rejected?
  {
    PrefixSplit(a, b);
    V.LongFailureIsFinal(a, b[|a|..], env.outside);
  }

  lemma BadRecordsStay(env: Env, key: bytes, a: bytes, b: bytes)
    requires JudgeRecords(env, key, a).Bad?
    ensures JudgeRecords(env, key, a + b).Bad?
  {
    var short, long := Deframe(a), Deframe(a + b);
    DeframeExtends(a, b);
    if OpenAll(env, key, long.recs).Some? {
      assert long.recs[..|short.recs|] == short.recs;
      OpenAllExtends(env, key, long.recs, |short.recs|);
      if !short.malformed {
        RejectedStays(env, OpenAll(env, key, short.recs).value, OpenAll(env, key, long.recs).value);
      }
    }
  }

  /** Refused bytes are refused whatever follows them. */
  lemma BadIsFinal(env: Env, a: bytes, b: bytes)
    requires Judge(env, a).Bad?
    ensures Judge(env, a + b).Bad?
  {
    if env.plaintext {
      RejectedStays(env, a, a + b);
    } else {
      H.HelloMonotone(env.crypto, a, b);
      var h := H.ReadHello(env.crypto, a);
      if h.Whole? && env.crypto.commit(h.pfs, h.nfsKey).Some? {
        TailAppend(a, b, h.consumed);
        BadRecordsStay(env, env.crypto.commit(h.pfs, h.nfsKey).value.r, a[h.consumed..], b);
      }
    }
  }

  // ---------------------------------------------------------------- what goes down

  /** What the completion of an await hands the pump: the leftover of a connect, or the reply
      to a query, empty if it failed. */
  function Given(s: Session, e: Event): seq<bytes> {
    match e
    case Complete(o) =>
      if s.pc.ConnectTarget? && o.ok then [o.bytes]
      else if s.pc.QueryUdp? then [if o.ok then o.bytes else []]
      else []
    case _ => []
  }

  /** The replies there are, each framed. */
  function Replies(got: seq<bytes>): seq<bytes> {
    if |got| == 0 then []
    else
      var front, last := Replies(got[..|got| - 1]), got[|got| - 1];
      if |last| == 0 then front else front + [Framed(last)]
  }

  /** What the client is due: the response, then the leftover or the replies. */
  function Due(udp: bool, got: seq<bytes>): seq<bytes> {
    [V.VLESS_RESPONSE] + if udp then Replies(got) else if |got| == 0 || |got[0]| == 0 then [] else [got[0]]
  }

  lemma RepliesSnoc(got: seq<bytes>, reply: bytes)
    ensures |reply| == 0 ==> Due(true, got + [reply]) == Due(true, got)
    ensures |reply| > 0 ==> Due(true, got + [reply]) == Due(true, got) + [Framed(reply)]
  {
    assert (got + [reply])[..|got|] == got;
  }

  // ---------------------------------------------------------------- the target

  ghost predicate Untouched(s: Session, got: seq<bytes>) {
    && s.connects == [] && s.written == [] && s.inner.udpTarget.None?
    && s.sent == [] && s.udp.queries == [] && got == []
  }

  /** Exactly one target is dialled, the one of the header, on the way its UUID stands for. */
  ghost predicate Dialled(env: Env, s: Session) {
    && s.inner.udpTarget.None?
    && match V.Parse(s.pts, env.outside)
       case None => false
       case Some(p) => p.req.command.Tcp? && s.connects == [Dial(p.req, p.egress)]
  }

  /** Packets go to the target of the header, and nothing is dialled or written. */
  ghost predicate Directed(env: Env, s: Session) {
    && s.connects == [] && s.written == []
    && match V.Parse(s.pts, env.outside)
       case None => false
       case Some(p) => p.req.command.Udp? && s.inner.udpTarget == Some(p.req)
  }

  /** The header asks for packets to go to this target. */
  ghost predicate Asks(env: Env, s: Session, req: V.VlessRequest) {
    V.Parse(s.pts, env.outside).Some? && V.Parse(s.pts, env.outside).value.req == req && req.command.Udp?
  }

  /** The number of seals, where there are any: three for the handshake, then one for each
      message that goes down. */
  ghost predicate Sealing(env: Env, s: Session, n: nat) {
    !env.plaintext ==> |s.seals| == 3 + n
  }

  /** Everything due has gone down; the download loop may have sealed more. */
  ghost predicate Tunnelled(env: Env, s: Session, got: seq<bytes>) {
    && Dialled(env, s) && |got| == 1 && s.sent == Due(false, got)
    && (!env.plaintext ==> |s.seals| >= 3 + |s.sent|)
  }

  /** Every query has ended, and every reply has gone down. */
  ghost predicate Replied(env: Env, s: Session, got: seq<bytes>) {
    && Directed(env, s) && |got| == |s.udp.queries| && s.sent == Due(true, got)
    && Sealing(env, s, |s.sent|)
  }

  ghost predicate Known(env: Env, s: Session, got: seq<bytes>) {
    || Untouched(s, got)
    || (Dialled(env, s) && s.sent <= Due(false, got))
    || (Directed(env, s) && s.sent <= Due(true, got))
  }

  ghost predicate PhaseFits(env: Env, s: Session, got: seq<bytes>) {
    match s.inner.phase
    case Closed => Known(env, s, got)
    case Handshake => Untouched(s, got) && s.seals == []
    case PlainHeader | Header => Untouched(s, got) && Sealing(env, s, 0)
    case PlainData | Data => Tunnelled(env, s, got)
    case PlainUdp | Udp => Replied(env, s, got)
  }

  ghost predicate Fits(env: Env, s: Session, purpose: Purpose, got: seq<bytes>) {
    match purpose
    case ForHeader => Untouched(s, got) && Sealing(env, s, 0)
    case ForData => Tunnelled(env, s, got)
    case ForUdp => Replied(env, s, got)
  }

  ghost predicate Course(env: Env, s: Session, got: seq<bytes>) {
    match s.pc
    case Idle => PhaseFits(env, s, got)
    case ImportKeys(_, _) => Untouched(s, got) && Sealing(env, s, 0)
    case OpenRecord(purpose, _, _) => Fits(env, s, purpose, got)
    case ConnectTarget(_) => Dialled(env, s) && Sealing(env, s, 0) && s.sent == [] && got == []
    case WriteInitial(leftover) => Dialled(env, s) && Sealing(env, s, 0) && s.sent == [] && got == [leftover]
    case SealResponse(leftover, _) => Dialled(env, s) && Sealing(env, s, 1) && s.sent == [] && got == [leftover]
    case SealLeftover(leftover, _) =>
      && Dialled(env, s) && Sealing(env, s, 2) && s.sent == [V.VLESS_RESPONSE]
      && |leftover| > 0 && got == [leftover]
    case WriteData => Tunnelled(env, s, got)
    case SealUdpResponse(req, _, _) => Untouched(s, got) && Sealing(env, s, 1) && Asks(env, s, req)
    case QueryUdp(_, _) =>
      && Directed(env, s) && |got| + 1 == |s.udp.queries| && s.sent == Due(true, got)
      && Sealing(env, s, |s.sent|)
    case SealUdpReply(reply, _, _, _) =>
      && Directed(env, s) && |got| == |s.udp.queries| && s.sent + [Framed(reply)] == Due(true, got)
      && Sealing(env, s, |s.sent| + 1)
  }

  /** A session that gave up had a reason. */
  ghost predicate Fair(env: Env, s: Session) {
    s.inner.phase.Closed? ==> s.pc.Idle? && Judge(env, s.rx).Bad?
  }

  /** A section that began in `s` and ended in `t`. */
  ghost predicate Onward(env: Env, s: Session, t: Session, got: seq<bytes>) {
    Course(env, t, got) && (!s.inner.phase.Closed? ==> Fair(env, t))
  }

  // ---------------------------------------------------------------- reasons to give up

  /** The records before the window settle the judgement when they are bad already. */
  lemma SealedBad(env: Env, s: Session, recs: seq<Rec>, rest: bytes)
    requires !env.plaintext && s.inner.keys.Some?
    requires HelloEnd(env, s.rx) <= |s.rx| && HelloIs(env, s.rx, HelloEnd(env, s.rx), s.inner.keys.value)
    requires s.rx[HelloEnd(env, s.rx)..] == WireAll(recs) + rest && AllWellFormed(recs)
    requires var plain := OpenAll(env, s.inner.keys.value.r, recs);
             plain.Some? ==> V.TryHeader(plain.value, env.outside).Rejected? || PeekRecord(rest).Malformed?
    ensures Judge(env, s.rx).Bad?
  {
    var key := s.inner.keys.value.r;
    if PeekRecord(rest).Malformed? {
      DeframeWire(recs, rest);
      DeframeNone(rest);
      NilRight(recs);
      if OpenAll(env, key, recs).None? { assert JudgeRecords(env, key, WireAll(recs) + rest).Bad?; }
    } else {
      DeframeWire(recs, []);
      DeframeNone([]);
      NilRight(recs);
      NilRight(WireAll(recs));
      BadRecordsStay(env, key, WireAll(recs), rest);
    }
  }

  lemma MalformedIsBad(env: Env, s: Session)
    requires !env.plaintext && Settled(env, s) && PeekRecord(Window(s.inner)).Malformed?
    ensures Judge(env, s.rx).Bad?
  {
    NilLeft(Window(s.inner));
    SealedBad(env, s, s.recs, Window(s.inner));
  }

  lemma RejectedIsBad(env: Env, s: Session)
    requires !env.plaintext && Settled(env, s) && V.TryHeader(s.pts, env.outside).Rejected?
    ensures Judge(env, s.rx).Bad?
  {
    NilLeft(Window(s.inner));
    SealedBad(env, s, s.recs, Window(s.inner));
  }

  lemma UnopenedIsBad(env: Env, s: Session)
    requires Inv(env, s) && s.pc.OpenRecord?
    requires env.open(s.inner.keys.value.r, s.pc.nonce, s.pc.rec.hdr, s.pc.rec.body).None?
    ensures Judge(env, s.rx).Bad?
  {
    var rec := s.pc.rec;
    assert (s.recs + [rec])[..|s.recs|] == s.recs;
    Consumed(s.recs, rec, Window(s.inner));
    SealedBad(env, s, s.recs + [rec], Window(s.inner));
  }

  // ---------------------------------------------------------------- record and chunk loops

  lemma DoneOn(env: Env, s: Session, got: seq<bytes>)
    requires PhaseFits(env, s, got)
    ensures Onward(env, s, DriveDone(s), got)
  {
  }

  lemma FailOn(env: Env, s: Session, got: seq<bytes>)
    requires Known(env, s, got) && (!s.inner.phase.Closed? ==> Judge(env, s.rx).Bad?)
    ensures Onward(env, s, Fail(s), got)
  {
  }

  lemma NextRecordOn(env: Env, s: Session, purpose: Purpose, got: seq<bytes>)
    requires ReadyFor(env, s, purpose) && Fits(env, s, purpose, got)
    ensures Onward(env, s, NextRecord(s, purpose), got)
  {
    match PeekRecord(Window(s.inner))
    case Malformed =>
      MalformedIsBad(env, s);
      FailOn(env, s, got);
    case Incomplete => DoneOn(env, s, got);
    case Ready(_) =>
  }

  /** More plaintext behind the header changes nothing about the target. */
  lemma TargetStays(env: Env, s: Session, t: Session, more: bytes)
    requires t.pts == s.pts + more && t.connects == s.connects && t.inner.udpTarget == s.inner.udpTarget
    ensures Dialled(env, s) ==> Dialled(env, t)
    ensures Directed(env, s) && t.written == s.written ==> Directed(env, t)
  {
    if V.Parse(s.pts, env.outside).Some? {
      V.ParseStable(s.pts, more, env.outside);
    }
  }

  lemma NextChunkOn(env: Env, s: Session, got: seq<bytes>)
    requires env.plaintext && Fits(env, s, ForData, got) && InData(env, s)
    ensures Onward(env, s, NextChunk(s), got)
  {
    if |Window(s.inner)| == 0 {
      DoneOn(env, s, got);
    } else {
      TargetStays(env, s, TakeAll(s), Window(s.inner));
    }
  }

  // ---------------------------------------------------------------- datagrams

  lemma HandleUdpOn(env: Env, s: Session, p: bytes, fromInitial: bool, got: seq<bytes>)
    requires s.inner.pumping && Datagrams(env, s) && Fits(env, s, ForUdp, got)
    ensures Onward(env, s, HandleUdp(env, s, p, fromInitial), got)
    decreases |s.inner.buf| - s.inner.pos, 2
  {
    if |p| < 2 || |p| < 2 + H.DecodeLength(p) {
      AfterUdpOn(env, s, fromInitial, got);
    }
  }

  lemma AfterUdpOn(env: Env, s: Session, fromInitial: bool, got: seq<bytes>)
    requires s.inner.pumping && Datagrams(env, s) && Fits(env, s, ForUdp, got)
    ensures Onward(env, s, AfterUdp(env, s, fromInitial), got)
    decreases |s.inner.buf| - s.inner.pos, 1
  {
    if !env.plaintext {
      if fromInitial && !s.inner.phase.Udp? { DoneOn(env, s, got); } else { NextRecordOn(env, s, ForUdp, got); }
    } else {
      if fromInitial && !s.inner.phase.PlainUdp? { DoneOn(env, s, got); } else { NextPacketOn(env, s, got); }
    }
  }

  lemma NextPacketOn(env: Env, s: Session, got: seq<bytes>)
    requires env.plaintext && s.inner.pumping && Datagrams(env, s) && Fits(env, s, ForUdp, got)
    ensures Onward(env, s, NextPacket(env, s), got)
    decreases |s.inner.buf| - s.inner.pos, 0
  {
    var w := Window(s.inner);
    if |w| == 0 {
      DoneOn(env, s, got);
    } else {
      TakeAllSettled(env, s);
      TargetStays(env, s, Taken(TakeAll(s), w), w);
      HandleUdpOn(env, Taken(TakeAll(s), w), w, false, got);
    }
  }

  // ---------------------------------------------------------------- establish

  lemma DriveFlowingOn(env: Env, s: Session, got: seq<bytes>)
    requires s.inner.pumping && Flowing(env, s) && !s.inner.phase.Closed? && Fits(env, s, ForData, got)
    ensures Onward(env, s, DriveData(env, s), got)
  {
    if env.plaintext { NextChunkOn(env, s, got); } else { NextRecordOn(env, s, ForData, got); }
  }

  lemma DriveDatagramsOn(env: Env, s: Session, got: seq<bytes>)
    requires s.inner.pumping && Datagrams(env, s) && !s.inner.phase.Closed? && Fits(env, s, ForUdp, got)
    ensures Onward(env, s, DriveData(env, s), got)
  {
    if env.plaintext { NextPacketOn(env, s, got); } else { NextRecordOn(env, s, ForUdp, got); }
  }

  lemma TcpOn(env: Env, s: Session, counter: Option<Counter>, got: seq<bytes>)
    requires s.inner.pumping && Settled(env, s) && Delivered(env, s)
    requires DownloadOwns(env, s.(download := counter)) && Tunnelled(env, s, got)
    ensures Onward(env, s, TcpEstablished(env, s, counter), got)
  {
    var phase := if env.plaintext then PlainData else Data;
    var s' := s.(download := counter, inner := s.inner.(writer := true, phase := phase));
    assert Window(s'.inner) == Window(s.inner);
    DriveFlowingOn(env, s', got);
  }

  lemma UdpOn(env: Env, s: Session, req: V.VlessRequest, initial: bytes, got: seq<bytes>)
    requires s.inner.pumping && Settled(env, s) && s.written == [] && PumpOwns(env, s)
    requires Untouched(s, got) && Sealing(env, s, 1) && Asks(env, s, req)
    ensures Onward(env, s, UdpEstablished(env, s, req, initial), got)
  {
    var phase := if env.plaintext then PlainUdp else Udp;
    var ready := Sending(s, V.VLESS_RESPONSE).(inner := s.inner.(udpTarget := Some(req), phase := phase));
    assert Window(ready.inner) == Window(s.inner);
    if |initial| > 0 {
      HandleUdpOn(env, Taken(ready, initial), initial, true, got);
    } else {
      DriveDatagramsOn(env, ready, got);
    }
  }

  /** The parser refuses the third command itself. */
  lemma NoMux(buf: bytes, out: V.Outside)
    requires V.Parse(buf, out).Some?
    ensures !V.Parse(buf, out).value.req.command.Mux?
  {
  }

  lemma EstablishOn(env: Env, s: Session, p: V.Parsed, got: seq<bytes>)
    requires s.inner.pumping && Settled(env, s) && s.written == [] && PumpOwns(env, s)
    requires V.Parse(s.pts, env.outside) == Some(p) && Fits(env, s, ForHeader, got)
    ensures Onward(env, s, Establish(env, s, p, s.pts[p.consumed..]), got)
  {
    NoMux(s.pts, env.outside);
    if p.req.command.Udp? && env.plaintext {
      UdpOn(env, s, p.req, s.pts[p.consumed..], got);
    }
  }

  // ---------------------------------------------------------------- drive

  lemma HandshakeOn(env: Env, s: Session, got: seq<bytes>)
    requires s.inner.phase.Handshake? && AwaitsHello(env, s) && Untouched(s, got)
    ensures Onward(env, s, DriveHandshake(env, s), got)
  {
  }

  lemma PlainAcceptedOn(env: Env, s: Session, p: V.Parsed, got: seq<bytes>)
    requires AwaitsPlainHeader(env, s) && s.inner.pumping && Untouched(s, got)
    requires V.Parse(Window(s.inner), env.outside) == Some(p)
    ensures
      var s' := s.(inner := s.inner.(buf := [], pos := 0), pts := Window(s.inner));
      Onward(env, s, Establish(env, s', p, Window(s.inner)[p.consumed..]), got)
  {
    var s' := s.(inner := s.inner.(buf := [], pos := 0), pts := Window(s.inner));
    NilLeft(Window(s.inner));
    NilRight(s.rx);
    EstablishOn(env, s', p, got);
  }

  lemma PlainHeaderOn(env: Env, s: Session, got: seq<bytes>)
    requires AwaitsPlainHeader(env, s) && s.inner.pumping && Untouched(s, got)
    ensures Onward(env, s, DrivePlainHeader(env, s), got)
  {
    NilLeft(Window(s.inner));
    match V.TryHeader(Window(s.inner), env.outside)
    case More => DoneOn(env, s, got);
    case Rejected => FailOn(env, s, got);
    case Accepted(p, _) => PlainAcceptedOn(env, s, p, got);
  }

  lemma DriveOn(env: Env, s: Session, got: seq<bytes>)
    requires s.inner.pumping && s.pc.Idle? && PhaseFits(env, s, got)
    requires match s.inner.phase
             case Closed => false
             case Handshake => AwaitsHello(env, s)
             case Header => ReadyFor(env, s, ForHeader)
             case PlainHeader => AwaitsPlainHeader(env, s)
             case Data => !env.plaintext && Flowing(env, s)
             case PlainData => env.plaintext && Flowing(env, s)
             case Udp => !env.plaintext && Datagrams(env, s)
             case PlainUdp => env.plaintext && Datagrams(env, s)
    ensures Onward(env, s, Drive(env, s), got)
  {
    match s.inner.phase
    case Handshake => HandshakeOn(env, s, got);
    case Header => NextRecordOn(env, s, ForHeader, got);
    case PlainHeader => PlainHeaderOn(env, s, got);
    case Data => DriveFlowingOn(env, s, got);
    case PlainData => DriveFlowingOn(env, s, got);
    case Udp => DriveDatagramsOn(env, s, got);
    case PlainUdp => DriveDatagramsOn(env, s, got);
  }

  // ---------------------------------------------------------------- resumption

  lemma KeysOn(env: Env, s: Session, reply: bytes, got: seq<bytes>)
    requires Inv(env, s) && Course(env, s, got) && s.pc.ImportKeys?
    ensures Onward(env, s, Continue(env, s, reply), got)
  {
    var s' := WithKeys(s, s.pc.leftover, s.pc.keys);
    NilLeft(s.pc.leftover + s.inner.buf);
    assert Window(s'.inner) == s.pc.leftover + s.inner.buf;
    NextRecordOn(env, s', ForHeader, got);
  }

  lemma HeaderTriedOn(env: Env, s: Session, got: seq<bytes>)
    requires !env.plaintext && s.inner.pumping && Settled(env, s) && s.written == []
    requires PumpOwns(env, s) && InHeader(env, s) && s.inner.acc == s.pts && Fits(env, s, ForHeader, got)
    ensures Onward(env, s, HeaderTried(env, s), got)
  {
    match V.TryHeader(s.pts, env.outside)
    case More => NextRecordOn(env, s, ForHeader, got);
    case Rejected =>
      RejectedIsBad(env, s);
      FailOn(env, s, got);
    case Accepted(p, _) => AcceptedOn(env, s, p, got);
  }

  lemma AcceptedOn(env: Env, s: Session, p: V.Parsed, got: seq<bytes>)
    requires !env.plaintext && s.inner.pumping && Settled(env, s) && s.written == []
    requires PumpOwns(env, s) && V.Parse(s.pts, env.outside) == Some(p) && Fits(env, s, ForHeader, got)
    ensures Onward(env, s, Establish(env, s.(inner := s.inner.(acc := [])), p, s.pts[p.consumed..]), got)
  {
    var s' := s.(inner := s.inner.(acc := []));
    assert Window(s'.inner) == Window(s.inner);
    EstablishOn(env, s', p, got);
  }

  lemma OpenedOn(env: Env, s: Session, pt: bytes, got: seq<bytes>)
    requires Inv(env, s) && Course(env, s, got) && s.pc.OpenRecord?
    requires env.open(s.inner.keys.value.r, s.pc.nonce, s.pc.rec.hdr, s.pc.rec.body) == Some(pt)
    ensures Onward(env, s, RecordOpened(env, s, s.pc.purpose, s.pc.rec, pt), got)
  {
    OpenedSettled(env, s, pt);
    var s' := s.(recs := s.recs + [s.pc.rec], pts := s.pts + pt);
    TargetStays(env, s, s', pt);
    match s.pc.purpose
    case ForData =>
    case ForUdp => HandleUdpOn(env, Taken(s', pt), pt, false, got);
    case ForHeader => HeaderTriedOn(env, s'.(inner := s.inner.(acc := s.inner.acc + pt)), got);
  }

  lemma RecordOn(env: Env, s: Session, reply: bytes, got: seq<bytes>)
    requires Inv(env, s) && Course(env, s, got) && s.pc.OpenRecord?
    ensures Onward(env, s, Continue(env, s, reply), got)
  {
    var opening := env.open(s.inner.keys.value.r, s.pc.nonce, s.pc.rec.hdr, s.pc.rec.body);
    if opening.None? {
      UnopenedIsBad(env, s);
      FailOn(env, s, got);
    } else {
      OpenedOn(env, s, opening.value, got);
    }
  }

  lemma WrittenOn(env: Env, s: Session, leftover: bytes, got: seq<bytes>)
    requires s.inner.pumping && Settled(env, s) && Delivered(env, s) && PumpOwns(env, s)
    requires Dialled(env, s) && Sealing(env, s, 0) && s.sent == [] && got == [leftover]
    ensures Onward(env, s, InitialWritten(env, s, leftover), got)
  {
    if env.plaintext {
      TcpOn(env, HeadSent(s, leftover), None, got);
    }
  }

  lemma ConnectedOn(env: Env, s: Session, reply: bytes, got: seq<bytes>)
    requires Inv(env, s) && Course(env, s, got) && (s.pc.ConnectTarget? || s.pc.WriteInitial?)
    ensures Onward(env, s, Continue(env, s, reply), if s.pc.ConnectTarget? then [reply] else got)
  {
    if s.pc.WriteInitial? {
      WrittenOn(env, s, s.pc.leftover, got);
    } else if |s.pc.initial| == 0 {
      WrittenOn(env, s, reply, [reply]);
    }
  }

  lemma ResponseOn(env: Env, s: Session, reply: bytes, got: seq<bytes>)
    requires Inv(env, s) && Course(env, s, got) && (s.pc.SealResponse? || s.pc.SealLeftover?)
    ensures Onward(env, s, Continue(env, s, reply), got)
  {
    if s.pc.SealLeftover? {
      TcpOn(env, Sending(s, s.pc.leftover), Some(s.pc.nonceW), got);
    } else if |s.pc.leftover| == 0 {
      TcpOn(env, Sending(s, V.VLESS_RESPONSE), Some(s.pc.nonceW), got);
    }
  }

  lemma UdpSealOn(env: Env, s: Session, reply: bytes, got: seq<bytes>)
    requires Inv(env, s) && Course(env, s, got) && (s.pc.SealUdpResponse? || s.pc.SealUdpReply?)
    ensures Onward(env, s, Continue(env, s, reply), got)
  {
    CounterReturns(env, s, s.pc.nonceW);
    var s' := s.(inner := s.inner.(nonceW := s.pc.nonceW));
    if s.pc.SealUdpReply? {
      HandleUdpOn(env, Sending(s', Framed(s.pc.reply)), s.pc.rest, s.pc.fromInitial, got);
    } else {
      UdpOn(env, s', s.pc.req, s.pc.initial, got);
    }
  }

  lemma DataOn(env: Env, s: Session, reply: bytes, got: seq<bytes>)
    requires Inv(env, s) && Course(env, s, got) && s.pc.WriteData?
    ensures Onward(env, s, Continue(env, s, reply), got)
  {
    WritingFlows(env, s);
    if env.plaintext { NextChunkOn(env, s, got); } else { NextRecordOn(env, s, ForData, got); }
  }

  lemma ContinueOn(env: Env, s: Session, reply: bytes, got: seq<bytes>)
    requires Inv(env, s) && Course(env, s, got) && !s.pc.Idle? && !s.pc.QueryUdp?
    ensures Onward(env, s, Continue(env, s, reply), if s.pc.ConnectTarget? then [reply] else got)
  {
    if s.pc.ImportKeys? {
      KeysOn(env, s, reply, got);
    } else if s.pc.OpenRecord? {
      RecordOn(env, s, reply, got);
    } else if s.pc.WriteData? {
      DataOn(env, s, reply, got);
    } else if s.pc.ConnectTarget? || s.pc.WriteInitial? {
      ConnectedOn(env, s, reply, got);
    } else if s.pc.SealResponse? || s.pc.SealLeftover? {
      ResponseOn(env, s, reply, got);
    } else {
      UdpSealOn(env, s, reply, got);
    }
  }

  // ---------------------------------------------------------------- every step

  /** What may not happen to a session that is to be served: a close, or an awaited operation
      that fails. A query may: it is only not answered. */
  ghost predicate Smooth(s: Session, e: Event) {
    match e
    case Close => false
    case Complete(o) => o.ok || s.pc.Idle? || s.pc.QueryUdp?
    case _ => true
  }

  ghost predicate Kept(env: Env, s: Session, e: Event, t: Session, got: seq<bytes>) {
    Course(env, t, got + Given(s, e)) && (Fair(env, s) && Smooth(s, e) ==> Fair(env, t))
  }

  lemma QueriedOn(env: Env, s: Session, o: Outcome, got: seq<bytes>)
    requires Inv(env, s) && Course(env, s, got) && s.pc.QueryUdp?
    ensures Onward(env, s, Resume(env, s, o), got + Given(s, Complete(o)))
  {
    var reply := if o.ok then o.bytes else [];
    RepliesSnoc(got, reply);
    if |reply| == 0 {
      HandleUdpOn(env, s, s.pc.rest, s.pc.fromInitial, got + [reply]);
    } else if s.inner.keys.None? {
      HandleUdpOn(env, Sending(s, Framed(reply)), s.pc.rest, s.pc.fromInitial, got + [reply]);
    }
  }

  lemma CourseKnown(env: Env, s: Session, got: seq<bytes>)
    requires Course(env, s, got)
    ensures Known(env, s, got)
  {
  }

  /** Most steps hand the pump nothing. */
  lemma NothingGiven(env: Env, s: Session, e: Event, t: Session, got: seq<bytes>)
    requires Given(s, e) == [] && Course(env, t, got) && (Fair(env, s) && Smooth(s, e) ==> Fair(env, t))
    ensures Kept(env, s, e, t, got)
  {
    NilRight(got);
  }

  lemma FailureOn(env: Env, s: Session, o: Outcome, got: seq<bytes>)
    requires Course(env, s, got) && !s.pc.Idle? && !s.pc.QueryUdp? && !o.ok
    ensures Kept(env, s, Complete(o), Fail(s), got)
  {
    CourseKnown(env, s, got);
    NothingGiven(env, s, Complete(o), Fail(s), got);
  }

  lemma SuccessOn(env: Env, s: Session, o: Outcome, got: seq<bytes>)
    requires Inv(env, s) && Course(env, s, got) && !s.pc.Idle? && !s.pc.QueryUdp? && o.ok
    ensures Kept(env, s, Complete(o), Continue(env, s, o.bytes), got)
  {
    ContinueOn(env, s, o.bytes, got);
    if s.pc.ConnectTarget? {
      NilLeft([o.bytes]);
    } else {
      NothingGiven(env, s, Complete(o), Continue(env, s, o.bytes), got);
    }
  }

  lemma ResumeOn(env: Env, s: Session, o: Outcome, got: seq<bytes>)
    requires Inv(env, s) && Course(env, s, got)
    ensures Kept(env, s, Complete(o), Resume(env, s, o), got)
  {
    if s.pc.QueryUdp? {
      QueriedOn(env, s, o, got);
    } else if s.pc.Idle? {
      NothingGiven(env, s, Complete(o), s, got);
    } else if o.ok {
      SuccessOn(env, s, o, got);
    } else {
      FailureOn(env, s, o, got);
    }
  }

  lemma WakeOn(env: Env, s: Session, data: bytes, got: seq<bytes>)
    requires Inv(env, s) && Course(env, s, got) && s.pc.Idle? && !s.inner.phase.Closed?
    ensures Onward(env, s, Message(env, s, data), got)
  {
    var c := s.(inner := Compacted(s.inner));
    var s' := Appended(c, data).(inner := Appended(c, data).inner.(pumping := true));
    if s.inner.phase.Handshake? {
      assert Window(s.inner) == s.inner.buf;
    } else {
      CompactSettled(env, s);
      AppendSettled(env, c, data);
      assert Settled(env, s');
    }
    DriveOn(env, s', got);
  }

  lemma QueueOn(env: Env, s: Session, data: bytes, got: seq<bytes>)
    requires Course(env, s, got) && !s.pc.Idle?
    ensures Course(env, Appended(s, data), got)
  {
  }

  lemma MessageOn(env: Env, s: Session, data: bytes, got: seq<bytes>)
    requires Inv(env, s) && Course(env, s, got)
    ensures Kept(env, s, Frame(data), Message(env, s, data), got)
  {
    if !s.inner.phase.Closed? && s.pc.Idle? {
      WakeOn(env, s, data, got);
    } else if !s.inner.phase.Closed? && s.inner.pumping {
      QueueOn(env, s, data, got);
    }
    NothingGiven(env, s, Frame(data), Message(env, s, data), got);
  }

  lemma CloseOn(env: Env, s: Session, got: seq<bytes>)
    requires Course(env, s, got)
    ensures Course(env, Cleanup(s), got)
  {
    CourseKnown(env, s, got);
  }

  /** The download loop runs only behind a connect. */
  lemma Downloading(env: Env, s: Session)
    requires Inv(env, s) && s.download.Some?
    ensures s.pc.WriteData? || (s.pc.OpenRecord? && s.pc.purpose.ForData?)
         || (s.pc.Idle? && (s.inner.phase.Data? || s.inner.phase.Closed?))
  {
  }

  lemma DownloadOn(env: Env, s: Session, got: seq<bytes>)
    requires Inv(env, s) && Course(env, s, got)
    ensures Course(env, DownloadSeal(s), got)
  {
    if s.download.Some? {
      Downloading(env, s);
    }
  }

  lemma StepOn(env: Env, s: Session, e: Event, got: seq<bytes>)
    requires Inv(env, s) && Course(env, s, got)
    ensures Kept(env, s, e, Step(env, s, e), got)
  {
    match e
    case Frame(data) => MessageOn(env, s, data, got);
    case Text => NothingGiven(env, s, e, s, got);
    case Close =>
      CloseOn(env, s, got);
      NothingGiven(env, s, e, Cleanup(s), got);
    case Complete(o) => ResumeOn(env, s, o, got);
    case Download =>
      DownloadOn(env, s, got);
      NothingGiven(env, s, e, DownloadSeal(s), got);
  }

  // ---------------------------------------------------------------- whole runs

  /** No close falls, and no awaited operation but a query fails. */
  ghost predicate Undisturbed(env: Env, events: seq<Event>) {
    |events| > 0 ==>
      var front := events[..|events| - 1];
      Undisturbed(env, front) && Smooth(Run(env, front), events[|events| - 1])
  }

  /** What the awaits of a run handed the pump, in order. */
  function Gave(env: Env, events: seq<Event>): seq<bytes> {
    if |events| == 0 then []
    else
      var front := events[..|events| - 1];
      Gave(env, front) + Given(Run(env, front), events[|events| - 1])
  }

  lemma {:induction false} RunOn(env: Env, events: seq<Event>)
    ensures Course(env, Run(env, events), Gave(env, events))
    ensures Undisturbed(env, events) ==> Fair(env, Run(env, events))
  {
    if |events| > 0 {
      var front := events[..|events| - 1];
      RunKeeps(env, front);
      RunOn(env, front);
      StepOn(env, Run(env, front), events[|events| - 1], Gave(env, front));
    }
  }

  /** Whatever happens, at most one target is ever dialled, it is that of the header, nothing is
      written before, and what goes down is in the order it is due, once each. */
  lemma OneTarget(env: Env, events: seq<Event>)
    ensures
      var s := Run(env, events);
      || (s.connects == [] && s.written == [] && s.sent <= Due(true, Gave(env, events)))
      || match V.Parse(Stream(env, s.rx), env.outside)
         case None => false
         case Some(p) =>
           && p.req.command.Tcp? && s.connects == [Dial(p.req, p.egress)]
           && s.sent <= Due(false, Gave(env, events))
  {
    var s := Run(env, events);
    RunKeeps(env, events);
    RunOn(env, events);
    CourseKnown(env, s, Gave(env, events));
    Upstream(env, s);
    RemainsStream(env, s);
    if s.connects != [] {
      PrefixSplit(s.pts, Stream(env, s.rx));
      V.ParseStable(s.pts, Stream(env, s.rx)[|s.pts|..], env.outside);
    }
  }
}
