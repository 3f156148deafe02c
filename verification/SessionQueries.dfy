/** What a session asks over UDP: the packets of the plaintext behind the header, taken apart
    buffer by buffer (`handle_udp_frames` in `relay/src/session.rs`), over every run. */
module SessionQueries {
  import opened Bytes
  import opened Nonce
  import opened Records
  import opened Inbound
  import opened Session
  import opened Payload
  import opened SessionInvariant
  import opened SessionSafety
  import opened SessionClaims
  import H = Handshake
  import V = Vless

  // ---------------------------------------------------------------- packets

  /** The complete packets of a buffer, each behind its length; a partial one at the end has
      no meaning. */
  function Packets(p: bytes): seq<bytes> {
    if |p| < 2 || |p| < 2 + H.DecodeLength(p) then []
    else [p[2..2 + H.DecodeLength(p)]] + Packets(p[2 + H.DecodeLength(p)..])
  }

  function AllPackets(buffers: seq<bytes>): seq<bytes> {
    if |buffers| == 0 then [] else AllPackets(buffers[..|buffers| - 1]) + Packets(buffers[|buffers| - 1])
  }

  function FramedAll(packets: seq<bytes>): bytes
    decreases |packets|
  {
    if |packets| == 0 then [] else Framed(packets[0]) + FramedAll(packets[1..])
  }

  /** Taking apart inverts framing, whatever partial packet follows. */
  lemma {:induction false} PacketsOfFramed(packets: seq<bytes>, rest: bytes)
    requires forall i :: 0 <= i < |packets| ==> |packets[i]| < 0x1_0000
    requires |rest| < 2 || |rest| < 2 + H.DecodeLength(rest)
    ensures Packets(FramedAll(packets) + rest) == packets
    decreases |packets|
  {
    if |packets| == 0 {
      NilLeft(rest);
    } else {
      var packet, more := packets[0], FramedAll(packets[1..]) + rest;
      var p := FramedAll(packets) + rest;
      Assoc(Framed(packet), FramedAll(packets[1..]), rest);
      assert p == Framed(packet) + more;
      assert H.DecodeLength(p) == |packet|;
      assert p[2..2 + |packet|] == packet && p[2 + |packet|..] == more;
      PacketsOfFramed(packets[1..], rest);
      HeadTail(packets);
    }
  }

  // ---------------------------------------------------------------- what every step keeps

  /** The queries made and those of `rest` still to make are the packets of the buffers. */
  ghost predicate Pending(s: Session, rest: bytes) {
    s.udp.queries + Packets(rest) == AllPackets(s.udp.buffers)
  }

  /** The buffers are the plaintext behind the header. */
  ghost predicate Behind(env: Env, pts: bytes, initial: bytes) {
    V.Parse(pts, env.outside).Some? && initial == pts[V.Parse(pts, env.outside).value.consumed..]
  }

  ghost predicate Source(env: Env, s: Session) {
    if s.inner.udpTarget.Some? then Behind(env, s.pts, Concat(s.udp.buffers)) else s.udp == UdpLog([], [])
  }

  predicate UdpPhase(p: Phase) {
    p.Udp? || p.PlainUdp?
  }

  /** No packet is lost or asked twice; only a session that has ended may leave some unasked. */
  ghost predicate Asked(env: Env, s: Session) {
    && Source(env, s)
    && match s.pc
       case QueryUdp(rest, _) => s.inner.udpTarget.Some? && Pending(s, rest)
       case SealUdpReply(_, rest, _, _) => s.inner.udpTarget.Some? && Pending(s, rest)
       case SealUdpResponse(_, initial, _) => s.inner.udpTarget.None? && Behind(env, s.pts, initial)
       case OpenRecord(ForUdp, _, _) => s.inner.udpTarget.Some? && Pending(s, [])
       case Idle =>
         if s.inner.phase.Closed? then s.udp.queries <= AllPackets(s.udp.buffers)
         else Pending(s, []) && (s.inner.udpTarget.Some? ==> UdpPhase(s.inner.phase))
       case _ => s.inner.udpTarget.None?
  }

  lemma PendingPrefix(s: Session, rest: bytes)
    requires Pending(s, rest)
    ensures s.udp.queries <= AllPackets(s.udp.buffers)
  {
  }

  lemma SourcePending(env: Env, s: Session)
    requires Source(env, s) && s.inner.udpTarget.None?
    ensures Pending(s, [])
  {
  }

  lemma FailAsked(env: Env, s: Session)
    requires Source(env, s) && s.udp.queries <= AllPackets(s.udp.buffers)
    ensures Asked(env, Fail(s))
  {
  }

  /** Between two buffers. */
  ghost predicate Between(env: Env, s: Session) {
    Source(env, s) && Pending(s, [])
  }

  lemma DoneAsked(env: Env, s: Session)
    requires Between(env, s) && (s.inner.udpTarget.Some? ==> UdpPhase(s.inner.phase) || s.inner.phase.Closed?)
    ensures Asked(env, DriveDone(s))
  {
    PendingPrefix(s, []);
  }

  /** The purpose of a record goes with the kind of the session. */
  ghost predicate Fitting(s: Session, purpose: Purpose) {
    if purpose.ForUdp? then s.inner.udpTarget.Some? && (UdpPhase(s.inner.phase) || s.inner.phase.Closed?)
    else s.inner.udpTarget.None?
  }

  lemma NextRecordAsked(env: Env, s: Session, purpose: Purpose)
    requires Between(env, s) && Fitting(s, purpose)
    ensures Asked(env, NextRecord(s, purpose))
  {
    match PeekRecord(Window(s.inner))
    case Malformed =>
      PendingPrefix(s, []);
      FailAsked(env, s);
    case Incomplete => DoneAsked(env, s);
    case Ready(_) =>
  }

  lemma NextChunkAsked(env: Env, s: Session)
    requires Source(env, s) && s.inner.udpTarget.None?
    ensures Asked(env, NextChunk(s))
  {
    SourcePending(env, s);
    if |Window(s.inner)| == 0 {
      DoneAsked(env, s);
    }
  }

  /** A buffer of more plaintext goes to the packets. */
  lemma TakenAsked(env: Env, s: Session, s': Session, buffer: bytes)
    requires Between(env, s) && s.inner.udpTarget.Some? && s'.inner.udpTarget == s.inner.udpTarget
    requires s'.pts == s.pts + buffer && s'.udp == s.udp
    ensures Source(env, Taken(s', buffer)) && Pending(Taken(s', buffer), buffer)
  {
    DeliveredGrows(env, s.pts, buffer);
    ConcatSnoc(s.udp.buffers, buffer);
    TakenPending(s, Taken(s', buffer), buffer);
  }

  lemma TakenPending(s: Session, s': Session, buffer: bytes)
    requires Pending(s, []) && s'.udp == UdpLog(s.udp.buffers + [buffer], s.udp.queries)
    ensures Pending(s', buffer)
  {
    assert (s.udp.buffers + [buffer])[..|s.udp.buffers|] == s.udp.buffers;
    NilRight(s.udp.queries);
  }

  lemma AskingPending(s: Session, p: bytes, fromInitial: bool)
    requires |p| >= 2 && |p| >= 2 + H.DecodeLength(p) && Pending(s, p)
    ensures
      var rest := p[2 + H.DecodeLength(p)..];
      Pending(Asking(s, p[2..2 + H.DecodeLength(p)], rest, fromInitial), rest)
  {
    var packet, rest := p[2..2 + H.DecodeLength(p)], p[2 + H.DecodeLength(p)..];
    Assoc(s.udp.queries, [packet], Packets(rest));
  }

  /** In the middle of a buffer. */
  ghost predicate Partway(env: Env, s: Session, p: bytes) {
    && Source(env, s) && Pending(s, p) && s.inner.udpTarget.Some?
    && (UdpPhase(s.inner.phase) || s.inner.phase.Closed?)
  }

  lemma HandleUdpAsked(env: Env, s: Session, p: bytes, fromInitial: bool)
    requires Partway(env, s, p)
    ensures Asked(env, HandleUdp(env, s, p, fromInitial))
    decreases |s.inner.buf| - s.inner.pos, 2
  {
    if |p| < 2 || |p| < 2 + H.DecodeLength(p) {
      AfterUdpAsked(env, s, fromInitial);
    } else {
      AskingPending(s, p, fromInitial);
    }
  }

  lemma AfterUdpAsked(env: Env, s: Session, fromInitial: bool)
    requires Partway(env, s, [])
    ensures Asked(env, AfterUdp(env, s, fromInitial))
    decreases |s.inner.buf| - s.inner.pos, 1
  {
    if !env.plaintext {
      if fromInitial && !s.inner.phase.Udp? {
        DoneAsked(env, s);
      } else {
        NextRecordAsked(env, s, ForUdp);
      }
    } else if fromInitial && !s.inner.phase.PlainUdp? {
      DoneAsked(env, s);
    } else {
      NextPacketAsked(env, s);
    }
  }

  lemma NextPacketAsked(env: Env, s: Session)
    requires Partway(env, s, [])
    ensures Asked(env, NextPacket(env, s))
    decreases |s.inner.buf| - s.inner.pos, 0
  {
    var w := Window(s.inner);
    if |w| == 0 {
      DoneAsked(env, s);
    } else {
      TakenAsked(env, s, TakeAll(s), w);
      HandleUdpAsked(env, Taken(TakeAll(s), w), w, false);
    }
  }

  /** The phase and the target agree. */
  ghost predicate Agreeing(s: Session) {
    s.inner.phase.Closed? || (s.inner.udpTarget.Some? <==> UdpPhase(s.inner.phase))
  }

  lemma DriveDataAsked(env: Env, s: Session)
    requires Between(env, s) && Agreeing(s)
    ensures Asked(env, DriveData(env, s))
  {
    PendingPrefix(s, []);
    match s.inner.phase
    case Data =>
      if s.inner.keys.Some? && s.inner.writer { NextRecordAsked(env, s, ForData); } else { FailAsked(env, s); }
    case Udp =>
      if s.inner.keys.Some? { NextRecordAsked(env, s, ForUdp); } else { FailAsked(env, s); }
    case PlainData =>
      if s.inner.writer { NextChunkAsked(env, s); } else { FailAsked(env, s); }
    case PlainUdp => NextPacketAsked(env, s);
    case _ => DoneAsked(env, s);
  }

  lemma TcpAsked(env: Env, s: Session, counter: Option<Counter>)
    requires Source(env, s) && s.inner.udpTarget.None?
    ensures Asked(env, TcpEstablished(env, s, counter))
  {
    var phase := if env.plaintext then PlainData else Data;
    var s' := s.(download := counter, inner := s.inner.(writer := true, phase := phase));
    SourcePending(env, s');
    DriveDataAsked(env, s');
  }

  lemma ConcatOne(part: bytes)
    ensures Concat([part]) == part
  {
    ConcatSnoc([], part);
    NilLeft([part]);
    NilLeft(part);
  }

  lemma FirstPending(s: Session, buffer: bytes)
    requires s.udp == UdpLog([], [])
    ensures Pending(Taken(s, buffer), buffer)
  {
    TakenPending(s, Taken(s, buffer), buffer);
  }

  lemma FirstTaken(env: Env, s: Session, buffer: bytes)
    requires s.udp == UdpLog([], []) && s.inner.udpTarget.Some? && Behind(env, s.pts, buffer)
    ensures Source(env, Taken(s, buffer)) && Pending(Taken(s, buffer), buffer)
  {
    NilLeft([buffer]);
    ConcatOne(buffer);
    FirstPending(s, buffer);
  }

  lemma UdpAsked(env: Env, s: Session, req: V.VlessRequest, initial: bytes)
    requires Source(env, s) && s.inner.udpTarget.None? && Behind(env, s.pts, initial)
    ensures Asked(env, UdpEstablished(env, s, req, initial))
  {
    var phase := if env.plaintext then PlainUdp else Udp;
    var ready := Sending(s, V.VLESS_RESPONSE).(inner := s.inner.(udpTarget := Some(req), phase := phase));
    if |initial| > 0 {
      FirstTaken(env, ready, initial);
      HandleUdpAsked(env, Taken(ready, initial), initial, true);
    } else {
      DriveDataAsked(env, ready);
    }
  }

  lemma EstablishAsked(env: Env, s: Session, p: V.Parsed, initial: bytes)
    requires Source(env, s) && s.inner.udpTarget.None? && Behind(env, s.pts, initial)
    ensures Asked(env, Establish(env, s, p, initial))
  {
    FailAsked(env, s);
    if p.req.command.Udp? && env.plaintext {
      UdpAsked(env, s, p.req, initial);
    }
  }

  // ---------------------------------------------------------------- waking and resuming

  lemma PlainHeaderAsked(env: Env, s: Session)
    requires Between(env, s) && s.inner.udpTarget.None?
    ensures Asked(env, DrivePlainHeader(env, s))
  {
    match V.TryHeader(Window(s.inner), env.outside)
    case More => DoneAsked(env, s);
    case Rejected => FailAsked(env, s);
    case Accepted(p, initial) =>
      EstablishAsked(env, s.(inner := s.inner.(buf := [], pos := 0), pts := Window(s.inner)), p, initial);
  }

  lemma HelloAsked(env: Env, s: Session)
    requires Between(env, s) && s.inner.udpTarget.None?
    ensures Asked(env, DriveHandshake(env, s))
  {
    DoneAsked(env, s);
    FailAsked(env, s.(inner := s.inner.(buf := [], pos := 0)));
  }

  lemma DriveAsked(env: Env, s: Session)
    requires Between(env, s) && Agreeing(s)
    ensures Asked(env, Drive(env, s))
  {
    FailAsked(env, s);
    match s.inner.phase
    case PlainHeader => PlainHeaderAsked(env, s);
    case Handshake => HelloAsked(env, s);
    case Header => NextRecordAsked(env, s, ForHeader);
    case _ => DriveDataAsked(env, s);
  }

  lemma MessageAsked(env: Env, s: Session, data: bytes)
    requires Inv(env, s) && Asked(env, s)
    ensures Asked(env, Message(env, s, data))
  {
    if !s.inner.phase.Closed? && s.pc.Idle? {
      var got := s.(rx := s.rx + data);
      DriveAsked(env, got.(inner := Compacted(s.inner).(buf := Window(s.inner) + data, pumping := true)));
    }
  }

  lemma HeaderTriedAsked(env: Env, s: Session)
    requires Source(env, s) && s.inner.udpTarget.None? && s.inner.acc == s.pts
    ensures Asked(env, HeaderTried(env, s))
  {
    SourcePending(env, s);
    match V.TryHeader(s.pts, env.outside)
    case More => NextRecordAsked(env, s, ForHeader);
    case Rejected => FailAsked(env, s);
    case Accepted(p, initial) => EstablishAsked(env, s.(inner := s.inner.(acc := [])), p, initial);
  }

  lemma HeaderAsked(env: Env, s: Session, pt: bytes)
    requires Inv(env, s) && Asked(env, s) && s.pc.OpenRecord? && s.pc.purpose.ForHeader?
    ensures Asked(env, RecordOpened(env, s, ForHeader, s.pc.rec, pt))
  {
    HeaderTriedAsked(env, s.(recs := s.recs + [s.pc.rec], pts := s.pts + pt, inner := s.inner.(acc := s.inner.acc + pt)));
  }

  lemma RecordAsked(env: Env, s: Session, pt: bytes)
    requires Inv(env, s) && Asked(env, s) && s.pc.OpenRecord?
    ensures Asked(env, RecordOpened(env, s, s.pc.purpose, s.pc.rec, pt))
  {
    var s' := s.(recs := s.recs + [s.pc.rec], pts := s.pts + pt);
    match s.pc.purpose
    case ForData =>
    case ForUdp =>
      TakenAsked(env, s, s', pt);
      HandleUdpAsked(env, Taken(s', pt), pt, false);
    case ForHeader => HeaderAsked(env, s, pt);
  }

  /** The pump can fail at every await. */
  lemma FailureAsked(env: Env, s: Session)
    requires Asked(env, s) && !s.pc.Idle?
    ensures Asked(env, Fail(s))
  {
    match s.pc
    case QueryUdp(rest, _) => PendingPrefix(s, rest);
    case SealUdpReply(_, rest, _, _) => PendingPrefix(s, rest);
    case OpenRecord(ForUdp, _, _) => PendingPrefix(s, []);
    case _ =>
  }

  lemma OpeningAsked(env: Env, s: Session, reply: bytes)
    requires Inv(env, s) && Asked(env, s) && s.pc.OpenRecord?
    ensures Asked(env, Continue(env, s, reply))
  {
    var opening := env.open(s.inner.keys.value.r, s.pc.nonce, s.pc.rec.hdr, s.pc.rec.body);
    if opening.Some? {
      RecordAsked(env, s, opening.value);
    } else {
      FailureAsked(env, s);
    }
  }

  lemma ReplyAsked(env: Env, s: Session, reply: bytes)
    requires Inv(env, s) && Asked(env, s) && (s.pc.SealUdpReply? || s.pc.SealUdpResponse?)
    ensures Asked(env, Continue(env, s, reply))
  {
    var s' := s.(inner := s.inner.(nonceW := s.pc.nonceW));
    if s.pc.SealUdpReply? {
      HandleUdpAsked(env, Sending(s', Framed(s.pc.reply)), s.pc.rest, s.pc.fromInitial);
    } else {
      UdpAsked(env, s', s.pc.req, s.pc.initial);
    }
  }

  predicate Streaming(pc: Pc) {
    pc.ImportKeys? || pc.ConnectTarget? || pc.WriteInitial? || pc.SealResponse? || pc.SealLeftover? || pc.WriteData?
  }

  /** Behind an await of a session that asks nothing. */
  lemma StreamAsked(env: Env, s: Session, reply: bytes)
    requires Asked(env, s) && Streaming(s.pc)
    ensures Asked(env, Continue(env, s, reply))
  {
    match s.pc
    case ImportKeys(leftover, keys) =>
      SourcePending(env, WithKeys(s, leftover, keys));
      NextRecordAsked(env, WithKeys(s, leftover, keys), ForHeader);
    case ConnectTarget(_) => TcpAsked(env, HeadSent(s, reply), None);
    case WriteInitial(leftover) => TcpAsked(env, HeadSent(s, leftover), None);
    case SealResponse(_, n) => TcpAsked(env, Sending(s, V.VLESS_RESPONSE), Some(n));
    case SealLeftover(leftover, n) => TcpAsked(env, Sending(s, leftover), Some(n));
    case WriteData =>
      SourcePending(env, s);
      if env.plaintext { NextChunkAsked(env, s); } else { NextRecordAsked(env, s, ForData); }
  }

  lemma ContinueAsked(env: Env, s: Session, reply: bytes)
    requires Inv(env, s) && Asked(env, s) && !s.pc.Idle? && !s.pc.QueryUdp?
    ensures Asked(env, Continue(env, s, reply))
  {
    if Streaming(s.pc) {
      StreamAsked(env, s, reply);
    } else if s.pc.OpenRecord? {
      OpeningAsked(env, s, reply);
    } else {
      ReplyAsked(env, s, reply);
    }
  }

  lemma QueriedAsked(env: Env, s: Session, o: Outcome)
    requires Inv(env, s) && Asked(env, s) && s.pc.QueryUdp?
    ensures Asked(env, Resume(env, s, o))
  {
    HandleUdpAsked(env, s, s.pc.rest, s.pc.fromInitial);
    HandleUdpAsked(env, Sending(s, Framed(o.bytes)), s.pc.rest, s.pc.fromInitial);
  }

  lemma ResumeAsked(env: Env, s: Session, o: Outcome)
    requires Inv(env, s) && Asked(env, s)
    ensures Asked(env, Resume(env, s, o))
  {
    if s.pc.Idle? {
      assert Resume(env, s, o) == s;
    } else if s.pc.QueryUdp? {
      QueriedAsked(env, s, o);
    } else if o.ok {
      ContinueAsked(env, s, o.bytes);
      assert Resume(env, s, o) == Continue(env, s, o.bytes);
    } else {
      FailureAsked(env, s);
      assert Resume(env, s, o) == Fail(s);
    }
  }

  lemma CleanupAsked(env: Env, s: Session)
    requires Asked(env, s)
    ensures Asked(env, Cleanup(s))
  {
    if s.pc.Idle? && !s.inner.phase.Closed? {
      PendingPrefix(s, []);
    }
  }

  lemma StepAsked(env: Env, s: Session, e: Event)
    requires Inv(env, s) && Asked(env, s)
    ensures Asked(env, Step(env, s, e))
  {
    match e
    case Frame(data) => MessageAsked(env, s, data);
    case Close => CleanupAsked(env, s);
    case Complete(o) => ResumeAsked(env, s, o);
    case _ =>
  }

  // ---------------------------------------------------------------- whole runs

  lemma {:induction false} RunAsked(env: Env, events: seq<Event>)
    ensures Asked(env, Run(env, events))
  {
    if |events| > 0 {
      var front := events[..|events| - 1];
      RunKeeps(env, front);
      RunAsked(env, front);
      StepAsked(env, Run(env, front), events[|events| - 1]);
    }
  }

  /** At every moment of every run the packets asked are, in order and once each, the first
      packets of the buffers taken so far, and these are the first bytes of the payload that
      the accepted bytes carry. */
  lemma QueriesInOrder(env: Env, events: seq<Event>)
    ensures
      var s := Run(env, events);
      s.udp.queries <= AllPackets(s.udp.buffers) && Concat(s.udp.buffers) <= Owed(env, s.rx)
  {
    var s := Run(env, events);
    RunKeeps(env, events);
    RunAsked(env, events);
    Upstream(env, s);
    if s.inner.udpTarget.Some? {
      var initial := s.pts[V.Parse(s.pts, env.outside).value.consumed..];
      RemainsOwed(env, s.(written := initial));
    }
    if !s.pc.Idle? {
      FailureAsked(env, s);
    } else if !s.inner.phase.Closed? {
      PendingPrefix(s, []);
    }
  }

  lemma UdpOwed(env: Env, s: Session)
    requires s.pc.Idle? && Asleep(env, s) && UdpPhase(s.inner.phase) && Source(env, s)
    ensures Concat(s.udp.buffers) == Owed(env, s.rx)
  {
    SettledOwed(env, s);
  }

  /** When a UDP session has no pump running, every packet of every buffer has been asked, and
      the buffers are all of the payload. */
  lemma QueriesComplete(env: Env, events: seq<Event>)
    requires !Run(env, events).inner.pumping && UdpPhase(Run(env, events).inner.phase)
    ensures
      var s := Run(env, events);
      s.udp.queries == AllPackets(s.udp.buffers) && Concat(s.udp.buffers) == Owed(env, s.rx)
  {
    var s := Run(env, events);
    RunKeeps(env, events);
    RunAsked(env, events);
    NilRight(s.udp.queries);
    UdpOwed(env, s);
  }
}
