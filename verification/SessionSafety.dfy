/** Every step of the session keeps the invariant, hence every run does. */
module SessionSafety {
  import opened Bytes
  import opened Nonce
  import opened Records
  import opened Inbound
  import opened Session
  import opened Payload
  import opened SessionInvariant
  import H = Handshake
  import V = Vless

  // ---------------------------------------------------------------- raw chunks

  lemma TakeAllSettled(env: Env, s: Session)
    requires env.plaintext && Settled(env, s)
    ensures Settled(env, TakeAll(s)) && Window(TakeAll(s).inner) == []
  {
    NilRight(s.pts + Window(s.inner));
  }

  /** A plaintext that grows by a chunk delivers exactly that chunk more. */
  lemma DeliveredGrows(env: Env, pts: bytes, more: bytes)
    requires V.Parse(pts, env.outside).Some?
    ensures V.Parse(pts + more, env.outside) == V.Parse(pts, env.outside)
    ensures (pts + more)[V.Parse(pts, env.outside).value.consumed..]
         == pts[V.Parse(pts, env.outside).value.consumed..] + more
  {
    V.ParseStable(pts, more, env.outside);
    TailAppend(pts, more, V.Parse(pts, env.outside).value.consumed);
  }

  lemma NextChunkKeeps(env: Env, s: Session)
    requires env.plaintext && s.inner.pumping && Flowing(env, s)
    ensures Inv(env, NextChunk(s))
  {
    if |Window(s.inner)| == 0 {
      CompactSettled(env, s);
      SettledRemains(env, s);
    } else {
      TakeAllSettled(env, s);
      DeliveredGrows(env, s.pts, Window(s.inner));
    }
  }

  // ---------------------------------------------------------------- datagrams

  lemma DatagramsDone(env: Env, s: Session)
    requires s.inner.pumping && Datagrams(env, s)
    requires s.inner.phase.Closed? || (env.plaintext && Window(s.inner) == [])
    ensures Inv(env, DriveDone(s))
  {
    if s.inner.phase.Closed? {
      ClosedKeeps(env, s);
    } else {
      CompactSettled(env, s);
    }
  }

  lemma HandleUdpKeeps(env: Env, s: Session, p: bytes, fromInitial: bool)
    requires s.inner.pumping && Datagrams(env, s)
    ensures Inv(env, HandleUdp(env, s, p, fromInitial))
    decreases |s.inner.buf| - s.inner.pos, 2
  {
    if |p| < 2 || |p| < 2 + H.DecodeLength(p) {
      AfterUdpKeeps(env, s, fromInitial);
    }
  }

  lemma AfterUdpKeeps(env: Env, s: Session, fromInitial: bool)
    requires s.inner.pumping && Datagrams(env, s)
    ensures Inv(env, AfterUdp(env, s, fromInitial))
    decreases |s.inner.buf| - s.inner.pos, 1
  {
    if !env.plaintext {
      if fromInitial && !s.inner.phase.Udp? {
        DatagramsDone(env, s);
      } else {
        NextRecordKeeps(env, s, ForUdp);
      }
    } else {
      if fromInitial && !s.inner.phase.PlainUdp? {
        DatagramsDone(env, s);
      } else {
        NextPacketKeeps(env, s);
      }
    }
  }

  lemma NextPacketKeeps(env: Env, s: Session)
    requires env.plaintext && s.inner.pumping && Datagrams(env, s)
    ensures Inv(env, NextPacket(env, s))
    decreases |s.inner.buf| - s.inner.pos, 0
  {
    if |Window(s.inner)| == 0 {
      DatagramsDone(env, s);
    } else {
      TakeAllSettled(env, s);
      HandleUdpKeeps(env, Taken(TakeAll(s), Window(s.inner)), Window(s.inner), false);
    }
  }

  // ---------------------------------------------------------------- establish

  lemma DriveFlowing(env: Env, s: Session)
    requires s.inner.pumping && Flowing(env, s) && !s.inner.phase.Closed?
    ensures Inv(env, DriveData(env, s))
  {
    if env.plaintext {
      NextChunkKeeps(env, s);
    } else {
      NextRecordKeeps(env, s, ForData);
    }
  }

  lemma DriveDatagrams(env: Env, s: Session)
    requires s.inner.pumping && Datagrams(env, s) && !s.inner.phase.Closed?
    ensures Inv(env, DriveData(env, s))
  {
    if env.plaintext {
      NextPacketKeeps(env, s);
    } else {
      NextRecordKeeps(env, s, ForUdp);
    }
  }

  lemma TcpKeeps(env: Env, s: Session, counter: Option<Counter>)
    requires s.inner.pumping && Settled(env, s) && Delivered(env, s)
    requires DownloadOwns(env, s.(download := counter))
    ensures Inv(env, TcpEstablished(env, s, counter))
  {
    var phase := if env.plaintext then PlainData else Data;
    var s' := s.(download := counter, inner := s.inner.(writer := true, phase := phase));
    assert Window(s'.inner) == Window(s.inner);
    DriveFlowing(env, s');
  }

  lemma UdpKeeps(env: Env, s: Session, req: V.VlessRequest, initial: bytes)
    requires s.inner.pumping && Settled(env, s) && s.written == [] && PumpOwns(env, s)
    ensures Inv(env, UdpEstablished(env, s, req, initial))
  {
    var phase := if env.plaintext then PlainUdp else Udp;
    var ready := Sending(s, V.VLESS_RESPONSE).(inner := s.inner.(udpTarget := Some(req), phase := phase));
    assert Window(ready.inner) == Window(s.inner);
    if |initial| > 0 {
      HandleUdpKeeps(env, Taken(ready, initial), initial, true);
    } else {
      DriveDatagrams(env, ready);
    }
  }

  lemma EstablishKeeps(env: Env, s: Session, p: V.Parsed)
    requires s.inner.pumping && Settled(env, s) && s.written == [] && PumpOwns(env, s) && InHeader(env, s)
    requires V.Parse(s.pts, env.outside) == Some(p)
    ensures Inv(env, Establish(env, s, p, s.pts[p.consumed..]))
  {
    match p.req.command
    case Mux =>
      SettledRemains(env, s);
      FailKeeps(env, s);
    case Tcp => ConnectKeeps(env, s, p);
    case Udp =>
      if env.plaintext {
        UdpKeeps(env, s, p.req, s.pts[p.consumed..]);
      } else {
        UdpSealKeeps(env, s, p);
      }
  }

  lemma ConnectKeeps(env: Env, s: Session, p: V.Parsed)
    requires s.inner.pumping && Settled(env, s) && s.written == [] && PumpOwns(env, s) && InHeader(env, s)
    requires V.Parse(s.pts, env.outside) == Some(p) && p.req.command.Tcp?
    ensures Inv(env, Dialling(s, p, s.pts[p.consumed..]))
  {
  }

  lemma UdpSealKeeps(env: Env, s: Session, p: V.Parsed)
    requires s.inner.pumping && Settled(env, s) && s.written == [] && PumpOwns(env, s) && InHeader(env, s)
    requires V.Parse(s.pts, env.outside) == Some(p) && p.req.command.Udp? && !env.plaintext
    ensures
      var n := Successor(s.inner.nonceW);
      Inv(env, s.(seals := s.seals + [n], pc := SealUdpResponse(p.req, s.pts[p.consumed..], n)))
  {
  }

  lemma InitialWrittenKeeps(env: Env, s: Session, leftover: bytes)
    requires s.inner.pumping && Settled(env, s) && Delivered(env, s) && PumpOwns(env, s) && InHeader(env, s)
    ensures Inv(env, InitialWritten(env, s, leftover))
  {
    if env.plaintext {
      TcpKeeps(env, HeadSent(s, leftover), None);
    }
  }

  // ---------------------------------------------------------------- drive

  lemma DriveHandshakeKeeps(env: Env, s: Session)
    requires s.inner.pumping && s.inner.phase.Handshake? && AwaitsHello(env, s)
    ensures Inv(env, DriveHandshake(env, s))
  {
    if H.ReadHello(env.crypto, s.inner.buf).Whole? {
      NilRight(s.inner.buf[H.ReadHello(env.crypto, s.inner.buf).consumed..]);
      NilLeft(Nonces(3));
    }
  }

  ghost predicate AwaitsPlainHeader(env: Env, s: Session) {
    env.plaintext && s.inner.phase.PlainHeader? && Settled(env, s) && s.pts == [] && s.written == [] && PumpOwns(env, s)
  }

  lemma PlainHeaderWaits(env: Env, s: Session)
    requires AwaitsPlainHeader(env, s) && V.TryHeader(Window(s.inner), env.outside).More?
    ensures Inv(env, DriveDone(s))
  {
    CompactSettled(env, s);
  }

  lemma PlainHeaderFails(env: Env, s: Session)
    requires AwaitsPlainHeader(env, s)
    ensures Inv(env, Fail(s))
  {
    SettledRemains(env, s);
    FailKeeps(env, s);
  }

  lemma PlainHeaderAccepted(env: Env, s: Session, p: V.Parsed)
    requires AwaitsPlainHeader(env, s) && s.inner.pumping && V.Parse(Window(s.inner), env.outside) == Some(p)
    ensures
      var s' := s.(inner := s.inner.(buf := [], pos := 0), pts := Window(s.inner));
      Inv(env, Establish(env, s', p, Window(s.inner)[p.consumed..]))
  {
    var s' := s.(inner := s.inner.(buf := [], pos := 0), pts := Window(s.inner));
    assert Settled(env, s') by {
      NilLeft(Window(s.inner));
      NilRight(s.rx);
    }
    assert PumpOwns(env, s') && InHeader(env, s');
    EstablishKeeps(env, s', p);
  }

  lemma DrivePlainHeaderKeeps(env: Env, s: Session)
    requires AwaitsPlainHeader(env, s) && s.inner.pumping
    ensures Inv(env, DrivePlainHeader(env, s))
  {
    match V.TryHeader(Window(s.inner), env.outside)
    case More => PlainHeaderWaits(env, s);
    case Rejected => PlainHeaderFails(env, s);
    case Accepted(p, initial) => PlainHeaderAccepted(env, s, p);
  }

  // ---------------------------------------------------------------- resumption

  lemma KeysImported(env: Env, s: Session, reply: bytes)
    requires Inv(env, s) && s.pc.ImportKeys?
    ensures Inv(env, Continue(env, s, reply))
  {
    var keys, leftover := s.pc.keys, s.pc.leftover;
    var s' := WithKeys(s, leftover, keys);
    NilLeft(leftover + s.inner.buf);
    assert Window(s'.inner) == leftover + s.inner.buf;
    NextRecordKeeps(env, s', ForHeader);
  }

  lemma OpenedSettled(env: Env, s: Session, pt: bytes)
    requires Inv(env, s) && s.pc.OpenRecord?
    requires env.open(s.inner.keys.value.r, s.pc.nonce, s.pc.rec.hdr, s.pc.rec.body) == Some(pt)
    ensures Settled(env, s.(recs := s.recs + [s.pc.rec], pts := s.pts + pt))
  {
    var rec := s.pc.rec;
    OpenAllSnoc(env, s.inner.keys.value.r, s.recs, rec, s.pts, pt);
    Consumed(s.recs, rec, Window(s.inner));
    NilLeft(Window(s.inner));
  }

  lemma RecordOpenedKeeps(env: Env, s: Session, pt: bytes)
    requires Inv(env, s) && s.pc.OpenRecord?
    requires env.open(s.inner.keys.value.r, s.pc.nonce, s.pc.rec.hdr, s.pc.rec.body) == Some(pt)
    ensures Inv(env, RecordOpened(env, s, s.pc.purpose, s.pc.rec, pt))
  {
    OpenedSettled(env, s, pt);
    var s' := s.(recs := s.recs + [s.pc.rec], pts := s.pts + pt);
    match s.pc.purpose
    case ForData =>
      DeliveredGrows(env, s.pts, pt);
    case ForUdp =>
      HandleUdpKeeps(env, Taken(s', pt), pt, false);
    case ForHeader =>
      HeaderTriedKeeps(env, s'.(inner := s.inner.(acc := s.inner.acc + pt)));
  }

  lemma HeaderTriedKeeps(env: Env, s: Session)
    requires !env.plaintext && s.inner.pumping && Settled(env, s) && s.written == []
    requires PumpOwns(env, s) && InHeader(env, s) && s.inner.acc == s.pts
    ensures Inv(env, HeaderTried(env, s))
  {
    match V.TryHeader(s.pts, env.outside)
    case More => HeaderWaits(env, s);
    case Rejected =>
      SettledRemains(env, s);
      FailKeeps(env, s);
    case Accepted(p, initial) => HeaderAccepted(env, s, p);
  }

  lemma HeaderWaits(env: Env, s: Session)
    requires !env.plaintext && s.inner.pumping && Settled(env, s) && HeaderOpen(env, s)
    requires PumpOwns(env, s) && InHeader(env, s)
    ensures Inv(env, NextRecord(s, ForHeader))
  {
    NextRecordKeeps(env, s, ForHeader);
  }

  lemma HeaderAccepted(env: Env, s: Session, p: V.Parsed)
    requires !env.plaintext && s.inner.pumping && Settled(env, s) && s.written == []
    requires PumpOwns(env, s) && InHeader(env, s) && V.Parse(s.pts, env.outside) == Some(p)
    ensures Inv(env, Establish(env, s.(inner := s.inner.(acc := [])), p, s.pts[p.consumed..]))
  {
    EstablishKeeps(env, s.(inner := s.inner.(acc := [])), p);
  }

  /** What the failure path needs holds at every await. */
  lemma CanFail(env: Env, s: Session)
    requires !s.pc.Idle? && Suspended(env, s)
    ensures Remains(env, s) && (s.written == [] || Delivered(env, s))
    ensures s.seals == Nonces(|s.seals|)
    ensures s.download.Some? ==> s.download == Some(NonceAt(|s.seals|))
  {
    match s.pc
    case ImportKeys(_, _) =>
    case OpenRecord(_, rec, _) => SealedRemains(env, s, Wire(rec), 1);
    case _ => SettledRemains(env, s);
  }

  lemma PumpFails(env: Env, s: Session)
    requires Inv(env, s) && !s.pc.Idle?
    ensures Inv(env, Fail(s))
  {
    CanFail(env, s);
    FailKeeps(env, s);
  }

  lemma RecordKeeps(env: Env, s: Session, reply: bytes)
    requires Inv(env, s) && s.pc.OpenRecord?
    ensures Inv(env, Continue(env, s, reply))
  {
    var opening := env.open(s.inner.keys.value.r, s.pc.nonce, s.pc.rec.hdr, s.pc.rec.body);
    if opening.None? {
      PumpFails(env, s);
    } else {
      RecordOpenedKeeps(env, s, opening.value);
    }
  }

  lemma ConnectedKeeps(env: Env, s: Session, reply: bytes)
    requires Inv(env, s) && s.pc.ConnectTarget?
    ensures Inv(env, Continue(env, s, reply))
  {
    if |s.pc.initial| > 0 {
      NilLeft(s.pc.initial);
    } else {
      InitialWrittenKeeps(env, s, reply);
    }
  }

  lemma ResponseKeeps(env: Env, s: Session, reply: bytes)
    requires Inv(env, s) && (s.pc.SealResponse? || s.pc.SealLeftover?)
    ensures Inv(env, Continue(env, s, reply))
  {
    if s.pc.SealLeftover? {
      TcpKeeps(env, Sending(s, s.pc.leftover), Some(s.pc.nonceW));
    } else if |s.pc.leftover| == 0 {
      TcpKeeps(env, Sending(s, V.VLESS_RESPONSE), Some(s.pc.nonceW));
    }
  }

  /** The counter goes back from a local to the session. */
  lemma CounterReturns(env: Env, s: Session, n: Counter)
    requires Settled(env, s) && PumpHolds(env, s, n)
    ensures
      var s' := s.(inner := s.inner.(nonceW := n));
      Settled(env, s') && PumpOwns(env, s')
  {
    assert Window(s.inner.(nonceW := n)) == Window(s.inner);
  }

  lemma UdpResponseKeeps(env: Env, s: Session, reply: bytes)
    requires Inv(env, s) && s.pc.SealUdpResponse?
    ensures Inv(env, Continue(env, s, reply))
  {
    CounterReturns(env, s, s.pc.nonceW);
    UdpKeeps(env, s.(inner := s.inner.(nonceW := s.pc.nonceW)), s.pc.req, s.pc.initial);
  }

  lemma UdpReplyKeeps(env: Env, s: Session, reply: bytes)
    requires Inv(env, s) && s.pc.SealUdpReply?
    ensures Inv(env, Continue(env, s, reply))
  {
    CounterReturns(env, s, s.pc.nonceW);
    HandleUdpKeeps(env, Sending(s, Framed(s.pc.reply)).(inner := s.inner.(nonceW := s.pc.nonceW)), s.pc.rest, s.pc.fromInitial);
  }

  lemma InitialKeeps(env: Env, s: Session, reply: bytes)
    requires Inv(env, s) && s.pc.WriteInitial?
    ensures Inv(env, Continue(env, s, reply))
  {
    InitialWrittenKeeps(env, s, s.pc.leftover);
  }

  lemma WritingFlows(env: Env, s: Session)
    requires Inv(env, s) && s.pc.WriteData?
    ensures s.inner.pumping && Flowing(env, s)
  {
  }

  lemma FlowsOn(env: Env, s: Session)
    requires s.inner.pumping && Flowing(env, s)
    ensures Inv(env, if env.plaintext then NextChunk(s) else NextRecord(s, ForData))
  {
    if env.plaintext {
      NextChunkKeeps(env, s);
    } else {
      NextRecordKeeps(env, s, ForData);
    }
  }

  lemma WrittenKeeps(env: Env, s: Session, reply: bytes)
    requires Inv(env, s) && s.pc.WriteData?
    ensures Inv(env, Continue(env, s, reply))
  {
    WritingFlows(env, s);
    FlowsOn(env, s);
  }

  lemma ContinueKeeps(env: Env, s: Session, reply: bytes)
    requires Inv(env, s) && !s.pc.Idle? && !s.pc.QueryUdp?
    ensures Inv(env, Continue(env, s, reply))
  {
    match s.pc
    case ImportKeys(_, _) => KeysImported(env, s, reply);
    case OpenRecord(_, _, _) => RecordKeeps(env, s, reply);
    case ConnectTarget(_) => ConnectedKeeps(env, s, reply);
    case WriteInitial(_) => InitialKeeps(env, s, reply);
    case SealResponse(_, _) => ResponseKeeps(env, s, reply);
    case SealLeftover(_, _) => ResponseKeeps(env, s, reply);
    case WriteData => WrittenKeeps(env, s, reply);
    case SealUdpResponse(_, _, _) => UdpResponseKeeps(env, s, reply);
    case SealUdpReply(_, _, _, _) => UdpReplyKeeps(env, s, reply);
  }

  lemma QueriedKeeps(env: Env, s: Session, o: Outcome)
    requires Inv(env, s) && s.pc.QueryUdp?
    ensures Inv(env, Resume(env, s, o))
  {
    if o.ok && |o.bytes| > 0 && s.inner.keys.Some? {
      ReplySealKeeps(env, s, o.bytes, s.pc.rest, s.pc.fromInitial);
    } else {
      HandleUdpKeeps(env, s, s.pc.rest, s.pc.fromInitial);
      HandleUdpKeeps(env, Sending(s, Framed(o.bytes)), s.pc.rest, s.pc.fromInitial);
    }
  }

  /** The pump takes the counter along, one further. */
  lemma CounterTaken(env: Env, s: Session, s': Session)
    requires !env.plaintext && Settled(env, s) && PumpOwns(env, s)
    requires s' == s.(seals := s.seals + [Successor(s.inner.nonceW)], pc := s'.pc)
    ensures Settled(env, s') && PumpHolds(env, s', Successor(s.inner.nonceW))
  {
  }

  lemma ReplySealKeeps(env: Env, s: Session, reply: bytes, rest: bytes, fromInitial: bool)
    requires s.inner.pumping && Datagrams(env, s) && s.inner.keys.Some?
    ensures
      var n := Successor(s.inner.nonceW);
      Inv(env, s.(seals := s.seals + [n], pc := SealUdpReply(reply, rest, n, fromInitial)))
  {
    var n := Successor(s.inner.nonceW);
    CounterTaken(env, s, s.(seals := s.seals + [n], pc := SealUdpReply(reply, rest, n, fromInitial)));
  }

  lemma ResumeKeeps(env: Env, s: Session, o: Outcome)
    requires Inv(env, s)
    ensures Inv(env, Resume(env, s, o))
  {
    if s.pc.QueryUdp? {
      QueriedKeeps(env, s, o);
    } else if !s.pc.Idle? {
      if o.ok {
        ContinueKeeps(env, s, o.bytes);
      } else {
        PumpFails(env, s);
      }
    }
  }

  // ---------------------------------------------------------------- frames

  /** More bytes behind a finished clientHello change neither its end nor its keys. */
  lemma HelloStays(env: Env, rx: bytes, data: bytes, keys: H.Keys)
    requires HelloIs(env, rx, HelloEnd(env, rx), keys)
    ensures HelloIs(env, rx + data, HelloEnd(env, rx + data), keys)
    ensures HelloEnd(env, rx + data) == HelloEnd(env, rx) <= |rx|
    ensures (rx + data)[HelloEnd(env, rx)..] == rx[HelloEnd(env, rx)..] + data
  {
    H.HelloMonotone(env.crypto, rx, data);
    TailAppend(rx, data, HelloEnd(env, rx));
  }

  function Appended(s: Session, data: bytes): Session {
    s.(rx := s.rx + data, inner := s.inner.(buf := s.inner.buf + data))
  }

  lemma AppendedBytes(wire: bytes, flight: bytes, window: bytes, data: bytes)
    ensures wire + (flight + window) + data == wire + (flight + (window + data))
  {
    Assoc(wire, flight + window, data);
    Assoc(flight, window, data);
  }

  lemma AppendedStream(rx: bytes, data: bytes, end: nat, wire: bytes, flight: bytes, window: bytes)
    requires end <= |rx| && rx[end..] == wire + (flight + window)
    ensures (rx + data)[end..] == wire + (flight + (window + data))
  {
    TailAppend(rx, data, end);
    AppendedBytes(wire, flight, window, data);
  }

  lemma AppendedWindow(s: Session, data: bytes)
    ensures Window(Appended(s, data).inner) == Window(s.inner) + data
  {
    TailAppend(s.inner.buf, data, s.inner.pos);
  }

  lemma SealedStream(s: Session, data: bytes, flight: bytes, end: nat)
    requires end <= |s.rx| && s.rx[end..] == WireAll(s.recs) + (flight + Window(s.inner))
    ensures Appended(s, data).rx[end..] == WireAll(s.recs) + (flight + Window(Appended(s, data).inner))
  {
    AppendedWindow(s, data);
    AppendedStream(s.rx, data, end, WireAll(s.recs), flight, Window(s.inner));
  }

  lemma SealedParts(env: Env, s: Session, flight: bytes, taken: nat)
    requires s.inner.keys.Some?
    requires HelloEnd(env, s.rx) <= |s.rx| && HelloIs(env, s.rx, HelloEnd(env, s.rx), s.inner.keys.value)
    requires s.rx[HelloEnd(env, s.rx)..] == WireAll(s.recs) + (flight + Window(s.inner))
    requires AllWellFormed(s.recs) && OpenAll(env, s.inner.keys.value.r, s.recs) == Some(s.pts)
    requires s.inner.nonceR == NonceAt(|s.recs| + taken)
    ensures Sealed(env, s, flight, taken)
  {
  }

  ghost predicate SameBut(s: Session, s': Session) {
    s.inner.pos <= |s'.inner.buf| && s' == s.(rx := s'.rx, inner := s.inner.(buf := s'.inner.buf))
  }

  lemma OpenedAgain(env: Env, s: Session, s': Session, flight: bytes, taken: nat)
    requires Sealed(env, s, flight, taken) && SameBut(s, s')
    ensures s'.inner.keys == s.inner.keys && s'.inner.nonceR == NonceAt(|s'.recs| + taken)
    ensures AllWellFormed(s'.recs) && OpenAll(env, s'.inner.keys.value.r, s'.recs) == Some(s'.pts)
  {
  }

  lemma SealedAgain(env: Env, s: Session, s': Session, flight: bytes, taken: nat)
    requires Sealed(env, s, flight, taken) && SameBut(s, s')
    requires HelloEnd(env, s'.rx) <= |s'.rx| && HelloIs(env, s'.rx, HelloEnd(env, s'.rx), s'.inner.keys.value)
    requires s'.rx[HelloEnd(env, s'.rx)..] == WireAll(s'.recs) + (flight + Window(s'.inner))
    ensures Sealed(env, s', flight, taken)
  {
    OpenedAgain(env, s, s', flight, taken);
    SealedParts(env, s', flight, taken);
  }

  lemma AppendSealed(env: Env, s: Session, data: bytes, flight: bytes, taken: nat)
    requires Sealed(env, s, flight, taken)
    ensures Sealed(env, Appended(s, data), flight, taken)
  {
    HelloStays(env, s.rx, data, s.inner.keys.value);
    SealedStream(s, data, flight, HelloEnd(env, s.rx));
    SealedAgain(env, s, Appended(s, data), flight, taken);
  }

  lemma AppendSettled(env: Env, s: Session, data: bytes)
    requires Settled(env, s)
    ensures Settled(env, Appended(s, data))
    ensures Window(Appended(s, data).inner) == Window(s.inner) + data
  {
    AppendedWindow(s, data);
    if env.plaintext {
      Assoc(s.pts, Window(s.inner), data);
    } else {
      AppendSealed(env, s, data, [], 0);
    }
  }

  /** A frame behind a running pump only extends the window. */
  lemma QueueKeeps(env: Env, s: Session, data: bytes)
    requires Inv(env, s) && !s.pc.Idle?
    ensures Inv(env, Appended(s, data))
  {
    match s.pc
    case ImportKeys(leftover, keys) =>
      HelloStays(env, s.rx, data, keys);
      Assoc(leftover, s.inner.buf, data);
    case OpenRecord(_, rec, _) => AppendSealed(env, s, data, Wire(rec), 1);
    case _ => AppendSettled(env, s, data);
  }

  lemma PumpKeeps(env: Env, s: Session)
    requires s.inner.pumping && s.pc.Idle?
    requires match s.inner.phase
             case Closed => false
             case Handshake => AwaitsHello(env, s)
             case Header => ReadyFor(env, s, ForHeader)
             case PlainHeader => AwaitsPlainHeader(env, s)
             case Data => !env.plaintext && Flowing(env, s)
             case PlainData => env.plaintext && Flowing(env, s)
             case Udp => !env.plaintext && Datagrams(env, s)
             case PlainUdp => env.plaintext && Datagrams(env, s)
    ensures Inv(env, Drive(env, s))
  {
    match s.inner.phase
    case Handshake => DriveHandshakeKeeps(env, s);
    case Header => NextRecordKeeps(env, s, ForHeader);
    case PlainHeader => DrivePlainHeaderKeeps(env, s);
    case Data => DriveFlowing(env, s);
    case PlainData => DriveFlowing(env, s);
    case Udp => DriveDatagrams(env, s);
    case PlainUdp => DriveDatagrams(env, s);
  }

  /** A frame that finds no pump wakes one over everything buffered. */
  lemma WakeKeeps(env: Env, s: Session, data: bytes)
    requires Inv(env, s) && s.pc.Idle? && !s.inner.phase.Closed?
    ensures Inv(env, Message(env, s, data))
  {
    var c := s.(inner := Compacted(s.inner));
    var s' := Appended(c, data).(inner := Appended(c, data).inner.(pumping := true));
    if s.inner.phase.Handshake? {
      assert Window(s.inner) == s.inner.buf;
    } else {
      CompactSettled(env, s);
      AppendSettled(env, c, data);
      assert Settled(env, s');
    }
    PumpKeeps(env, s');
  }

  lemma MessageKeeps(env: Env, s: Session, data: bytes)
    requires Inv(env, s)
    ensures Inv(env, Message(env, s, data))
  {
    if !s.inner.phase.Closed? {
      if s.pc.Idle? {
        WakeKeeps(env, s, data);
      } else {
        QueueKeeps(env, s, data);
      }
    }
  }

  lemma AsleepCloses(env: Env, s: Session)
    requires Asleep(env, s)
    ensures Dead(env, s)
  {
    if !s.inner.phase.Closed? && !s.inner.phase.Handshake? {
      SettledRemains(env, s);
    }
  }

  /** Closing a session whose pump is suspended takes nothing from it but the writer. */
  lemma SuspendedCloses(env: Env, s: Session)
    requires !s.pc.Idle? && Suspended(env, s)
    ensures Suspended(env, Cleanup(s))
  {
    assert Window(Cleanup(s).inner) == Window(s.inner);
  }

  lemma CleanupKeeps(env: Env, s: Session)
    requires Inv(env, s)
    ensures Inv(env, Cleanup(s))
  {
    if s.pc.Idle? {
      AsleepCloses(env, s);
      assert Dead(env, Cleanup(s));
    } else {
      SuspendedCloses(env, s);
    }
  }

  lemma DownloadKeeps(env: Env, s: Session)
    requires Inv(env, s)
    ensures Inv(env, DownloadSeal(s))
  {
    if s.download.Some? {
      assert Nonces(|s.seals| + 1) == Nonces(|s.seals|) + [NonceAt(|s.seals| + 1)];
    }
  }

  lemma StepKeeps(env: Env, s: Session, e: Event)
    requires Inv(env, s)
    ensures Inv(env, Step(env, s, e))
  {
    match e
    case Frame(data) => MessageKeeps(env, s, data);
    case Text =>
    case Close => CleanupKeeps(env, s);
    case Complete(o) => ResumeKeeps(env, s, o);
    case Download => DownloadKeeps(env, s);
  }

  // ---------------------------------------------------------------- whole runs

  /** The session after any sequence of events, in any order of arrival. */
  function Run(env: Env, events: seq<Event>): Session {
    if |events| == 0 then Start(env)
    else Step(env, Run(env, events[..|events| - 1]), events[|events| - 1])
  }

  lemma {:induction false} RunKeeps(env: Env, events: seq<Event>)
    ensures Inv(env, Run(env, events))
  {
    if |events| > 0 {
      RunKeeps(env, events[..|events| - 1]);
      StepKeeps(env, Run(env, events[..|events| - 1]), events[|events| - 1]);
    }
  }
}
