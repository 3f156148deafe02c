/** What a session does for its client: every drain comes to rest, at rest a session is where
    the received bytes call for, and a client that sends a legal header is served. */
module SessionProgress {
  import opened Bytes
  import opened Nonce
  import opened Records
  import opened Inbound
  import opened Session
  import opened Payload
  import opened SessionInvariant
  import opened SessionSafety
  import opened SessionClaims
  import opened SessionQueries
  import opened SessionCourse
  import H = Handshake
  import V = Vless

  // ---------------------------------------------------------------- at rest

  /** The session is where its bytes call for. */
  ghost predicate AtRest(env: Env, s: Session, got: seq<bytes>) {
    && !s.inner.pumping
    && match Judge(env, s.rx)
       case Bad => s.inner.phase.Closed?
       case Greeting => s.inner.phase.Handshake? && Untouched(s, got) && s.seals == []
       case HeaderWanted =>
         s.inner.phase == (if env.plaintext then PlainHeader else Header) && Untouched(s, got) && Sealing(env, s, 0)
       case Serving(p) => if p.req.command.Tcp? then Relays(env, s, p, got) else Forwards(env, s, p, got)
  }

  /** TCP: the target was dialled once, it answered with a leftover, it has all of the payload,
      and the client has the response and the leftover. */
  ghost predicate Relays(env: Env, s: Session, p: V.Parsed, got: seq<bytes>) {
    && s.inner.phase == (if env.plaintext then PlainData else Data) && s.inner.writer
    && s.connects == [Dial(p.req, p.egress)] && s.written == Owed(env, s.rx)
    && |got| == 1 && s.sent == Due(false, got)
  }

  /** UDP: the target is the request, every packet of the payload has been asked, each query
      has ended, and the client has the response and every reply. */
  ghost predicate Forwards(env: Env, s: Session, p: V.Parsed, got: seq<bytes>) {
    && s.inner.phase == (if env.plaintext then PlainUdp else Udp) && s.connects == []
    && s.inner.udpTarget == Some(p.req)
    && s.udp.queries == AllPackets(s.udp.buffers) && Concat(s.udp.buffers) == Owed(env, s.rx)
    && |got| == |s.udp.queries| && s.sent == Due(true, got)
  }

  lemma SettledJudged(env: Env, s: Session)
    requires Settled(env, s)
    requires if env.plaintext then Window(s.inner) == [] else PeekRecord(Window(s.inner)).Incomplete?
    ensures Judge(env, s.rx) == Judged(V.TryHeader(s.pts, env.outside))
  {
    if env.plaintext {
      NilRight(s.pts);
    } else {
      var w := Window(s.inner);
      NilLeft(w);
      DeframeWire(s.recs, w);
      DeframeNone(w);
      NilRight(s.recs);
    }
  }

  lemma WaitingJudged(env: Env, s: Session)
    requires s.pc.Idle? && Asleep(env, s) && !s.inner.phase.Closed?
    ensures Judge(env, s.rx)
         == if s.inner.phase.Handshake? then Greeting
            else Judged(V.TryHeader(if s.inner.phase.PlainHeader? then s.rx else s.pts, env.outside))
  {
    if !s.inner.phase.Handshake? && !s.inner.phase.PlainHeader? {
      SettledJudged(env, s);
    }
  }

  /** After every run without a close and without a failed operation, a session that is at
      rest is where its bytes call for; in particular it has given up only on bad ones. */
  lemma RestsRightly(env: Env, events: seq<Event>)
    requires Undisturbed(env, events) && !Run(env, events).inner.pumping
    ensures AtRest(env, Run(env, events), Gave(env, events))
  {
    var s := Run(env, events);
    RunKeeps(env, events);
    RunOn(env, events);
    if !s.inner.phase.Closed? {
      WaitingJudged(env, s);
      if s.inner.phase.PlainHeader? {
        NilLeft(Window(s.inner));
      } else if s.inner.phase.Data? || s.inner.phase.PlainData? {
        UploadComplete(env, events);
      } else if UdpPhase(s.inner.phase) {
        QueriesComplete(env, events);
      }
    }
  }

  /** Whenever a session waits for its target, it holds exactly the payload that has come with
      the header, and nothing has gone up or down yet. */
  lemma WaitsForTarget(env: Env, events: seq<Event>)
    requires Run(env, events).pc.ConnectTarget?
    ensures
      var s := Run(env, events);
      && s.written == [] && s.sent == [] && Gave(env, events) == []
      && match V.Parse(s.pts, env.outside)
         case None => false
         case Some(p) => s.connects == [Dial(p.req, p.egress)] && s.pc.initial == s.pts[p.consumed..]
  {
    RunKeeps(env, events);
    RunOn(env, events);
  }

  // ---------------------------------------------------------------- every drain ends

  /** The bytes the pump has still to take. */
  function Bulk(s: Session): nat {
    if s.pc.ImportKeys? then |s.pc.leftover| + |s.inner.buf| else |Window(s.inner)|
  }

  function Rank(pc: Pc): nat {
    match pc
    case ImportKeys(_, _) => 6
    case OpenRecord(_, _, _) => 6
    case ConnectTarget(_) => 5
    case WriteInitial(_) => 4
    case SealResponse(_, _) => 3
    case SealLeftover(_, _) | WriteData | SealUdpResponse(_, _, _) => 2
    case QueryUdp(_, _) | SealUdpReply(_, _, _, _) => 1
    case Idle => 0
  }

  /** Packets left in the buffer at hand. */
  function Rest(pc: Pc): nat {
    match pc
    case QueryUdp(rest, _) => 2 * |rest| + 1
    case SealUdpReply(_, rest, _, _) => 2 * |rest|
    case _ => 0
  }

  predicate Below(t: Session, bulk: nat, rank: nat, rest: nat) {
    t.pc.Idle? || Bulk(t) < bulk || (Bulk(t) == bulk && (Rank(t.pc) < rank || (Rank(t.pc) == rank && Rest(t.pc) < rest)))
  }

  lemma NextRecordLower(s: Session, purpose: Purpose)
    ensures Below(NextRecord(s, purpose), |Window(s.inner)|, 0, 0)
  {
  }

  lemma HandleUdpLower(env: Env, s: Session, p: bytes, fromInitial: bool)
    ensures Below(HandleUdp(env, s, p, fromInitial), |Window(s.inner)|, 1, 2 * |p|)
    decreases |s.inner.buf| - s.inner.pos, 2
  {
    if s.inner.udpTarget.Some? && (|p| < 2 || |p| < 2 + H.DecodeLength(p)) {
      AfterUdpLower(env, s, fromInitial);
    }
  }

  lemma AfterUdpLower(env: Env, s: Session, fromInitial: bool)
    ensures Below(AfterUdp(env, s, fromInitial), |Window(s.inner)|, 0, 0)
    decreases |s.inner.buf| - s.inner.pos, 1
  {
    if !env.plaintext {
      NextRecordLower(s, ForUdp);
    } else if !(fromInitial && !s.inner.phase.PlainUdp?) {
      NextPacketLower(env, s);
    }
  }

  lemma NextPacketLower(env: Env, s: Session)
    ensures Below(NextPacket(env, s), |Window(s.inner)|, 0, 0)
    decreases |s.inner.buf| - s.inner.pos, 0
  {
    if |Window(s.inner)| > 0 {
      HandleUdpLower(env, Taken(TakeAll(s), Window(s.inner)), Window(s.inner), false);
    }
  }

  lemma DriveDataLower(env: Env, s: Session)
    ensures Below(DriveData(env, s), |Window(s.inner)|, 0, 0)
  {
    match s.inner.phase
    case Data => NextRecordLower(s, ForData);
    case Udp => NextRecordLower(s, ForUdp);
    case PlainUdp => NextPacketLower(env, s);
    case _ =>
  }

  lemma TcpLower(env: Env, s: Session, counter: Option<Counter>)
    ensures Below(TcpEstablished(env, s, counter), |Window(s.inner)|, 0, 0)
  {
    var phase := if env.plaintext then PlainData else Data;
    DriveDataLower(env, s.(download := counter, inner := s.inner.(writer := true, phase := phase)));
  }

  lemma UdpLower(env: Env, s: Session, req: V.VlessRequest, initial: bytes)
    ensures Below(UdpEstablished(env, s, req, initial), |Window(s.inner)|, 2, 0)
  {
    var phase := if env.plaintext then PlainUdp else Udp;
    var ready := Sending(s, V.VLESS_RESPONSE).(inner := s.inner.(udpTarget := Some(req), phase := phase));
    HandleUdpLower(env, Taken(ready, initial), initial, true);
    DriveDataLower(env, ready);
  }

  lemma RecordLower(env: Env, s: Session, purpose: Purpose, rec: Rec, pt: bytes)
    ensures Below(RecordOpened(env, s, purpose, rec, pt), |Window(s.inner)|, 6, 0)
  {
    var s' := s.(recs := s.recs + [rec], pts := s.pts + pt);
    match purpose
    case ForData =>
    case ForUdp => HandleUdpLower(env, Taken(s', pt), pt, false);
    case ForHeader => HeaderLower(env, s'.(inner := s.inner.(acc := s.inner.acc + pt)));
  }

  lemma HeaderLower(env: Env, s: Session)
    ensures Below(HeaderTried(env, s), |Window(s.inner)|, 6, 0)
  {
    match V.TryHeader(s.inner.acc, env.outside)
    case More => NextRecordLower(s, ForHeader);
    case Rejected =>
    case Accepted(p, initial) => EstablishLower(env, s.(inner := s.inner.(acc := [])), p, initial);
  }

  lemma EstablishLower(env: Env, s: Session, p: V.Parsed, initial: bytes)
    ensures Below(Establish(env, s, p, initial), |Window(s.inner)|, 6, 0)
  {
    if p.req.command.Udp? && env.plaintext {
      UdpLower(env, s, p.req, initial);
    }
  }

  lemma InitialLower(env: Env, s: Session, leftover: bytes)
    ensures Below(InitialWritten(env, s, leftover), |Window(s.inner)|, 4, 0)
  {
    if env.plaintext {
      TcpLower(env, HeadSent(s, leftover), None);
    }
  }

  lemma TunnelLower(env: Env, s: Session, reply: bytes)
    requires s.pc.ConnectTarget? || s.pc.WriteInitial? || s.pc.SealResponse? || s.pc.SealLeftover?
    ensures Below(Continue(env, s, reply), Bulk(s), Rank(s.pc), 0)
  {
    if s.pc.ConnectTarget? {
      InitialLower(env, s, reply);
    } else if s.pc.WriteInitial? {
      InitialLower(env, s, s.pc.leftover);
    } else if s.pc.SealResponse? {
      TcpLower(env, Sending(s, V.VLESS_RESPONSE), Some(s.pc.nonceW));
    } else {
      TcpLower(env, Sending(s, s.pc.leftover), Some(s.pc.nonceW));
    }
  }

  lemma ContinueLower(env: Env, s: Session, reply: bytes)
    requires !s.pc.Idle? && !s.pc.QueryUdp?
    ensures Below(Continue(env, s, reply), Bulk(s), Rank(s.pc), Rest(s.pc))
  {
    match s.pc
    case ImportKeys(leftover, keys) =>
      NilLeft(leftover + s.inner.buf);
      NextRecordLower(WithKeys(s, leftover, keys), ForHeader);
    case OpenRecord(purpose, rec, nonce) =>
      if s.inner.keys.Some? && env.open(s.inner.keys.value.r, nonce, rec.hdr, rec.body).Some? {
        RecordLower(env, s, purpose, rec, env.open(s.inner.keys.value.r, nonce, rec.hdr, rec.body).value);
      }
    case ConnectTarget(_) => TunnelLower(env, s, reply);
    case WriteInitial(_) => TunnelLower(env, s, reply);
    case SealResponse(_, _) => TunnelLower(env, s, reply);
    case SealLeftover(_, _) => TunnelLower(env, s, reply);
    case WriteData => NextRecordLower(s, ForData);
    case SealUdpResponse(req, initial, n) => UdpLower(env, s.(inner := s.inner.(nonceW := n)), req, initial);
    case SealUdpReply(reply', rest, n, fromInitial) =>
      HandleUdpLower(env, Sending(s, Framed(reply')).(inner := s.inner.(nonceW := n)), rest, fromInitial);
  }

  lemma ResumeLower(env: Env, s: Session, reply: bytes)
    requires !s.pc.Idle?
    ensures Below(Resume(env, s, Outcome(true, reply)), Bulk(s), Rank(s.pc), Rest(s.pc))
  {
    if s.pc.QueryUdp? {
      HandleUdpLower(env, s, s.pc.rest, s.pc.fromInitial);
      HandleUdpLower(env, Sending(s, Framed(reply)), s.pc.rest, s.pc.fromInitial);
    } else {
      ContinueLower(env, s, reply);
    }
  }

  /** A run, and the first `n` operations behind it, which all succeed. */
  function Continued(events: seq<Event>, replies: nat -> bytes, n: nat): seq<Event> {
    if n == 0 then events
    else Continued(events, replies, n - 1) + [Complete(Outcome(true, replies(n - 1)))]
  }

  lemma ContinuedOnce(env: Env, events: seq<Event>, replies: nat -> bytes, n: nat)
    ensures Run(env, Continued(events, replies, n + 1))
         == Resume(env, Run(env, Continued(events, replies, n)), Outcome(true, replies(n)))
  {
    var front := Continued(events, replies, n);
    assert Continued(events, replies, n + 1)[..|front|] == front;
  }

  lemma {:induction false} DrainsFrom(env: Env, events: seq<Event>, replies: nat -> bytes, k: nat) returns (n: nat)
    ensures Run(env, Continued(events, replies, n)).pc.Idle?
    decreases
      var s := Run(env, Continued(events, replies, k)); if s.pc.Idle? then 0 else 1,
      Bulk(Run(env, Continued(events, replies, k))),
      Rank(Run(env, Continued(events, replies, k)).pc),
      Rest(Run(env, Continued(events, replies, k)).pc)
  {
    var s := Run(env, Continued(events, replies, k));
    if s.pc.Idle? {
      n := k;
    } else {
      ContinuedOnce(env, events, replies, k);
      ResumeLower(env, s, replies(k));
      n := DrainsFrom(env, events, replies, k + 1);
    }
  }

  /** From every reachable state, whatever the replies are, finitely many operations that
      succeed bring the pump to rest. */
  lemma Drains(env: Env, events: seq<Event>, replies: nat -> bytes) returns (n: nat)
    ensures !Run(env, Continued(events, replies, n)).inner.pumping
  {
    n := DrainsFrom(env, events, replies, 0);
    RunKeeps(env, Continued(events, replies, n));
  }

  // ---------------------------------------------------------------- frames sent and judged

  lemma {:induction false} UndisturbedNoClose(env: Env, events: seq<Event>)
    requires Undisturbed(env, events)
    ensures NoClose(events)
  {
    if |events| > 0 {
      UndisturbedNoClose(env, events[..|events| - 1]);
      InitLast(events);
    }
  }

  lemma {:induction false} ContinuedSmoothly(env: Env, events: seq<Event>, replies: nat -> bytes, n: nat)
    requires Undisturbed(env, events)
    ensures Undisturbed(env, Continued(events, replies, n))
    ensures Received(Continued(events, replies, n)) == Received(events)
  {
    if n > 0 {
      var front := Continued(events, replies, n - 1);
      ContinuedSmoothly(env, events, replies, n - 1);
      assert Continued(events, replies, n)[..|front|] == front;
    }
  }

  /** A session accepts all frames it is sent, unless those it has are refused already. */
  lemma AcceptedOrRefused(env: Env, events: seq<Event>)
    requires Undisturbed(env, events)
    ensures
      var rx := Run(env, events).rx;
      rx == Received(events) || (Judge(env, rx).Bad? && Judge(env, Received(events)).Bad?)
  {
    var s := Run(env, events);
    UndisturbedNoClose(env, events);
    FramesInOrder(env, events);
    RunOn(env, events);
    if s.inner.phase.Closed? {
      PrefixSplit(s.rx, Received(events));
      BadIsFinal(env, s.rx, Received(events)[|s.rx|..]);
    }
  }

  /** Every run without a close and without a failed operation goes on, after finitely many
      operations that succeed, to where the frames sent call for. */
  lemma EndsAsJudged(env: Env, events: seq<Event>, replies: nat -> bytes) returns (n: nat)
    requires Undisturbed(env, events)
    ensures
      var all := Continued(events, replies, n);
      var s := Run(env, all);
      && AtRest(env, s, Gave(env, all)) && Judge(env, s.rx) == Judge(env, Received(events))
      && (!Judge(env, s.rx).Bad? ==> s.rx == Received(events))
  {
    n := Drains(env, events, replies);
    ContinuedSmoothly(env, events, replies, n);
    RestsRightly(env, Continued(events, replies, n));
    AcceptedOrRefused(env, Continued(events, replies, n));
  }

  // ---------------------------------------------------------------- a client on the wire

  /** A client in encrypted mode: its hello, then records that open, one after the other, to
      the pieces of a plaintext, then at most the beginning of another. */
  ghost predicate SentSealed(env: Env, rx: bytes, hello: H.ClientHello, secret: bytes, keys: H.Keys,
                             recs: seq<Rec>, tail: bytes, stream: bytes) {
    && H.Legal(env.crypto, hello, secret)
    && env.crypto.commit(secret[..H.PFS_LEN], env.crypto.agree(hello.relay)) == Some(keys)
    && AllWellFormed(recs) && OpenAll(env, keys.r, recs) == Some(stream)
    && PeekRecord(tail).Incomplete?
    && rx == H.Encode(hello) + (WireAll(recs) + tail)
  }

  /** The client has sent this plaintext. */
  ghost predicate Carries(env: Env, rx: bytes, stream: bytes) {
    if env.plaintext then rx == stream
    else exists hello, secret, keys, recs, tail :: SentSealed(env, rx, hello, secret, keys, recs, tail, stream)
  }

  lemma CarriedJudged(env: Env, rx: bytes, stream: bytes)
    requires Carries(env, rx, stream)
    ensures Judge(env, rx) == Judged(V.TryHeader(stream, env.outside))
    ensures Owed(env, rx) == BehindHeader(env, stream)
  {
    if !env.plaintext {
      var hello, secret, keys, recs, tail :| SentSealed(env, rx, hello, secret, keys, recs, tail, stream);
      H.HelloReads(env.crypto, hello, secret, WireAll(recs) + tail);
      assert rx[|H.Encode(hello)|..] == WireAll(recs) + tail;
      DeframeWire(recs, tail);
      DeframeNone(tail);
      NilRight(recs);
    }
  }

  lemma HeaderCarried(env: Env, rx: bytes, h: V.Header, payload: bytes) returns (p: V.Parsed)
    requires V.Legal(h, env.outside) && Carries(env, rx, V.Encode(h) + payload)
    ensures Judge(env, rx) == Serving(p) && V.Means(h, env.outside, p) && Owed(env, rx) == payload
  {
    CarriedJudged(env, rx, V.Encode(h) + payload);
    V.HeaderReads(h, payload, env.outside);
    p := V.Meaning(h, env.outside);
    TailAppend(V.Encode(h), payload, |V.Encode(h)|);
    NilLeft(payload);
  }

  /** A client that sends a legal TCP header and a payload is served: however its bytes were
      cut into frames and whatever frames overtook which await, as long as nothing fails, one
      target is dialled, the one the header spells, it is given exactly the payload, and the
      client gets the response and what the target's proxy had sent ahead. */
  lemma TcpServed(env: Env, events: seq<Event>, replies: nat -> bytes, h: V.Header, payload: bytes)
    returns (n: nat, p: V.Parsed)
    requires Undisturbed(env, events) && V.Legal(h, env.outside) && h.command == 1
    requires Carries(env, Received(events), V.Encode(h) + payload)
    ensures V.Means(h, env.outside, p)
    ensures
      var all := Continued(events, replies, n);
      var s := Run(env, all);
      && !s.inner.pumping && s.inner.phase == (if env.plaintext then PlainData else Data) && s.inner.writer
      && s.connects == [Dial(p.req, p.egress)] && s.written == payload
      && |Gave(env, all)| == 1 && s.sent == Due(false, Gave(env, all))
  {
    n := EndsAsJudged(env, events, replies);
    p := HeaderCarried(env, Received(events), h, payload);
  }

  /** A client that sends a legal UDP header and a payload is served: the payload is taken apart
      in buffers, their packets are asked of the target the header spells, and every reply is
      passed on. */
  lemma UdpServed(env: Env, events: seq<Event>, replies: nat -> bytes, h: V.Header, payload: bytes)
    returns (n: nat, p: V.Parsed)
    requires Undisturbed(env, events) && V.Legal(h, env.outside) && h.command == 2
    requires Carries(env, Received(events), V.Encode(h) + payload)
    ensures V.Means(h, env.outside, p)
    ensures
      var all := Continued(events, replies, n);
      var s := Run(env, all);
      && !s.inner.pumping && s.inner.phase == (if env.plaintext then PlainUdp else Udp)
      && s.connects == [] && s.inner.udpTarget == Some(p.req)
      && Concat(s.udp.buffers) == payload && s.udp.queries == AllPackets(s.udp.buffers)
      && |Gave(env, all)| == |s.udp.queries| && s.sent == Due(true, Gave(env, all))
  {
    n := EndsAsJudged(env, events, replies);
    p := HeaderCarried(env, Received(events), h, payload);
  }
}
