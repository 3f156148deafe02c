/** The whole-run claims about a session: for every sequence of events, whatever its
    interleaving of frames, completions, failures, closes and download records. */
module SessionClaims {
  import opened Bytes
  import opened Nonce
  import opened Records
  import opened Inbound
  import opened Session
  import opened Payload
  import opened SessionInvariant
  import opened SessionSafety
  import H = Handshake
  import V = Vless

  // ---------------------------------------------------------------- upload order

  lemma Upstream(env: Env, s: Session)
    requires Inv(env, s)
    ensures Remains(env, s) && (s.written == [] || Delivered(env, s))
    ensures s.seals == Nonces(|s.seals|)
  {
    if !s.pc.Idle? {
      CanFail(env, s);
    } else if !s.inner.phase.Closed? && !s.inner.phase.Handshake? {
      SettledRemains(env, s);
    }
  }

  /** The plaintext so far is the beginning of what the accepted bytes carry. */
  lemma RemainsStream(env: Env, s: Session)
    requires Remains(env, s)
    ensures s.pts <= Stream(env, s.rx)
  {
    if !env.plaintext && s.inner.keys.Some? {
      var key := s.inner.keys.value.r;
      var stream := s.rx[HelloEnd(env, s.rx)..];
      PrefixSplit(WireAll(s.recs), stream);
      DeframeWire(s.recs, stream[|WireAll(s.recs)|..]);
      var all := Deframe(stream).recs;
      assert all[..|s.recs|] == s.recs;
      PlaintextExtends(env, key, all, |s.recs|);
    }
  }

  lemma RemainsOwed(env: Env, s: Session)
    requires Remains(env, s) && Delivered(env, s)
    ensures s.written <= Owed(env, s.rx)
  {
    RemainsStream(env, s);
    BehindHeaderExtends(env, s.pts, Stream(env, s.rx));
  }

  /** At every moment of every run, what the target has been given is a prefix of what
      the accepted bytes owe it: nothing lost, repeated or reordered on the way. */
  lemma UploadLinear(env: Env, events: seq<Event>)
    ensures Run(env, events).written <= Owed(env, Run(env, events).rx)
  {
    var s := Run(env, events);
    RunKeeps(env, events);
    Upstream(env, s);
    if s.written != [] {
      RemainsOwed(env, s);
    }
  }

  /** With nothing left to work on, all that is owed is in the plaintext so far. */
  lemma SettledOwed(env: Env, s: Session)
    requires Settled(env, s) && if env.plaintext then Window(s.inner) == [] else PeekRecord(Window(s.inner)).Incomplete?
    ensures Owed(env, s.rx) == BehindHeader(env, s.pts)
  {
    if env.plaintext {
      NilRight(s.pts);
    } else {
      var w := Window(s.inner);
      NilLeft(w);
      DeframeWire(s.recs, w);
      DeframeNone(w);
      NilRight(s.recs);
    }
  }

  /** When a TCP upload has no pump running, nothing is held back: all of it is delivered. */
  lemma UploadComplete(env: Env, events: seq<Event>)
    requires !Run(env, events).inner.pumping
    requires Run(env, events).inner.phase.Data? || Run(env, events).inner.phase.PlainData?
    ensures Run(env, events).written == Owed(env, Run(env, events).rx)
  {
    RunKeeps(env, events);
    SettledOwed(env, Run(env, events));
  }

  // ---------------------------------------------------------------- no lost wake-up

  /** Bytes a pump could act on: a whole clientHello or a refusable one, a header that
      parses or must be refused, a record or a malformed one, any raw byte. */
  ghost predicate Processable(env: Env, s: State) {
    match s.phase
    case Closed => false
    case Handshake => !H.ReadHello(env.crypto, s.buf).NeedMore?
    case PlainHeader => !V.TryHeader(Window(s), env.outside).More?
    case PlainData | PlainUdp => |Window(s)| > 0
    case Header | Data | Udp => !PeekRecord(Window(s)).Incomplete?
  }

  /** No interleaving puts the session to sleep on work. */
  lemma NoLostWakeup(env: Env, events: seq<Event>)
    requires !Run(env, events).inner.pumping
    ensures !Processable(env, Run(env, events).inner)
  {
    RunKeeps(env, events);
  }

  /** Nor does waking a sleeping session achieve anything: another pump would only go
      back to sleep, with the same bytes buffered and nothing sent. */
  lemma WakingIsIdle(env: Env, events: seq<Event>)
    requires !Run(env, events).inner.pumping && !Run(env, events).inner.phase.Closed?
    ensures var s := Run(env, events);
            Drive(env, s.(inner := s.inner.(pumping := true))) == s.(inner := Compacted(s.inner))
  {
    RunKeeps(env, events);
    var s := Run(env, events);
    var woken := s.(inner := s.inner.(pumping := true));
    assert Window(woken.inner) == Window(s.inner);
  }

  // ---------------------------------------------------------------- write nonces

  /** All seals under the write key, by the handshake, the pump and the download loop
      together, use the nonces 1, 2, 3, … in order. */
  lemma WriteNoncesInOrder(env: Env, events: seq<Event>)
    ensures Run(env, events).seals == Nonces(|Run(env, events).seals|)
  {
    RunKeeps(env, events);
    Upstream(env, Run(env, events));
  }

  lemma WriteNoncesDistinct(env: Env, events: seq<Event>, i: nat, j: nat)
    requires i < j < |Run(env, events).seals| && j < NONCE_SPACE - 1
    ensures Run(env, events).seals[i] != Run(env, events).seals[j]
  {
    WriteNoncesInOrder(env, events);
    ListedDistinct(|Run(env, events).seals|, i, j);
  }

  // ---------------------------------------------------------------- received frames

  function Received(events: seq<Event>): bytes {
    if |events| == 0 then []
    else
      var front := Received(events[..|events| - 1]);
      match events[|events| - 1]
      case Frame(data) => front + data
      case _ => front
  }

  ghost predicate NoFrameAfterClose(events: seq<Event>) {
    forall i, j :: 0 <= i < j < |events| && events[i].Close? ==> !events[j].Frame?
  }

  ghost predicate NoClose(events: seq<Event>) {
    forall i :: 0 <= i < |events| ==> !events[i].Close?
  }

  lemma StepAcceptance(env: Env, s: Session, e: Event)
    requires Inv(env, s)
    ensures Step(env, s, e).rx == if e.Frame? && !s.inner.phase.Closed? then s.rx + e.data else s.rx
    ensures !e.Close? && (s.inner.phase.Closed? ==> s.pc.Idle?)
        ==> (Step(env, s, e).inner.phase.Closed? ==> Step(env, s, e).pc.Idle?)
    ensures s.inner.phase.Closed? && s.pc.Idle?
        ==> Step(env, s, e).inner.phase.Closed? && Step(env, s, e).pc.Idle?
  {
    match e
    case Frame(data) => MessageAcceptance(env, s, data);
    case Complete(o) => ResumeAcceptance(env, s, o);
    case _ =>
  }

  ghost predicate Quiet(s: Session, t: Session) {
    t.rx == s.rx && (t.inner.phase.Closed? ==> s.inner.phase.Closed? || t.pc.Idle?)
  }

  lemma HandleUdpQuiet(env: Env, s: Session, p: bytes, fromInitial: bool)
    ensures Quiet(s, HandleUdp(env, s, p, fromInitial))
    decreases |s.inner.buf| - s.inner.pos, 2
  {
    if s.inner.udpTarget.Some? && (|p| < 2 || |p| < 2 + H.DecodeLength(p)) {
      AfterUdpQuiet(env, s, fromInitial);
    }
  }

  lemma AfterUdpQuiet(env: Env, s: Session, fromInitial: bool)
    ensures Quiet(s, AfterUdp(env, s, fromInitial))
    decreases |s.inner.buf| - s.inner.pos, 1
  {
    if env.plaintext && !(fromInitial && !s.inner.phase.PlainUdp?) {
      NextPacketQuiet(env, s);
    }
  }

  lemma NextPacketQuiet(env: Env, s: Session)
    ensures Quiet(s, NextPacket(env, s))
    decreases |s.inner.buf| - s.inner.pos, 0
  {
    if |Window(s.inner)| > 0 {
      HandleUdpQuiet(env, Taken(TakeAll(s), Window(s.inner)), Window(s.inner), false);
    }
  }

  lemma DriveDataQuiet(env: Env, s: Session)
    ensures Quiet(s, DriveData(env, s))
  {
    if s.inner.phase.PlainUdp? {
      NextPacketQuiet(env, s);
    }
  }

  lemma UdpEstablishedQuiet(env: Env, s: Session, req: V.VlessRequest, initial: bytes)
    ensures Quiet(s, UdpEstablished(env, s, req, initial))
  {
    var phase := if env.plaintext then PlainUdp else Udp;
    var ready := Sending(s, V.VLESS_RESPONSE).(inner := s.inner.(udpTarget := Some(req), phase := phase));
    HandleUdpQuiet(env, Taken(ready, initial), initial, true);
    DriveDataQuiet(env, ready);
  }

  lemma EstablishQuiet(env: Env, s: Session, p: V.Parsed, initial: bytes)
    ensures Quiet(s, Establish(env, s, p, initial))
  {
    if p.req.command.Udp? {
      UdpEstablishedQuiet(env, s, p.req, initial);
    }
  }

  lemma DriveQuiet(env: Env, s: Session)
    ensures Quiet(s, Drive(env, s))
  {
    match s.inner.phase
    case PlainHeader =>
      var a := V.TryHeader(Window(s.inner), env.outside);
      if a.Accepted? {
        EstablishQuiet(env, s.(inner := s.inner.(buf := [], pos := 0), pts := Window(s.inner)), a.parsed, a.initial);
      }
    case Handshake =>
    case Header =>
    case _ => DriveDataQuiet(env, s);
  }

  lemma MessageAcceptance(env: Env, s: Session, data: bytes)
    requires Inv(env, s)
    ensures Message(env, s, data).rx == if s.inner.phase.Closed? then s.rx else s.rx + data
    ensures !s.inner.phase.Closed? && Message(env, s, data).inner.phase.Closed? ==> Message(env, s, data).pc.Idle?
  {
    if !s.inner.phase.Closed? && s.pc.Idle? {
      var got := s.(rx := s.rx + data);
      DriveQuiet(env, got.(inner := Compacted(s.inner).(buf := Window(s.inner) + data, pumping := true)));
    }
  }

  lemma TcpEstablishedQuiet(env: Env, s: Session, counter: Option<Counter>)
    ensures Quiet(s, TcpEstablished(env, s, counter))
  {
    var phase := if env.plaintext then PlainData else Data;
    DriveDataQuiet(env, s.(download := counter, inner := s.inner.(writer := true, phase := phase)));
  }

  lemma HeaderTriedQuiet(env: Env, s: Session)
    ensures Quiet(s, HeaderTried(env, s))
  {
    var a := V.TryHeader(s.inner.acc, env.outside);
    if a.Accepted? {
      EstablishQuiet(env, s.(inner := s.inner.(acc := [])), a.parsed, a.initial);
    }
  }

  lemma RecordOpenedQuiet(env: Env, s: Session, purpose: Purpose, rec: Rec, pt: bytes)
    ensures Quiet(s, RecordOpened(env, s, purpose, rec, pt))
  {
    var s' := s.(recs := s.recs + [rec], pts := s.pts + pt);
    match purpose
    case ForData =>
    case ForUdp => HandleUdpQuiet(env, Taken(s', pt), pt, false);
    case ForHeader =>
      HeaderTriedQuiet(env, s'.(inner := s.inner.(acc := s.inner.acc + pt)));
  }

  lemma ContinueQuiet(env: Env, s: Session, reply: bytes)
    requires !s.pc.Idle? && !s.pc.QueryUdp?
    ensures Quiet(s, Continue(env, s, reply))
  {
    match s.pc
    case ImportKeys(_, _) =>
    case OpenRecord(purpose, rec, nonce) =>
      if s.inner.keys.Some? && env.open(s.inner.keys.value.r, nonce, rec.hdr, rec.body).Some? {
        RecordOpenedQuiet(env, s, purpose, rec, env.open(s.inner.keys.value.r, nonce, rec.hdr, rec.body).value);
      }
    case ConnectTarget(_) => TcpEstablishedQuiet(env, HeadSent(s, reply), None);
    case WriteInitial(leftover) => TcpEstablishedQuiet(env, HeadSent(s, leftover), None);
    case SealResponse(_, n) => TcpEstablishedQuiet(env, Sending(s, V.VLESS_RESPONSE), Some(n));
    case SealLeftover(leftover, n) => TcpEstablishedQuiet(env, Sending(s, leftover), Some(n));
    case WriteData =>
    case SealUdpResponse(req, initial, n) =>
      UdpEstablishedQuiet(env, s.(inner := s.inner.(nonceW := n)), req, initial);
    case SealUdpReply(reply', rest, n, fromInitial) =>
      HandleUdpQuiet(env, Sending(s, Framed(reply')).(inner := s.inner.(nonceW := n)), rest, fromInitial);
  }

  lemma ResumeAcceptance(env: Env, s: Session, o: Outcome)
    ensures s.pc.Idle? ==> Resume(env, s, o) == s
    ensures Quiet(s, Resume(env, s, o))
  {
    match s.pc
    case Idle =>
    case QueryUdp(rest, fromInitial) =>
      HandleUdpQuiet(env, s, rest, fromInitial);
      HandleUdpQuiet(env, Sending(s, Framed(o.bytes)), rest, fromInitial);
    case _ =>
      if o.ok {
        ContinueQuiet(env, s, o.bytes);
      }
  }

  /** With no frame behind a close, the session accepts the frames in arrival order: all
      of them while it lives, and the ones before its failure otherwise. */
  lemma {:induction false} FramesInOrder(env: Env, events: seq<Event>)
    requires NoFrameAfterClose(events)
    ensures Run(env, events).rx <= Received(events)
    ensures NoClose(events) ==> (Run(env, events).inner.phase.Closed? ==> Run(env, events).pc.Idle?)
    ensures !Run(env, events).inner.phase.Closed? || !Run(env, events).pc.Idle?
        ==> Run(env, events).rx == Received(events)
  {
    if |events| > 0 {
      var front, e := events[..|events| - 1], events[|events| - 1];
      FramesInOrder(env, front);
      RunKeeps(env, front);
      StepAcceptance(env, Run(env, front), e);
      if e.Frame? {
        assert NoClose(front);
      }
    }
  }

  /** The upload claim in terms of the frames sent: as long as none arrives behind a close,
      the target sees a prefix of the payload of all of them, in arrival order. */
  lemma UploadOfFrames(env: Env, events: seq<Event>)
    requires NoFrameAfterClose(events)
    ensures Run(env, events).written <= Owed(env, Received(events))
  {
    UploadLinear(env, events);
    FramesInOrder(env, events);
    var rx := Run(env, events).rx;
    PrefixSplit(rx, Received(events));
    OwedExtends(env, rx, Received(events)[|rx|..]);
  }

  // ---------------------------------------------------------------- how a session ends

  /** What an observer sees of two sessions is the same, but for what the download loop seals. */
  ghost predicate SameSeen(s: Session, t: Session) {
    && t.rx == s.rx && t.connects == s.connects && t.written == s.written && t.sent == s.sent && t.udp == s.udp
    && t.recs == s.recs && t.pts == s.pts
  }

  ghost predicate Ended(s: Session) {
    s.inner.phase.Closed? && s.pc.Idle? && !s.inner.writer
  }

  lemma RunSnoc(env: Env, events: seq<Event>, e: Event)
    ensures Run(env, events + [e]) == Step(env, Run(env, events), e)
  {
    assert (events + [e])[..|events|] == events;
  }

  lemma EndedStep(env: Env, s: Session, e: Event)
    requires Ended(s)
    ensures Ended(Step(env, s, e)) && SameSeen(s, Step(env, s, e))
  {
  }

  /** A session that has ended takes nothing in and hands nothing on any more. */
  lemma {:induction false} EndedStays(env: Env, events: seq<Event>, more: seq<Event>)
    requires Ended(Run(env, events))
    ensures Ended(Run(env, events + more)) && SameSeen(Run(env, events), Run(env, events + more))
    decreases |more|
  {
    if |more| == 0 {
      NilRight(events);
    } else {
      var front, e := more[..|more| - 1], more[|more| - 1];
      EndedStays(env, events, front);
      InitLast(more);
      Assoc(events, front, [e]);
      RunSnoc(env, events + front, e);
      EndedStep(env, Run(env, events + front), e);
    }
  }

  /** A close ends a session that is at rest: whatever happens afterwards, it accepts no frame,
      dials, writes, asks and sends nothing. */
  lemma NothingAfterClose(env: Env, events: seq<Event>, more: seq<Event>)
    requires !Run(env, events).inner.pumping
    ensures
      var t := Run(env, events + [Close] + more);
      Ended(t) && SameSeen(Run(env, events), t)
  {
    RunKeeps(env, events);
    RunSnoc(env, events, Close);
    EndedStays(env, events + [Close], more);
  }

  /** So does an awaited operation that fails, unless it is a query. */
  lemma NothingAfterFailure(env: Env, events: seq<Event>, o: Outcome, more: seq<Event>)
    requires Run(env, events).inner.pumping && !Run(env, events).pc.QueryUdp? && !o.ok
    ensures
      var t := Run(env, events + [Complete(o)] + more);
      Ended(t) && SameSeen(Run(env, events), t)
  {
    RunKeeps(env, events);
    RunSnoc(env, events, Complete(o));
    EndedStays(env, events + [Complete(o)], more);
  }
}
