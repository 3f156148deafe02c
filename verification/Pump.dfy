/** The code of `relay/src/session.rs` in its own shape: `websocket_message`, `pump`, `drive`,
    `drive_plain`, `establish` and `handle_udp_frames` as loops over the fields of `Inner`,
    suspended at their awaits while other events are delivered. It runs the step machine. */
module Pump {
  import opened Bytes
  import opened Nonce
  import opened Records
  import opened Inbound
  import opened Session
  import M = Session
  import opened SessionSafety
  import H = Handshake
  import V = Vless

  /** How a call comes back: it needs more bytes, it went on to the next phase, it failed, or
      its await never completes. */
  datatype Flow = Waiting | Onward | Failed | Asleep

  predicate PlainPhase(p: Phase) {
    p.PlainHeader? || p.PlainData? || p.PlainUdp?
  }

  predicate DataPhase(p: Phase) {
    p.Data? || p.Udp? || p.PlainData? || p.PlainUdp? || p.Closed?
  }

  /** What an await may change: frames are appended, the session may be closed, the download
      loop may seal. */
  ghost predicate Waited(s: Session, t: Session) {
    && s.inner.buf <= t.inner.buf
    && (t.inner.phase == s.inner.phase || t.inner.phase.Closed?)
    && t.inner.pos == s.inner.pos && t.inner.pumping == s.inner.pumping
    && t.inner.keys == s.inner.keys && t.inner.nonceW == s.inner.nonceW && t.inner.nonceR == s.inner.nonceR
    && t.inner.acc == s.inner.acc && t.inner.udpTarget == s.inner.udpTarget
    && t.pc == s.pc && t.recs == s.recs && t.pts == s.pts && t.written == s.written && t.udp == s.udp
    && t.connects == s.connects && t.sent == s.sent
  }

  lemma WaitedOn(s: Session, t: Session, u: Session)
    requires Waited(s, t) && Waited(t, u)
    ensures Waited(s, u)
  {
  }

  lemma PendingCompacted(s: State)
    ensures HasPending(Compacted(s)) <==> HasPending(s)
  {
    assert Window(Compacted(s)) == Window(s);
  }

  class Relay {
    const env: Env
    const events: seq<Event>
    const random: nat
    const inner: Inner
    var next: nat
    var rx: bytes
    var recs: seq<Rec>
    var pts: bytes
    var connects: seq<Dial>
    var written: bytes
    var sent: seq<bytes>
    var udp: UdpLog
    var seals: seq<Counter>
    var download: Option<Counter>
    ghost var pc: Pc

    ghost predicate Valid()
      reads this, inner
    {
      && inner.Valid() && next <= |events|
      && (inner.phase.Closed? || (env.plaintext <==> PlainPhase(inner.phase)))
    }

    ghost function View(): Session
      requires Valid()
      reads this, inner
    {
      Session(inner.View(), pc, rx, recs, pts, connects, written, sent, udp, seals, download)
    }

    /** The step machine after the events delivered so far. */
    ghost function Target(): Session
      requires next <= |events|
      reads `next
    {
      Run(env, events[..next])
    }

    constructor (env: Env, events: seq<Event>, random: nat)
      ensures Valid() && fresh(inner) && next == 0 && pc.Idle? && !inner.pumping && View() == Target()
      ensures this.env == env && this.events == events
    {
      this.env, this.events, this.random := env, events, random;
      inner := new Inner(env.plaintext);
      next, rx, recs, pts, connects, written, sent := 0, [], [], [], [], [], [];
      udp, seals, download := UdpLog([], []), [], None;
      pc := Idle;
    }

    // -------------------------------------------------------------- delivery while suspended

    method Cleanup()
      requires Valid()
      modifies inner
      ensures Valid() && View() == M.Cleanup(old(View()))
      ensures inner.pumping == old(inner.pumping)
    {
      inner.phase := Closed;
      inner.writer := false;
    }

    method SealDownload()
      requires Valid()
      modifies this
      ensures Valid() && View() == DownloadSeal(old(View())) && next == old(next) && pc == old(pc)
    {
      if download.Some? {
        var n := NextNonce(download.value);
        seals := seals + [n];
        download := Some(n);
      }
    }

    /** An event that does not complete the await: a frame queues behind the pump. */
    method Deliver(e: Event)
      requires Valid() && inner.pumping && !e.Complete?
      modifies this, inner
      ensures Valid() && inner.pumping && next == old(next)
      ensures View() == Step(env, old(View()), e) && Waited(old(View()), View())
    {
      match e
      case Frame(data) =>
        if inner.phase != Closed {
          rx := rx + data;
        }
        var _ := inner.Enqueue(data);
      case Text =>
      case Close => Cleanup();
      case Download => SealDownload();
    }

    lemma TargetStep()
      requires next < |events|
      ensures Run(env, events[..next + 1]) == Step(env, Target(), events[next])
    {
      assert events[..next + 1][..next] == events[..next];
    }

    /** The next event, which does not complete the await. */
    method DeliverNext(ghost s: Session)
      requires Valid() && inner.pumping && next < |events| && !events[next].Complete?
      requires Target() == View() && Waited(s, View())
      modifies this, inner
      ensures Valid() && inner.pumping && next == old(next) + 1 && Target() == View() && Waited(s, View())
    {
      ghost var before := View();
      TargetStep();
      next := next + 1;
      Deliver(events[next - 1]);
      WaitedOn(s, before, View());
    }

    /** An await of the pump at `p`. */
    method Await(ghost p: Pc) returns (woke: bool, o: Outcome)
      requires Valid() && inner.pumping && Target() == View().(pc := p)
      modifies this, inner
      ensures Valid() && inner.pumping && pc == p && Waited(old(View()).(pc := p), View())
      ensures next >= old(next)
      ensures woke ==> next > old(next) && Target() == Resume(env, View(), o)
      ensures !woke ==> next == |events| && Target() == View()
    {
      pc := p;
      woke, o := false, Outcome(false, []);
      ghost var s := View();
      while next < |events|
        invariant Valid() && inner.pumping && Target() == View() && Waited(s, View()) && next >= old(next)
      {
        if events[next].Complete? {
          TargetStep();
          next := next + 1;
          return true, events[next - 1].outcome;
        }
        DeliverNext(s);
      }
    }

    /** An await that fails the pump unless it works; a UDP query alone may fail. */
    method AwaitDone(ghost p: Pc) returns (f: Flow, reply: bytes)
      requires Valid() && inner.pumping && Target() == View().(pc := p) && !p.Idle? && !p.QueryUdp?
      modifies this, inner
      ensures Valid() && inner.pumping && pc == p && Waited(old(View()).(pc := p), View())
      ensures next >= old(next) && !f.Waiting?
      ensures if f.Onward? then next > old(next) && Target() == Continue(env, View(), reply) else Ended(f)
    {
      var woke, o := Await(p);
      if !woke {
        return Asleep, [];
      }
      return if o.ok then Onward else Failed, o.bytes;
    }

    /** How a call ends that does not go on. */
    ghost predicate Ended(f: Flow)
      requires Valid()
      reads this, inner
    {
      match f
      case Waiting => Target() == DriveDone(View()) && (inner.phase.Closed? || !HasPending(inner.View()))
      case Failed => Target() == Fail(View())
      case Asleep => Target() == View() && next == |events|
      case Onward => false
    }

    /** What calls behind the handshake leave alone. */
    twostate predicate Kept()
      reads this, inner
    {
      && inner.pumping && next >= old(next) && inner.keys == old(inner.keys)
      && (inner.phase == old(inner.phase) || inner.phase.Closed?)
    }

    // -------------------------------------------------------------- one await each

    /** `take_record` and the decryption of what it found. */
    method OpenNext(ghost purpose: Purpose) returns (f: Flow, rec: Rec, pt: bytes)
      requires Valid() && inner.pumping && !env.plaintext && inner.keys.Some?
      requires Target() == NextRecord(View(), purpose)
      modifies this, inner
      ensures Valid() && Kept() && recs == old(recs) && pts == old(pts)
      ensures
        if f.Onward? then next > old(next) && Target() == RecordOpened(env, View(), purpose, rec, pt) else Ended(f)
    {
      rec, pt := Rec([], []), [];
      var front := inner.TakeRecord();
      match front
      case Malformed => f := Failed;
      case Incomplete => f := Waiting;
      case Ready(r) => f, rec, pt := OpenBody(purpose, r);
    }

    method OpenBody(ghost purpose: Purpose, r: Rec) returns (f: Flow, rec: Rec, pt: bytes)
      requires Valid() && inner.pumping && !env.plaintext && inner.keys.Some?
      requires Target() == View().(pc := OpenRecord(purpose, r, inner.nonceR))
      modifies this, inner
      ensures Valid() && Kept() && recs == old(recs) && pts == old(pts) && !f.Waiting?
      ensures
        if f.Onward? then next > old(next) && Target() == RecordOpened(env, View(), purpose, rec, pt) else Ended(f)
    {
      rec, pt := r, [];
      var nonce := inner.nonceR;
      var reply;
      f, reply := AwaitDone(OpenRecord(purpose, r, nonce));
      if !f.Onward? {
        return;
      }
      var body := env.open(inner.keys.value.r, nonce, r.hdr, r.body);
      if body.None? {
        return Failed, rec, pt;
      }
      return Onward, r, body.value;
    }

    /** `target_write_js` of one chunk. */
    method AwaitWrite() returns (f: Flow)
      requires Valid() && inner.pumping && Target() == View().(pc := WriteData)
      modifies this, inner
      ensures Valid() && Kept() && !f.Waiting? && (f.Onward? ==> next > old(next))
      ensures f.Onward? ==> Target() == if env.plaintext then NextChunk(View()) else NextRecord(View(), ForData)
      ensures !f.Onward? ==> Ended(f)
    {
      var reply;
      f, reply := AwaitDone(WriteData);
    }

    /** One message of the data stream goes down to the client. */
    method Send(message: bytes)
      requires Valid()
      modifies this`sent
      ensures Valid() && View() == Sending(old(View()), message)
    {
      sent := sent + [message];
    }

    /** Sealing one UDP reply under the next write nonce. */
    method SealReply(reply: bytes, p: bytes, ghost fromInitial: bool) returns (f: Flow)
      requires Valid() && inner.pumping && inner.keys.Some?
      requires
        var n := Successor(inner.nonceW);
        Target() == View().(seals := seals + [n], pc := SealUdpReply(reply, p, n, fromInitial))
      modifies this, inner
      ensures Valid() && Kept() && inner.udpTarget == old(inner.udpTarget) && !f.Waiting?
      ensures if f.Onward? then Target() == HandleUdp(env, View(), p, fromInitial) else Ended(f)
    {
      var n := NextNonce(inner.nonceW);
      seals := seals + [n];
      f := AwaitReply(reply, p, n, fromInitial);
      if f.Onward? {
        SetNonce(n);
        Send(Framed(reply));
      }
    }

    method AwaitReply(ghost reply: bytes, ghost p: bytes, ghost n: Counter, ghost fromInitial: bool) returns (f: Flow)
      requires Valid() && inner.pumping && Target() == View().(pc := SealUdpReply(reply, p, n, fromInitial))
      modifies this, inner
      ensures Valid() && Kept() && inner.udpTarget == old(inner.udpTarget) && !f.Waiting?
      ensures f.Onward? ==>
        Target() == HandleUdp(env, Sending(View(), Framed(reply)).(inner := View().inner.(nonceW := n)), p, fromInitial)
      ensures !f.Onward? ==> Ended(f)
    {
      var nothing;
      f, nothing := AwaitDone(SealUdpReply(reply, p, n, fromInitial));
    }

    method LogBuffer(buffer: bytes)
      requires Valid()
      modifies this`udp
      ensures Valid() && View() == Taken(old(View()), buffer)
    {
      udp := udp.(buffers := udp.buffers + [buffer]);
    }

    method LogQuery(packet: bytes)
      requires Valid()
      modifies this`udp
      ensures Valid() && View() == old(View()).(udp := old(udp).(queries := old(udp).queries + [packet]))
    {
      udp := udp.(queries := udp.queries + [packet]);
    }

    /** One UDP query and, if it has a reply and the mode seals, the sealing of it. */
    method AnswerPacket(packet: bytes, p: bytes, ghost fromInitial: bool) returns (f: Flow)
      requires Valid() && inner.pumping && inner.udpTarget.Some?
      requires Target() == Asking(View(), packet, p, fromInitial)
      modifies this, inner
      ensures Valid() && Kept() && inner.udpTarget == old(inner.udpTarget) && !f.Waiting?
      ensures f.Onward? ==> next > old(next)
      ensures if f.Onward? then Target() == HandleUdp(env, View(), p, fromInitial) else Ended(f)
    {
      LogQuery(packet);
      var woke, o := Await(QueryUdp(p, fromInitial));
      if !woke {
        return Asleep;
      }
      if o.ok && |o.bytes| > 0 {
        if inner.keys.Some? {
          f := SealReply(o.bytes, p, fromInitial);
          return;
        }
        Send(Framed(o.bytes));
      }
      return Onward;
    }

    /** The packet at the head of what is left of a buffer. */
    method AskNext(p: bytes, ghost fromInitial: bool) returns (f: Flow, rest: bytes)
      requires Valid() && inner.pumping && inner.udpTarget.Some?
      requires |p| >= 2 && |p| >= 2 + H.DecodeLength(p) && Target() == HandleUdp(env, View(), p, fromInitial)
      modifies this, inner
      ensures Valid() && Kept() && inner.udpTarget == old(inner.udpTarget) && !f.Waiting? && |rest| < |p|
      ensures f.Onward? ==> next > old(next)
      ensures if f.Onward? then Target() == HandleUdp(env, View(), rest, fromInitial) else Ended(f)
    {
      var l := H.DecodeLength(p);
      rest := p[2 + l..];
      f := AnswerPacket(p[2..2 + l], rest, fromInitial);
    }

    // -------------------------------------------------------------- the loops

    /** One record's plaintext goes upstream. */
    method WriteRecord(rec: Rec, pt: bytes) returns (f: Flow)
      requires Valid() && inner.pumping && !env.plaintext && Target() == RecordOpened(env, View(), ForData, rec, pt)
      modifies this, inner
      ensures Valid() && Kept() && !f.Waiting?
      ensures if f.Onward? then next > old(next) && Target() == NextRecord(View(), ForData) else Ended(f)
    {
      recs := recs + [rec];
      pts := pts + pt;
      written := written + pt;
      f := AwaitWrite();
    }

    /** Data (TCP): records are opened and written upstream until none is complete. */
    method DataLoop() returns (f: Flow)
      requires Valid() && inner.pumping && !env.plaintext && inner.keys.Some?
      requires Target() == NextRecord(View(), ForData)
      modifies this, inner
      ensures Valid() && Kept() && Ended(f)
    {
      while true
        invariant Valid() && Kept() && inner.keys.Some? && Target() == NextRecord(View(), ForData)
        decreases |events| - next
      {
        var rec, pt;
        f, rec, pt := OpenNext(ForData);
        if !f.Onward? {
          return;
        }
        f := WriteRecord(rec, pt);
        if !f.Onward? {
          return;
        }
      }
    }

    /** `handle_udp_frames`: the packets of one buffer, a trailing partial one dropped. */
    method HandleUdpFrames(pt: bytes, ghost fromInitial: bool) returns (f: Flow)
      requires Valid() && inner.pumping && Target() == HandleUdp(env, Taken(View(), pt), pt, fromInitial)
      modifies this, inner
      ensures Valid() && Kept() && !f.Waiting?
      ensures f.Onward? ==> next > old(next) || (inner.buf == old(inner.buf) && inner.pos == old(inner.pos))
      ensures if f.Onward? then Target() == AfterUdp(env, View(), fromInitial) else Ended(f)
    {
      LogBuffer(pt);
      if inner.udpTarget.None? {
        return Failed;
      }
      var p := pt;
      while |p| >= 2
        invariant Valid() && Kept() && inner.udpTarget.Some?
        invariant next > old(next) || (inner.buf == old(inner.buf) && inner.pos == old(inner.pos))
        invariant Target() == HandleUdp(env, View(), p, fromInitial)
        decreases |p|
      {
        if |p| < 2 + H.DecodeLength(p) {
          break;
        }
        f, p := AskNext(p, fromInitial);
        if !f.Onward? {
          return;
        }
      }
      return Onward;
    }

    /** Data (UDP): records are opened and their packets answered. */
    method UdpLoop() returns (f: Flow)
      requires Valid() && inner.pumping && !env.plaintext && inner.keys.Some?
      requires Target() == NextRecord(View(), ForUdp)
      modifies this, inner
      ensures Valid() && Kept() && Ended(f)
    {
      while true
        invariant Valid() && Kept() && inner.keys.Some? && Target() == NextRecord(View(), ForUdp)
        decreases |events| - next
      {
        var rec, pt;
        f, rec, pt := OpenNext(ForUdp);
        if !f.Onward? {
          return;
        }
        recs := recs + [rec];
        pts := pts + pt;
        f := HandleUdpFrames(pt, false);
        if !f.Onward? {
          return;
        }
      }
    }

    /** Everything buffered goes upstream. */
    method WriteChunk() returns (f: Flow)
      requires Valid() && inner.pumping && env.plaintext && Target() == NextChunk(View()) && inner.pos < |inner.buf|
      modifies this, inner
      ensures Valid() && Kept() && !f.Waiting?
      ensures if f.Onward? then next > old(next) && Target() == NextChunk(View()) else Ended(f)
    {
      var chunk := inner.buf[inner.pos..];
      inner.pos := |inner.buf|;
      pts := pts + chunk;
      written := written + chunk;
      f := AwaitWrite();
    }

    /** Data (TCP, plaintext): everything buffered goes upstream as one chunk, until nothing is. */
    method ChunkLoop() returns (f: Flow)
      requires Valid() && inner.pumping && env.plaintext && Target() == NextChunk(View())
      modifies this, inner
      ensures Valid() && Kept() && Ended(f)
    {
      while true
        invariant Valid() && Kept() && Target() == NextChunk(View())
        decreases |events| - next
      {
        if inner.pos == |inner.buf| {
          return Waiting;
        }
        f := WriteChunk();
        if !f.Onward? {
          return;
        }
      }
    }

    method TakeBuffer()
      requires Valid()
      modifies this, inner
      ensures Valid() && inner.pumping == old(inner.pumping) && next == old(next)
      ensures inner.phase == old(inner.phase) && inner.keys == old(inner.keys)
      ensures inner.buf == old(inner.buf) && inner.pos == |inner.buf|
      ensures View() == TakeAll(old(View()))
    {
      pts := pts + inner.buf[inner.pos..];
      inner.pos := |inner.buf|;
    }

    /** Data (UDP, plaintext): each buffer is taken whole. */
    method PacketLoop() returns (f: Flow)
      requires Valid() && inner.pumping && env.plaintext && Target() == NextPacket(env, View())
      modifies this, inner
      ensures Valid() && Kept() && Ended(f)
    {
      while true
        invariant Valid() && Kept() && Target() == NextPacket(env, View())
        decreases |events| - next, |inner.buf| - inner.pos
      {
        if inner.pos == |inner.buf| {
          return Waiting;
        }
        var pt := inner.buf[inner.pos..];
        TakeBuffer();
        f := HandleUdpFrames(pt, false);
        if !f.Onward? {
          return;
        }
      }
    }

    // -------------------------------------------------------------- establish

    /** The contract of `establish`: the session is in a data phase, or closed meanwhile. */
    ghost predicate Established(f: Flow)
      requires Valid()
      reads this, inner
    {
      if f.Onward? then Target() == DriveData(env, View()) && DataPhase(inner.phase) else Ended(f)
    }

    /** `establish` and `establish_plain` */
    method Establish(p: V.Parsed, initial: bytes) returns (f: Flow)
      requires Valid() && inner.pumping && Target() == M.Establish(env, View(), p, initial)
      modifies this, inner
      ensures Valid() && inner.pumping && next >= old(next) && !f.Waiting? && Established(f)
    {
      if !env.plaintext && inner.keys.None? {
        return Failed;
      }
      match p.req.command
      case Mux => f := Failed;
      case Tcp => f := EstablishTcp(p, initial);
      case Udp => f := EstablishUdp(p, initial);
    }

    /** Connect, then the payload behind the header goes up, then the response comes down. */
    method EstablishTcp(p: V.Parsed, initial: bytes) returns (f: Flow)
      requires Valid() && inner.pumping && Target() == Dialling(View(), p, initial)
      modifies this, inner
      ensures Valid() && inner.pumping && next >= old(next) && !f.Waiting? && Established(f)
    {
      var leftover;
      f, leftover := ConnectTo(p, initial);
      if !f.Onward? {
        return;
      }
      if |initial| > 0 {
        f := WriteHeaderRest(initial, leftover);
        if !f.Onward? {
          return;
        }
      }
      f := Respond(leftover);
    }

    method ConnectTo(p: V.Parsed, ghost initial: bytes) returns (f: Flow, leftover: bytes)
      requires Valid() && inner.pumping && Target() == Dialling(View(), p, initial)
      modifies this, inner
      ensures Valid() && inner.pumping && pc == ConnectTarget(initial) && next >= old(next) && !f.Waiting?
      ensures if f.Onward? then Target() == Continue(env, View(), leftover) else Ended(f)
    {
      connects := connects + [Dial(p.req, p.egress)];
      f, leftover := AwaitDone(ConnectTarget(initial));
    }

    /** The payload behind the header. */
    method WriteHeaderRest(initial: bytes, ghost leftover: bytes) returns (f: Flow)
      requires Valid() && inner.pumping
      requires Target() == View().(written := written + initial, pc := WriteInitial(leftover))
      modifies this, inner
      ensures Valid() && inner.pumping && next >= old(next) && !f.Waiting?
      ensures if f.Onward? then Target() == InitialWritten(env, View(), leftover) else Ended(f)
    {
      var reply;
      written := written + initial;
      f, reply := AwaitDone(WriteInitial(leftover));
    }

    /** The VLESS response and the proxy's leftover; then the download loop is spawned with
        its copy of the write counter. */
    method Respond(leftover: bytes) returns (f: Flow)
      requires Valid() && inner.pumping && Target() == InitialWritten(env, View(), leftover)
      modifies this, inner
      ensures Valid() && inner.pumping && next >= old(next) && !f.Waiting? && Established(f)
    {
      if env.plaintext {
        SendHead(leftover);
        Spawn(None);
        return Onward;
      }
      f := SealVlessResponse(leftover);
    }

    method SendHead(leftover: bytes)
      requires Valid()
      modifies this`sent
      ensures Valid() && View() == HeadSent(old(View()), leftover)
    {
      Send(V.VLESS_RESPONSE);
      if |leftover| > 0 {
        Send(leftover);
      }
    }

    method SealVlessResponse(leftover: bytes) returns (f: Flow)
      requires Valid() && inner.pumping && !env.plaintext && Target() == InitialWritten(env, View(), leftover)
      modifies this, inner
      ensures Valid() && inner.pumping && next >= old(next) && !f.Waiting? && Established(f)
    {
      var n := NextNonce(inner.nonceW);
      seals := seals + [n];
      var reply;
      f, reply := AwaitDone(SealResponse(leftover, n));
      if !f.Onward? {
        return;
      }
      Send(V.VLESS_RESPONSE);
      if |leftover| > 0 {
        f := SendLeftover(leftover, n);
      } else {
        Spawn(Some(n));
      }
    }

    /** The download loop is spawned, and the phase assigned. */
    method Spawn(counter: Option<Counter>)
      requires Valid() && inner.pumping && Target() == TcpEstablished(env, View(), counter)
      modifies this, inner
      ensures Valid() && inner.pumping && next == old(next) && Established(Onward)
    {
      download := counter;
      EnterData();
    }

    method SendLeftover(leftover: bytes, before: Counter) returns (f: Flow)
      requires Valid() && inner.pumping && !env.plaintext
      requires Target() == View().(seals := seals + [Successor(before)], pc := M.SealLeftover(leftover, Successor(before)))
      modifies this, inner
      ensures Valid() && inner.pumping && next >= old(next) && !f.Waiting? && Established(f)
    {
      var n := NextNonce(before);
      seals := seals + [n];
      f := AwaitLeftover(leftover, n);
      if f.Onward? {
        Send(leftover);
        Spawn(Some(n));
      }
    }

    method AwaitLeftover(ghost leftover: bytes, ghost n: Counter) returns (f: Flow)
      requires Valid() && inner.pumping && Target() == View().(pc := M.SealLeftover(leftover, n))
      modifies this, inner
      ensures Valid() && inner.pumping && next >= old(next)
      ensures f.Onward? ==> Target() == TcpEstablished(env, Sending(View(), leftover), Some(n))
      ensures !f.Onward? ==> Ended(f) && !f.Waiting?
    {
      var reply;
      f, reply := AwaitDone(M.SealLeftover(leftover, n));
    }

    /** The phase is assigned whatever happened during the awaits before. */
    method EnterData()
      requires Valid()
      modifies inner
      ensures Valid() && inner.pumping == old(inner.pumping)
      ensures View() == old(View()).(inner := old(inner.View()).(writer := true, phase := if env.plaintext then PlainData else Data))
    {
      inner.writer := true;
      inner.phase := if env.plaintext then PlainData else Data;
    }

    method EstablishUdp(p: V.Parsed, initial: bytes) returns (f: Flow)
      requires Valid() && inner.pumping && (env.plaintext || inner.keys.Some?)
      requires Target() == M.Establish(env, View(), p, initial) && p.req.command.Udp?
      modifies this, inner
      ensures Valid() && inner.pumping && next >= old(next) && !f.Waiting? && Established(f)
    {
      if !env.plaintext {
        f := SealUdpOpening(p.req, initial);
        if !f.Onward? {
          return;
        }
      }
      f := EnterUdp(p.req, initial);
    }

    /** The VLESS response of a UDP session; its counter goes back to the session. */
    method SealUdpOpening(req: V.VlessRequest, initial: bytes) returns (f: Flow)
      requires Valid() && inner.pumping && !env.plaintext && inner.keys.Some?
      requires
        var n := Successor(inner.nonceW);
        Target() == View().(seals := seals + [n], pc := SealUdpResponse(req, initial, n))
      modifies this, inner
      ensures Valid() && inner.pumping && next >= old(next) && !f.Waiting? && inner.keys == old(inner.keys)
      ensures if f.Onward? then Target() == UdpEstablished(env, View(), req, initial) else Ended(f)
    {
      var n := NextNonce(inner.nonceW);
      seals := seals + [n];
      var reply;
      f, reply := AwaitDone(SealUdpResponse(req, initial, n));
      if f.Onward? {
        SetNonce(n);
      }
    }

    method SetNonce(n: Counter)
      requires Valid()
      modifies inner
      ensures Valid() && View() == old(View()).(inner := old(inner.View()).(nonceW := n))
      ensures inner.pumping == old(inner.pumping) && inner.keys == old(inner.keys)
    {
      inner.nonceW := n;
    }

    method EnterUdp(req: V.VlessRequest, initial: bytes) returns (f: Flow)
      requires Valid() && inner.pumping && (env.plaintext || inner.keys.Some?)
      requires Target() == UdpEstablished(env, View(), req, initial)
      modifies this, inner
      ensures Valid() && inner.pumping && next >= old(next) && !f.Waiting? && Established(f)
    {
      Send(V.VLESS_RESPONSE);
      SetUdp(req);
      if |initial| > 0 {
        f := HandleUdpFrames(initial, true);
        return;
      }
      return Onward;
    }

    method SetUdp(req: V.VlessRequest)
      requires Valid()
      modifies inner
      ensures Valid() && inner.pumping == old(inner.pumping) && inner.keys == old(inner.keys)
      ensures
        var phase := if env.plaintext then PlainUdp else Udp;
        View() == old(View()).(inner := old(inner.View()).(udpTarget := Some(req), phase := phase))
    {
      inner.udpTarget := Some(req);
      inner.phase := if env.plaintext then PlainUdp else Udp;
    }

    // -------------------------------------------------------------- drive

    /** What `drive` does behind its header block, and `drive_plain` behind its own. */
    method RunPhase() returns (f: Flow)
      requires Valid() && inner.pumping && Target() == DriveData(env, View()) && DataPhase(inner.phase)
      modifies this, inner
      ensures Valid() && next >= old(next) && Ended(f)
    {
      if inner.phase == Data {
        if inner.keys.None? || !inner.writer {
          return Failed;
        }
        f := DataLoop();
        return;
      }
      if inner.phase == Udp {
        if inner.keys.None? {
          return Failed;
        }
        f := UdpLoop();
        return;
      }
      if inner.phase == PlainData {
        if !inner.writer {
          return Failed;
        }
        f := ChunkLoop();
        return;
      }
      if inner.phase == PlainUdp {
        f := PacketLoop();
        return;
      }
      return Waiting;
    }

    /** The header attempt behind one record. */
    method AddToHeader(rec: Rec, pt: bytes) returns (f: Flow)
      requires Valid() && inner.pumping && !env.plaintext && inner.keys.Some?
      requires Target() == RecordOpened(env, View(), ForHeader, rec, pt)
      modifies this, inner
      ensures Valid() && next >= old(next)
      ensures f.Waiting? ==> Kept() && next == old(next) && Target() == NextRecord(View(), ForHeader)
      ensures !f.Waiting? ==> inner.pumping && Established(f)
    {
      Accumulate(rec, pt);
      f := TryHeader();
    }

    method Accumulate(rec: Rec, pt: bytes)
      requires Valid()
      modifies this, inner
      ensures Valid() && next == old(next)
      ensures
        var s := old(View());
        View() == s.(recs := s.recs + [rec], pts := s.pts + pt, inner := s.inner.(acc := s.inner.acc + pt))
    {
      recs := recs + [rec];
      pts := pts + pt;
      inner.acc := inner.acc + pt;
    }

    method TryHeader() returns (f: Flow)
      requires Valid() && inner.pumping && Target() == HeaderTried(env, View())
      modifies this, inner
      ensures Valid() && next >= old(next)
      ensures f.Waiting? ==> View() == old(View()) && next == old(next) && Target() == NextRecord(View(), ForHeader)
      ensures !f.Waiting? ==> inner.pumping && Established(f)
    {
      var parsed := V.ParseVlessHeader(inner.acc, env.outside);
      if parsed.None? {
        return if |inner.acc| < V.HEADER_CUTOFF then Waiting else Failed;
      }
      var initial := inner.acc[parsed.value.consumed..];
      DropHeader();
      f := Establish(parsed.value, initial);
    }

    method DropHeader()
      requires Valid()
      modifies inner
      ensures Valid() && inner.pumping == old(inner.pumping) && View() == old(View()).(inner := old(inner.View()).(acc := []))
    {
      inner.acc := [];
    }

    /** The VLESS header: records are opened until it parses. */
    method HeaderLoop() returns (f: Flow)
      requires Valid() && inner.pumping && !env.plaintext && inner.keys.Some?
      requires Target() == NextRecord(View(), ForHeader)
      modifies this, inner
      ensures Valid() && inner.pumping && next >= old(next) && Established(f)
    {
      while true
        invariant Valid() && Kept() && inner.keys.Some? && Target() == NextRecord(View(), ForHeader)
        decreases |events| - next
      {
        var rec, pt;
        f, rec, pt := OpenNext(ForHeader);
        if !f.Onward? {
          return;
        }
        f := AddToHeader(rec, pt);
        if !f.Waiting? {
          return;
        }
      }
    }

    /** The handshake attempt: an incomplete clientHello goes back into the buffer whole, a
        complete one is answered with three seals. */
    method DriveHello() returns (f: Flow)
      requires Valid() && inner.pumping && !env.plaintext && inner.phase.Handshake? && inner.pos == 0
      requires Target() == DriveHandshake(env, View())
      modifies this, inner
      ensures Valid() && next >= old(next)
      ensures f.Onward? ==>
        inner.pumping && inner.phase.Header? && inner.keys.Some? && Target() == NextRecord(View(), ForHeader)
      ensures !f.Onward? ==> Ended(f)
    {
      var hello, rest := TakeHello();
      match hello
      case NeedMore =>
        PutBack(rest);
        return Waiting;
      case Violation =>
        return Failed;
      case Whole(pfs, nfsKey, _) =>
        var keys := env.crypto.commit(pfs, nfsKey);
        if keys.None? {
          return Failed;
        }
        f := Greet(pfs, keys.value, rest);
    }

    /** The buffer is taken and read; what comes back is all of it, or what is left over. */
    method TakeHello() returns (hello: H.Hello, rest: bytes)
      requires Valid() && inner.pos == 0
      modifies inner`buf
      ensures Valid() && inner.buf == [] && View() == old(View()).(inner := old(inner.View()).(buf := []))
      ensures
        var buf := old(inner.buf);
        && hello == H.ReadHello(env.crypto, buf)
        && (hello.NeedMore? ==> rest == buf) && (hello.Whole? ==> hello.consumed <= |buf| && rest == buf[hello.consumed..])
    {
      var reader := new H.WsReader.FromBuffer(inner.buf);
      inner.buf := [];
      rest := [];
      hello := H.ReadClientHello(env.crypto, reader);
      if hello.NeedMore? {
        rest := reader.IntoInner();
      } else if hello.Whole? {
        rest := reader.Leftover();
      }
    }

    /** The whole of what was taken, in front of nothing. */
    method PutBack(all: bytes)
      requires Valid() && inner.buf == []
      modifies inner
      ensures Valid() && View() == old(View()).(inner := old(inner.View()).(buf := all))
    {
      inner.buf := all + inner.buf;
      NilRight(all);
    }

    /** The serverHello, and the import of both keys. */
    method Greet(pfs: bytes, keys: H.Keys, leftover: bytes) returns (f: Flow)
      requires Valid() && inner.pumping && !env.plaintext
      requires Target() == View().(seals := seals + Nonces(3), pc := ImportKeys(leftover, keys))
      modifies this, inner
      ensures Valid() && next >= old(next)
      ensures f.Onward? ==>
        inner.pumping && inner.phase.Header? && inner.keys.Some? && Target() == NextRecord(View(), ForHeader)
      ensures !f.Onward? ==> Ended(f)
    {
      var used, nonceW := H.SealServerHello(env.crypto, pfs, keys.w, random);
      seals := seals + used;
      f := EnterHeader(keys, nonceW, leftover);
    }

    method EnterHeader(keys: H.Keys, nonceW: Counter, leftover: bytes) returns (f: Flow)
      requires Valid() && inner.pumping && !env.plaintext && nonceW == NonceAt(3)
      requires Target() == View().(pc := ImportKeys(leftover, keys))
      modifies this, inner
      ensures Valid() && next >= old(next)
      ensures f.Onward? ==>
        inner.pumping && inner.phase.Header? && inner.keys.Some? && Target() == NextRecord(View(), ForHeader)
      ensures !f.Onward? ==> Ended(f)
    {
      f := AwaitKeys(keys, leftover);
      if f.Onward? {
        SetKeys(keys, nonceW, leftover);
      }
    }

    method AwaitKeys(ghost keys: H.Keys, ghost leftover: bytes) returns (f: Flow)
      requires Valid() && inner.pumping && !env.plaintext
      requires Target() == View().(pc := ImportKeys(leftover, keys))
      modifies this, inner
      ensures Valid() && inner.pumping && next >= old(next)
      ensures f.Onward? ==> Target() == NextRecord(WithKeys(View(), leftover, keys), ForHeader)
      ensures !f.Onward? ==> Ended(f) && !f.Waiting?
    {
      var reply;
      f, reply := AwaitDone(ImportKeys(leftover, keys));
    }

    method SetKeys(keys: H.Keys, nonceW: Counter, leftover: bytes)
      requires Valid() && !env.plaintext && nonceW == NonceAt(3)
      modifies inner
      ensures Valid() && inner.pumping == old(inner.pumping) && View() == WithKeys(old(View()), leftover, keys)
    {
      inner.keys := Some(keys);
      inner.nonceW := nonceW;
      inner.nonceR := ZERO;
      inner.buf := leftover + inner.buf;
      inner.pos := 0;
      inner.phase := Header;
    }

    /** The plaintext header attempt: it never awaits unless the header is complete. */
    method DriveHeader() returns (f: Flow)
      requires Valid() && inner.pumping && env.plaintext && inner.phase.PlainHeader?
      requires Target() == DrivePlainHeader(env, View())
      modifies this, inner
      ensures Valid() && inner.pumping && next >= old(next) && Established(f)
    {
      var window := inner.buf[inner.pos..];
      var parsed := V.ParseVlessHeader(window, env.outside);
      if parsed.None? {
        return if |inner.buf| - inner.pos < V.HEADER_CUTOFF then Waiting else Failed;
      }
      var initial := window[parsed.value.consumed..];
      TakeWindow();
      f := Establish(parsed.value, initial);
    }

    method TakeWindow()
      requires Valid()
      modifies this, inner
      ensures Valid() && inner.pumping == old(inner.pumping) && next == old(next)
      ensures
        var s := old(View());
        View() == s.(inner := s.inner.(buf := [], pos := 0), pts := Window(s.inner))
    {
      pts := inner.buf[inner.pos..];
      inner.buf := [];
      inner.pos := 0;
    }

    /** `drive` and `drive_plain`: as far as the buffered bytes allow. */
    method Drive() returns (f: Flow)
      requires Valid() && inner.pumping && inner.pos == 0 && Target() == M.Drive(env, View())
      modifies this, inner
      ensures Valid() && next >= old(next) && Ended(f)
    {
      if inner.phase == PlainHeader {
        f := DriveHeader();
        if !f.Onward? {
          return;
        }
        f := RunPhase();
        return;
      }
      if inner.phase == Handshake {
        f := DriveHello();
        if !f.Onward? {
          return;
        }
      }
      if inner.phase == Header {
        if inner.keys.None? {
          return Failed;
        }
        f := HeaderLoop();
        if !f.Onward? {
          return;
        }
      }
      f := RunPhase();
    }

    // -------------------------------------------------------------- pump and entry points

    /** `pump`: drive, and again if bytes arrived meanwhile that can be processed. */
    method PumpAll() returns (f: Flow)
      requires Valid() && inner.pumping && inner.pos == 0 && Target() == M.Drive(env, View())
      modifies this, inner
      ensures Valid() && !f.Onward? && next >= old(next)
      ensures f.Waiting? ==> Target() == Stop(View())
      ensures !f.Waiting? ==> Ended(f)
    {
      var more := true;
      f := Waiting;
      while more
        invariant Valid() && f.Waiting? && next >= old(next)
        invariant more ==> inner.pumping && inner.pos == 0 && Target() == M.Drive(env, View())
        invariant !more ==> Target() == Stop(View())
        decreases more
      {
        f := Drive();
        if !f.Waiting? {
          return;
        }
        if inner.phase == Closed {
          return;
        }
        PendingCompacted(inner.View());
        inner.Compact();
        more := inner.Pending();
      }
    }

    /** `websocket_message` */
    method WebsocketMessage(data: bytes) returns (asleep: bool)
      requires Valid() && pc.Idle? && !inner.pumping && Target() == Message(env, View(), data)
      modifies this, inner
      ensures Valid() && Target() == View() && next >= old(next)
      ensures if asleep then next == |events| else pc.Idle? && !inner.pumping
    {
      if inner.phase != Closed {
        rx := rx + data;
      }
      var pump := inner.Enqueue(data);
      if !pump {
        return false;
      }
      var f := PumpAll();
      if f.Asleep? {
        return true;
      }
      EndPump(f.Failed?);
      return false;
    }

    /** The flag is dropped; a pump that failed cleans up. */
    method EndPump(failed: bool)
      requires Valid() && Target() == if failed then Fail(View()) else Stop(View())
      modifies this, inner
      ensures Valid() && Target() == View() && next == old(next) && pc.Idle? && !inner.pumping
    {
      inner.pumping := false;
      pc := Idle;
      if failed {
        Cleanup();
      }
    }

    /** Every event, delivered to whoever waits for it: the code is where the step machine is. */
    method Serve()
      requires Valid() && pc.Idle? && !inner.pumping && View() == Target()
      modifies this, inner
      ensures Valid() && View() == Run(env, events)
    {
      WholeTake(events);
      while next < |events|
        invariant Valid() && pc.Idle? && !inner.pumping && View() == Target()
        decreases |events| - next
      {
        TargetStep();
        var e := events[next];
        next := next + 1;
        match e
        case Frame(data) =>
          var asleep := WebsocketMessage(data);
          if asleep {
            return;
          }
        case Text =>
        case Close => Cleanup();
        case Complete(_) =>
        case Download => SealDownload();
      }
    }
  }

  /** For every sequence of events, the code ends where the step machine does. */
  method Simulate(env: Env, events: seq<Event>, random: nat) returns (relay: Relay)
    ensures relay.Valid() && relay.View() == Run(env, events)
  {
    relay := new Relay(env, events, random);
    relay.Serve();
  }
}
