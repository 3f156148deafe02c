/** The relay session of `relay/src/session.rs` as a step machine. Every `await` of the
    pump is a step boundary, every synchronous section between two awaits is one step,
    and frames, closes and the download loop interleave with them in any order. */
module Session {
  import opened Bytes
  import opened Nonce
  import opened Records
  import opened Inbound
  import H = Handshake
  import V = Vless

  /** What stays fixed for a connection: the mode and the functions outside this model.
      `open` is the AES-GCM opening of a record body under a key, nonce and header. */
  datatype Env = Env(
    plaintext: bool,
    crypto: H.Crypto,
    outside: V.Outside,
    open: (bytes, Counter, bytes, bytes) -> Option<bytes>)

  datatype Purpose = ForHeader | ForData | ForUdp

  /** Where the pump is suspended, with the locals that live across that await. */
  datatype Pc =
    | Idle
    | ImportKeys(leftover: bytes, keys: H.Keys)
    | OpenRecord(purpose: Purpose, rec: Rec, nonce: Counter)
    | ConnectTarget(initial: bytes)
    | WriteInitial(leftover: bytes)
    | SealResponse(leftover: bytes, nonceW: Counter)
    | SealLeftover(leftover: bytes, nonceW: Counter)
    | WriteData
    | SealUdpResponse(req: V.VlessRequest, initial: bytes, nonceW: Counter)
    | QueryUdp(rest: bytes, fromInitial: bool)
    | SealUdpReply(reply: bytes, rest: bytes, nonceW: Counter, fromInitial: bool)

  /** A target with the way that leads there. */
  datatype Dial = Dial(req: V.VlessRequest, egress: V.Egress)

  /** The buffers that were taken apart into packets, and the packets that were asked. */
  datatype UdpLog = UdpLog(buffers: seq<bytes>, queries: seq<bytes>)

  /** The session and what an observer has seen of it: `rx` the bytes of the accepted
      frames, `recs` the records opened, `pts` the plaintext they (or the raw frames)
      gave, `connects` the targets dialled, `written` the bytes handed to the target's
      writer, `sent` the messages of the data stream that the pump has sent down, before any
      sealing, `udp` what went through `handle_udp_frames`, `seals` the nonces used under the
      write key, `download` the counter the download loop owns. */
  datatype Session = Session(
    inner: State,
    pc: Pc,
    rx: bytes,
    recs: seq<Rec>,
    pts: bytes,
    connects: seq<Dial>,
    written: bytes,
    sent: seq<bytes>,
    udp: UdpLog,
    seals: seq<Counter>,
    download: Option<Counter>)

  function Start(env: Env): Session {
    Session(Fresh(env.plaintext), Idle, [], [], [], [], [], [], UdpLog([], []), [], None)
  }

  // ---------------------------------------------------------------- ends of a section

  /** The pump returns: nobody drains any more. */
  function Stop(s: Session): Session {
    s.(pc := Idle, inner := s.inner.(pumping := false))
  }

  /** The pump fails: the flag is dropped and `cleanup` closes in the same section. */
  function Fail(s: Session): Session {
    s.(pc := Idle, inner := s.inner.(pumping := false, phase := Closed, writer := false))
  }

  /** `drive` came back without an error: `pump` re-checks, and finds nothing pending. */
  function DriveDone(s: Session): Session {
    if s.inner.phase.Closed? then Stop(s) else Stop(s.(inner := Compacted(s.inner)))
  }

  // ---------------------------------------------------------------- record and chunk loops

  /** One turn of a `take_record` loop. */
  function NextRecord(s: Session, purpose: Purpose): Session {
    match PeekRecord(Window(s.inner))
    case Malformed => Fail(s)
    case Incomplete => DriveDone(s)
    case Ready(r) =>
      var next := Advance(s.inner, r);
      s.(inner := next, pc := OpenRecord(purpose, r, next.nonceR))
  }

  function TakeAll(s: Session): Session {
    s.(inner := s.inner.(pos := |s.inner.buf|), pts := s.pts + Window(s.inner))
  }

  /** One turn of the plaintext data loop: everything buffered goes to the target. */
  function NextChunk(s: Session): Session {
    var chunk := Window(s.inner);
    if |chunk| == 0 then DriveDone(s)
    else TakeAll(s).(written := s.written + chunk, pc := WriteData)
  }

  /** One message of the data stream goes down to the client. */
  function Sending(s: Session, message: bytes): Session {
    s.(sent := s.sent + [message])
  }

  /** A packet behind its length, as it travels in both directions. */
  function Framed(packet: bytes): bytes {
    [(|packet| / 256) % 256, |packet| % 256] + packet
  }

  /** A buffer reaches `handle_udp_frames`. */
  function Taken(s: Session, buffer: bytes): Session {
    s.(udp := s.udp.(buffers := s.udp.buffers + [buffer]))
  }

  /** One packet is asked. */
  function Asking(s: Session, packet: bytes, rest: bytes, fromInitial: bool): Session {
    s.(udp := s.udp.(queries := s.udp.queries + [packet]), pc := QueryUdp(rest, fromInitial))
  }

  /** `handle_udp_frames` from packet boundary `p` to its next await. */
  function HandleUdp(env: Env, s: Session, p: bytes, fromInitial: bool): Session
    decreases |s.inner.buf| - s.inner.pos, 2
  {
    if s.inner.udpTarget.None? then Fail(s)
    else if |p| < 2 || |p| < 2 + H.DecodeLength(p) then AfterUdp(env, s, fromInitial)
    else Asking(s, p[2..2 + H.DecodeLength(p)], p[2 + H.DecodeLength(p)..], fromInitial)
  }

  function AfterUdp(env: Env, s: Session, fromInitial: bool): Session
    decreases |s.inner.buf| - s.inner.pos, 1
  {
    if !env.plaintext then
      if fromInitial && !s.inner.phase.Udp? then DriveDone(s) else NextRecord(s, ForUdp)
    else
      if fromInitial && !s.inner.phase.PlainUdp? then DriveDone(s) else NextPacket(env, s)
  }

  /** One turn of the plaintext UDP loop. */
  function NextPacket(env: Env, s: Session): Session
    decreases |s.inner.buf| - s.inner.pos, 0
  {
    if |Window(s.inner)| == 0 then DriveDone(s)
    else HandleUdp(env, Taken(TakeAll(s), Window(s.inner)), Window(s.inner), false)
  }

  // ---------------------------------------------------------------- drive and establish

  /** The part of `drive` / `drive_plain` behind the header block. */
  function DriveData(env: Env, s: Session): Session {
    match s.inner.phase
    case Data => if s.inner.keys.Some? && s.inner.writer then NextRecord(s, ForData) else Fail(s)
    case Udp => if s.inner.keys.Some? then NextRecord(s, ForUdp) else Fail(s)
    case PlainData => if s.inner.writer then NextChunk(s) else Fail(s)
    case PlainUdp => NextPacket(env, s)
    case _ => DriveDone(s)
  }

  /** The handshake attempt. A complete clientHello seals the serverHello (three seals
      under the write key) and suspends on importing the keys; a send that fails there
      is a failed import. */
  function DriveHandshake(env: Env, s: Session): Session {
    var buf := s.inner.buf;
    var emptied := s.(inner := s.inner.(buf := [], pos := 0));
    match H.ReadHello(env.crypto, buf)
    case NeedMore => DriveDone(s)
    case Violation => Fail(emptied)
    case Whole(pfs, nfsKey, consumed) =>
      match env.crypto.commit(pfs, nfsKey)
      case None => Fail(emptied)
      case Some(keys) =>
        emptied.(seals := s.seals + Nonces(3), pc := ImportKeys(buf[consumed..], keys))
  }

  function DrivePlainHeader(env: Env, s: Session): Session {
    match V.TryHeader(Window(s.inner), env.outside)
    case More => DriveDone(s)
    case Rejected => Fail(s)
    case Accepted(p, initial) =>
      Establish(env, s.(inner := s.inner.(buf := [], pos := 0), pts := Window(s.inner)), p, initial)
  }

  function Drive(env: Env, s: Session): Session {
    match s.inner.phase
    case PlainHeader => DrivePlainHeader(env, s)
    case Handshake => DriveHandshake(env, s)
    case Header => if s.inner.keys.Some? then NextRecord(s, ForHeader) else Fail(s)
    case _ => DriveData(env, s)
  }

  /** One target is dialled. */
  function Dialling(s: Session, p: V.Parsed, initial: bytes): Session {
    s.(connects := s.connects + [Dial(p.req, p.egress)], pc := ConnectTarget(initial))
  }

  /** `establish` / `establish_plain` up to their first await. */
  function Establish(env: Env, s: Session, p: V.Parsed, initial: bytes): Session {
    if !env.plaintext && s.inner.keys.None? then Fail(s)
    else
      match p.req.command
      case Mux => Fail(s)
      case Tcp => Dialling(s, p, initial)
      case Udp =>
        if env.plaintext then UdpEstablished(env, s, p.req, initial)
        else
          var n := Successor(s.inner.nonceW);
          s.(seals := s.seals + [n], pc := SealUdpResponse(p.req, initial, n))
  }

  function UdpEstablished(env: Env, s: Session, req: V.VlessRequest, initial: bytes): Session {
    var phase := if env.plaintext then PlainUdp else Udp;
    var ready := Sending(s, V.VLESS_RESPONSE).(inner := s.inner.(udpTarget := Some(req), phase := phase));
    if |initial| > 0 then HandleUdp(env, Taken(ready, initial), initial, true) else DriveData(env, ready)
  }

  /** The response goes down, and the leftover if there is one. */
  function HeadSent(s: Session, leftover: bytes): Session {
    if |leftover| > 0 then Sending(Sending(s, V.VLESS_RESPONSE), leftover) else Sending(s, V.VLESS_RESPONSE)
  }

  /** The header-remainder is on its way upstream; the response goes down. */
  function InitialWritten(env: Env, s: Session, leftover: bytes): Session {
    if env.plaintext then TcpEstablished(env, HeadSent(s, leftover), None)
    else
      var n := Successor(s.inner.nonceW);
      s.(seals := s.seals + [n], pc := SealResponse(leftover, n))
  }

  /** The download loop is spawned with its own copy of the write counter. */
  function TcpEstablished(env: Env, s: Session, counter: Option<Counter>): Session {
    var phase := if env.plaintext then PlainData else Data;
    DriveData(env, s.(download := counter, inner := s.inner.(writer := true, phase := phase)))
  }

  // ---------------------------------------------------------------- steps

  /** How an awaited operation ended; `bytes` is a connect's leftover or a UDP reply. */
  datatype Outcome = Outcome(ok: bool, bytes: bytes)

  /** The header attempt on what has accumulated. */
  function HeaderTried(env: Env, s: Session): Session {
    match V.TryHeader(s.inner.acc, env.outside)
    case More => NextRecord(s, ForHeader)
    case Rejected => Fail(s)
    case Accepted(p, initial) => Establish(env, s.(inner := s.inner.(acc := [])), p, initial)
  }

  function RecordOpened(env: Env, s: Session, purpose: Purpose, rec: Rec, pt: bytes): Session {
    var s' := s.(recs := s.recs + [rec], pts := s.pts + pt);
    match purpose
    case ForHeader =>
      HeaderTried(env, s'.(inner := s.inner.(acc := s.inner.acc + pt)))
    case ForData => s'.(written := s.written + pt, pc := WriteData)
    case ForUdp => HandleUdp(env, Taken(s', pt), pt, false)
  }

  /** Behind the handshake: three seals were used, and bytes appended meanwhile sort behind
      the leftover. */
  function WithKeys(s: Session, leftover: bytes, keys: H.Keys): Session {
    s.(inner := s.inner.(keys := Some(keys), nonceW := NonceAt(3), nonceR := ZERO,
                         buf := leftover + s.inner.buf, pos := 0, phase := Header))
  }

  /** The pump resumes behind its await and runs to the next one. */
  function Resume(env: Env, s: Session, o: Outcome): Session {
    match s.pc
    case Idle => s
    case QueryUdp(rest, fromInitial) =>
      if o.ok && |o.bytes| > 0 then UdpAnswered(env, s, o.bytes, rest, fromInitial)
      else HandleUdp(env, s, rest, fromInitial)
    case _ => if o.ok then Continue(env, s, o.bytes) else Fail(s)
  }

  /** A reply goes down framed, sealed if the mode seals. */
  function UdpAnswered(env: Env, s: Session, reply: bytes, rest: bytes, fromInitial: bool): Session {
    if s.inner.keys.None? then HandleUdp(env, Sending(s, Framed(reply)), rest, fromInitial)
    else
      var n := Successor(s.inner.nonceW);
      s.(seals := s.seals + [n], pc := SealUdpReply(reply, rest, n, fromInitial))
  }

  function Continue(env: Env, s: Session, reply: bytes): Session
    requires !s.pc.Idle? && !s.pc.QueryUdp?
  {
    match s.pc
    case ImportKeys(leftover, keys) =>
      NextRecord(WithKeys(s, leftover, keys), ForHeader)
    case OpenRecord(purpose, rec, nonce) =>
      if s.inner.keys.None? then Fail(s)
      else
        (match env.open(s.inner.keys.value.r, nonce, rec.hdr, rec.body)
         case None => Fail(s)
         case Some(pt) => RecordOpened(env, s, purpose, rec, pt))
    case ConnectTarget(initial) =>
      if |initial| > 0 then s.(written := s.written + initial, pc := WriteInitial(reply))
      else InitialWritten(env, s, reply)
    case WriteInitial(leftover) => InitialWritten(env, s, leftover)
    case SealResponse(leftover, n) =>
      if |leftover| > 0 then
        Sending(s, V.VLESS_RESPONSE).(seals := s.seals + [Successor(n)], pc := SealLeftover(leftover, Successor(n)))
      else TcpEstablished(env, Sending(s, V.VLESS_RESPONSE), Some(n))
    case SealLeftover(leftover, n) => TcpEstablished(env, Sending(s, leftover), Some(n))
    case WriteData => if env.plaintext then NextChunk(s) else NextRecord(s, ForData)
    case SealUdpResponse(req, initial, n) =>
      UdpEstablished(env, s.(inner := s.inner.(nonceW := n)), req, initial)
    case SealUdpReply(reply, rest, n, fromInitial) =>
      HandleUdp(env, Sending(s, Framed(reply)).(inner := s.inner.(nonceW := n)), rest, fromInitial)
  }

  /** `websocket_message`: dropped when closed, queued behind a running pump, else pumped. */
  function Message(env: Env, s: Session, data: bytes): Session {
    if s.inner.phase.Closed? then s
    else
      var got := s.(rx := s.rx + data);
      if s.inner.pumping then got.(inner := s.inner.(buf := s.inner.buf + data))
      else Drive(env, got.(inner := Compacted(s.inner).(buf := Window(s.inner) + data, pumping := true)))
  }

  /** `cleanup`, from `websocket_close` or `websocket_error`, up to its await. */
  function Cleanup(s: Session): Session {
    s.(inner := s.inner.(phase := Closed, writer := false))
  }

  /** One record sealed by the download loop, with the counter it was given. */
  function DownloadSeal(s: Session): Session {
    match s.download
    case None => s
    case Some(n) => s.(seals := s.seals + [Successor(n)], download := Some(Successor(n)))
  }

  datatype Event = Frame(data: bytes) | Text | Close | Complete(outcome: Outcome) | Download

  function Step(env: Env, s: Session, e: Event): Session {
    match e
    case Frame(data) => Message(env, s, data)
    case Text => s
    case Close => Cleanup(s)
    case Complete(o) => Resume(env, s, o)
    case Download => DownloadSeal(s)
  }
}
