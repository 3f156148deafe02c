/** What every step of the session keeps. The invariant says, for each place the pump
    can be suspended at, where every received byte is, who owns the write counter, and
    what a sleeping pump has left behind. */
module SessionInvariant {
  import opened Bytes
  import opened Nonce
  import opened Records
  import opened Inbound
  import opened Session
  import opened Payload
  import H = Handshake
  import V = Vless

  // ---------------------------------------------------------------- where the bytes are

  /** The whole clientHello has been read, it ends after `end` bytes and gives `keys`. */
  ghost predicate HelloIs(env: Env, rx: bytes, end: nat, keys: H.Keys) {
    var h := H.ReadHello(env.crypto, rx);
    h.Whole? && h.consumed == end && env.crypto.commit(h.pfs, h.nfsKey) == Some(keys)
  }

  ghost function HelloEnd(env: Env, rx: bytes): nat {
    var h := H.ReadHello(env.crypto, rx);
    if h.Whole? then h.consumed else 0
  }

  /** Encrypted mode behind the handshake: the stream is the opened records, then the
      record in flight (`flight`), then the window. */
  ghost predicate Sealed(env: Env, s: Session, flight: bytes, taken: nat) {
    && s.inner.keys.Some?
    && HelloEnd(env, s.rx) <= |s.rx|
    && HelloIs(env, s.rx, HelloEnd(env, s.rx), s.inner.keys.value)
    && AllWellFormed(s.recs)
    && OpenAll(env, s.inner.keys.value.r, s.recs) == Some(s.pts)
    && s.inner.nonceR == NonceAt(|s.recs| + taken)
    && s.rx[HelloEnd(env, s.rx)..] == WireAll(s.recs) + (flight + Window(s.inner))
  }

  /** No record in flight: every received byte is in `pts` or in the window. */
  ghost predicate Settled(env: Env, s: Session) {
    if env.plaintext then s.inner.keys.None? && s.rx == s.pts + Window(s.inner)
    else Sealed(env, s, [], 0)
  }

  /** What remains true when the session has failed. */
  ghost predicate Remains(env: Env, s: Session) {
    if env.plaintext then s.pts <= s.rx
    else if s.inner.keys.None? then s.pts == []
    else
      && HelloEnd(env, s.rx) <= |s.rx|
      && HelloIs(env, s.rx, HelloEnd(env, s.rx), s.inner.keys.value)
      && AllWellFormed(s.recs)
      && OpenAll(env, s.inner.keys.value.r, s.recs) == Some(s.pts)
      && WireAll(s.recs) <= s.rx[HelloEnd(env, s.rx)..]
  }

  /** The target has been given exactly the payload of the plaintext so far. */
  ghost predicate Delivered(env: Env, s: Session) {
    && V.Parse(s.pts, env.outside).Some?
    && s.written == s.pts[V.Parse(s.pts, env.outside).value.consumed..]
  }

  ghost predicate HeaderOpen(env: Env, s: Session) {
    && s.written == []
    && s.inner.acc == s.pts
    && V.TryHeader(s.pts, env.outside).More?
  }

  // ---------------------------------------------------------------- who owns the counter

  /** The pump owns the write counter. */
  ghost predicate PumpOwns(env: Env, s: Session) {
    && s.download.None?
    && s.seals == Nonces(|s.seals|)
    && (env.plaintext ==> s.seals == [])
    && (!env.plaintext ==> s.inner.nonceW == NonceAt(|s.seals|))
  }

  /** The pump holds the counter in a local across a seal. */
  ghost predicate PumpHolds(env: Env, s: Session, n: Counter) {
    !env.plaintext && s.download.None? && s.seals == Nonces(|s.seals|) && n == NonceAt(|s.seals|)
  }

  /** The download loop owns it for good. */
  ghost predicate DownloadOwns(env: Env, s: Session) {
    && s.seals == Nonces(|s.seals|)
    && (env.plaintext ==> s.download.None? && s.seals == [])
    && (!env.plaintext ==> s.download == Some(NonceAt(|s.seals|)))
  }

  // ---------------------------------------------------------------- phases

  /** Closed can be set at any await; otherwise the phase is the expected one. */
  ghost predicate PhaseIn(env: Env, s: Session, plain: Phase, sealed: Phase) {
    s.inner.phase == Closed || s.inner.phase == (if env.plaintext then plain else sealed)
  }

  ghost predicate InHeader(env: Env, s: Session) {
    PhaseIn(env, s, PlainHeader, Header)
  }

  ghost predicate InData(env: Env, s: Session) {
    PhaseIn(env, s, PlainData, Data) && (!s.inner.phase.Closed? ==> s.inner.writer)
  }

  ghost predicate InUdp(env: Env, s: Session) {
    PhaseIn(env, s, PlainUdp, Udp) && s.inner.udpTarget.Some?
  }

  ghost predicate AwaitsHello(env: Env, s: Session) {
    && !env.plaintext && s.inner.keys.None? && s.inner.pos == 0 && s.rx == s.inner.buf
    && s.inner.acc == [] && s.recs == [] && s.pts == [] && s.written == []
    && s.seals == [] && s.download.None?
  }

  // ---------------------------------------------------------------- the invariant

  /** Everything TCP data needs: settled bytes, all payload delivered. */
  ghost predicate Flowing(env: Env, s: Session) {
    Settled(env, s) && Delivered(env, s) && DownloadOwns(env, s) && InData(env, s)
  }

  ghost predicate Datagrams(env: Env, s: Session) {
    Settled(env, s) && s.written == [] && PumpOwns(env, s) && InUdp(env, s)
  }

  /** Asleep: no pump, and nothing in the buffer a pump could work on. */
  ghost predicate Asleep(env: Env, s: Session) {
    match s.inner.phase
    case Closed => Dead(env, s)
    case Handshake => AwaitsHello(env, s) && H.ReadHello(env.crypto, s.inner.buf).NeedMore?
    case Header =>
      && !env.plaintext && Settled(env, s) && HeaderOpen(env, s) && PumpOwns(env, s)
      && PeekRecord(Window(s.inner)).Incomplete?
    case PlainHeader =>
      && env.plaintext && Settled(env, s) && s.pts == [] && s.written == [] && PumpOwns(env, s)
      && V.TryHeader(Window(s.inner), env.outside).More?
    case Data => !env.plaintext && Flowing(env, s) && PeekRecord(Window(s.inner)).Incomplete?
    case Udp => !env.plaintext && Datagrams(env, s) && PeekRecord(Window(s.inner)).Incomplete?
    case PlainData => env.plaintext && Flowing(env, s) && Window(s.inner) == []
    case PlainUdp => env.plaintext && Datagrams(env, s) && Window(s.inner) == []
  }

  /** Failed or closed while nothing was pumping. Only the download loop still runs. */
  ghost predicate Dead(env: Env, s: Session) {
    && Remains(env, s)
    && (s.written == [] || Delivered(env, s))
    && s.seals == Nonces(|s.seals|)
    && (s.download.Some? ==> s.download == Some(NonceAt(|s.seals|)))
  }

  ghost predicate InFlight(env: Env, s: Session, purpose: Purpose, rec: Rec) {
    && !env.plaintext && WellFormed(rec) && Sealed(env, s, Wire(rec), 1)
    && match purpose
       case ForHeader => HeaderOpen(env, s) && PumpOwns(env, s) && InHeader(env, s)
       case ForData => Delivered(env, s) && DownloadOwns(env, s) && InData(env, s)
       case ForUdp => s.written == [] && PumpOwns(env, s) && InUdp(env, s)
  }

  ghost predicate Suspended(env: Env, s: Session)
    requires !s.pc.Idle?
  {
    match s.pc
    case ImportKeys(leftover, keys) =>
      && !env.plaintext && s.inner.keys.None? && s.inner.pos == 0
      && (s.inner.phase == Closed || s.inner.phase == Handshake)
      && s.inner.acc == [] && s.recs == [] && s.pts == [] && s.written == []
      && s.seals == Nonces(3) && s.download.None?
      && HelloEnd(env, s.rx) <= |s.rx| && HelloIs(env, s.rx, HelloEnd(env, s.rx), keys)
      && s.rx[HelloEnd(env, s.rx)..] == leftover + s.inner.buf
    case OpenRecord(purpose, rec, nonce) =>
      InFlight(env, s, purpose, rec) && nonce == s.inner.nonceR
    case ConnectTarget(initial) =>
      && Settled(env, s) && s.written == [] && PumpOwns(env, s) && InHeader(env, s)
      && V.Parse(s.pts, env.outside).Some?
      && initial == s.pts[V.Parse(s.pts, env.outside).value.consumed..]
    case WriteInitial(leftover) =>
      Settled(env, s) && Delivered(env, s) && PumpOwns(env, s) && InHeader(env, s)
    case SealResponse(leftover, n) =>
      Settled(env, s) && Delivered(env, s) && PumpHolds(env, s, n) && InHeader(env, s)
    case SealLeftover(leftover, n) =>
      Settled(env, s) && Delivered(env, s) && PumpHolds(env, s, n) && InHeader(env, s)
    case WriteData => Flowing(env, s)
    case SealUdpResponse(req, initial, n) =>
      Settled(env, s) && s.written == [] && PumpHolds(env, s, n) && InHeader(env, s)
    case QueryUdp(rest, fromInitial) => Datagrams(env, s)
    case SealUdpReply(reply, rest, n, fromInitial) =>
      Settled(env, s) && s.written == [] && PumpHolds(env, s, n) && InUdp(env, s)
  }

  ghost predicate Inv(env: Env, s: Session) {
    && (s.inner.pumping <==> !s.pc.Idle?)
    && if s.pc.Idle? then Asleep(env, s) else Suspended(env, s)
  }

  // ---------------------------------------------------------------- leaving a section

  lemma SealedRemains(env: Env, s: Session, flight: bytes, taken: nat)
    requires !env.plaintext && Sealed(env, s, flight, taken)
    ensures Remains(env, s)
  {
  }

  lemma SettledRemains(env: Env, s: Session)
    requires Settled(env, s)
    ensures Remains(env, s)
  {
  }

  lemma FailKeeps(env: Env, s: Session)
    requires Remains(env, s)
    requires s.written == [] || Delivered(env, s)
    requires s.seals == Nonces(|s.seals|)
    requires s.download.Some? ==> s.download == Some(NonceAt(|s.seals|))
    ensures Inv(env, Fail(s))
  {
  }

  /** Compaction moves no byte. */
  lemma CompactSettled(env: Env, s: Session)
    requires Settled(env, s)
    ensures Settled(env, s.(inner := Compacted(s.inner)))
    ensures Window(Compacted(s.inner)) == Window(s.inner)
  {
  }

  // ---------------------------------------------------------------- record loops

  ghost predicate ReadyFor(env: Env, s: Session, purpose: Purpose) {
    && !env.plaintext && s.inner.pumping && Settled(env, s)
    && match purpose
       case ForHeader => HeaderOpen(env, s) && PumpOwns(env, s) && InHeader(env, s)
       case ForData => Delivered(env, s) && DownloadOwns(env, s) && InData(env, s)
       case ForUdp => s.written == [] && PumpOwns(env, s) && InUdp(env, s)
  }

  /** Closed while the pump was at work. */
  lemma ClosedKeeps(env: Env, s: Session)
    requires s.inner.phase.Closed? && Settled(env, s)
    requires s.written == [] || Delivered(env, s)
    requires s.seals == Nonces(|s.seals|)
    requires s.download.Some? ==> s.download == Some(NonceAt(|s.seals|))
    ensures Inv(env, DriveDone(s))
  {
    SettledRemains(env, s);
  }

  lemma HeaderDone(env: Env, s: Session)
    requires !env.plaintext && s.inner.phase.Header? && Settled(env, s) && HeaderOpen(env, s) && PumpOwns(env, s)
    requires PeekRecord(Window(s.inner)).Incomplete?
    ensures Inv(env, DriveDone(s))
  {
    CompactSettled(env, s);
  }

  lemma DataDone(env: Env, s: Session)
    requires !env.plaintext && s.inner.phase.Data? && Flowing(env, s) && PeekRecord(Window(s.inner)).Incomplete?
    ensures Inv(env, DriveDone(s))
  {
    CompactSettled(env, s);
  }

  lemma UdpDone(env: Env, s: Session)
    requires !env.plaintext && s.inner.phase.Udp? && Datagrams(env, s) && PeekRecord(Window(s.inner)).Incomplete?
    ensures Inv(env, DriveDone(s))
  {
    CompactSettled(env, s);
  }

  lemma DoneKeeps(env: Env, s: Session, purpose: Purpose)
    requires ReadyFor(env, s, purpose) && PeekRecord(Window(s.inner)).Incomplete?
    ensures Inv(env, DriveDone(s))
  {
    match s.inner.phase
    case Closed => ClosedKeeps(env, s);
    case Header => HeaderDone(env, s);
    case Data => DataDone(env, s);
    case Udp => UdpDone(env, s);
  }

  lemma NextRecordKeeps(env: Env, s: Session, purpose: Purpose)
    requires ReadyFor(env, s, purpose)
    ensures Inv(env, NextRecord(s, purpose))
  {
    match PeekRecord(Window(s.inner))
    case Malformed =>
      SettledRemains(env, s);
      FailKeeps(env, s);
    case Incomplete =>
      DoneKeeps(env, s, purpose);
    case Ready(r) =>
      AdvanceWindow(s.inner, r);
      NilLeft(Window(s.inner));
      assert Sealed(env, NextRecord(s, purpose), Wire(r), 1);
  }
}
