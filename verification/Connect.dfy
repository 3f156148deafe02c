/** Tunnelling through an HTTP proxy: the read adapter of `relay/src/conn.rs`, the CONNECT
    exchange of `relay/src/egress.rs`, and the raw download that takes over behind it. */
module Connect {
  import opened Bytes
  import opened Download
  import Status
  import V = Vless

  const SCAN_LEN := 8192


  // ---------------------------------------------------------------- the header's end

  predicate CrlfCrlfAt(b: bytes, i: nat) {
    i + 4 <= |b| && b[i] == 13 && b[i + 1] == 10 && b[i + 2] == 13 && b[i + 3] == 10
  }

  /** `find_crlfcrlf` from window `i` on: the first match. */
  function FindFrom(b: bytes, i: nat): (r: Option<nat>)
    ensures r.Some? ==> i <= r.value && CrlfCrlfAt(b, r.value)
    ensures r.Some? ==> forall k :: i <= k < r.value ==> !CrlfCrlfAt(b, k)
    ensures r.None? ==> forall k :: i <= k ==> !CrlfCrlfAt(b, k)
    decreases |b| - i
  {
    if i + 4 > |b| then None
    else if CrlfCrlfAt(b, i) then Some(i)
    else FindFrom(b, i + 1)
  }

  function Find(b: bytes): Option<nat> {
    FindFrom(b, 0)
  }

  /** A match found in a prefix is the match of the whole, and the other way round. */
  lemma FindInPrefix(b: bytes, n: nat)
    requires n <= |b|
    ensures Find(b[..n]).Some? ==> Find(b) == Find(b[..n])
    ensures Find(b).Some? && Find(b).value + 4 <= n ==> Find(b[..n]) == Find(b)
  {
    assert forall k: nat :: k + 4 <= n ==> (CrlfCrlfAt(b[..n], k) <==> CrlfCrlfAt(b, k));
  }

  // ---------------------------------------------------------------- the read adapter

  /** `Reading`: nothing stashed, a read issued and unresolved, or the tail of a chunk. */
  datatype Reading = Empty | Pending | Ready(data: bytes)

  datatype Poll = NotYet | Got(data: bytes) | Failure

  /** The part of a chunk that fits the caller's buffer, and what is left to stash. */
  function Fits(room: nat, data: bytes): bytes {
    data[..if room < |data| then room else |data|]
  }

  function Rest(room: nat, data: bytes): Reading {
    if room < |data| then Ready(data[room..]) else Empty
  }

  function StashOf(r: Reading): bytes {
    if r.Ready? then r.data else []
  }

  lemma FitsAndRest(room: nat, data: bytes)
    ensures data == Fits(room, data) + StashOf(Rest(room, data))
  {
    if room >= |data| {
      WholeTake(data);
      NilRight(data);
    } else {
      Split(data, room);
    }
  }

  /** A connection over the reads of its stream; the first `next` have resolved. */
  class Conn {
    const input: seq<Read>
    var next: nat
    var read: Reading

    ghost predicate Valid()
      reads this
    {
      next <= Delivering(input) && (read.Ready? ==> |read.data| > 0)
    }

    constructor (input: seq<Read>)
      ensures Valid() && next == 0 && read == Empty && this.input == input
    {
      this.input, next, read := input, 0, Empty;
    }

    /** `handle_data`: what fits is handed out, the rest is stashed. */
    method HandleData(room: nat, data: bytes) returns (p: Poll)
      modifies this`read
      ensures p == Got(Fits(room, data)) && read == Rest(room, data)
    {
      var idx := if room < |data| then room else |data|;
      var store := data[idx..];
      read := if |store| == 0 then Empty else Ready(store);
      p := Got(data[..idx]);
    }

    /** `poll_read`. A read that has not resolved stays pending, so its chunk is not lost;
        the end of the stream is a read of no bytes. */
    method PollRead(room: nat, resolved: bool) returns (p: Poll)
      requires Valid()
      requires !read.Ready? && resolved ==> next < |input|
      modifies this`next, this`read
      ensures room > 0 ==> Valid()
      ensures old(read).Ready? ==>
                p == Got(Fits(room, old(read).data)) && read == Rest(room, old(read).data) && next == old(next)
      ensures !old(read).Ready? && !resolved ==> p == NotYet && read == Pending && next == old(next)
      ensures !old(read).Ready? && resolved ==>
                match input[old(next)]
                case Chunk(data) => p == Got(Fits(room, data)) && read == Rest(room, data) && next == old(next) + 1
                case Eof => p == Got([]) && read == Empty && next == old(next)
                case Failed => p == Failure && read == Empty && next == old(next)
    {
      match read
      case Ready(data) =>
        p := HandleData(room, data);
      case _ =>
        if !resolved {
          read := Pending;
          return NotYet;
        }
        match input[next]
        case Chunk(data) =>
          p := HandleData(room, data);
          next := next + 1;
        case Eof =>
          read := Empty;
          p := Got([]);
        case Failed =>
          read := Empty;
          p := Failure;
    }

    /** `take_buffered`: the stash belongs to the download and is emptied. */
    method TakeBuffered() returns (v: bytes)
      requires Valid()
      modifies this`read
      ensures v == StashOf(old(read)) && Valid()
      ensures read == if old(read).Ready? then Empty else old(read)
    {
      match read
      case Ready(data) =>
        v := data;
        read := Empty;
      case _ =>
        v := [];
    }
  }

  // ---------------------------------------------------------------- CONNECT

  datatype Connected = Tunnel(leftover: bytes) | Refused | Unanswered

  /** The status line the code looks at: at most 256 bytes of the response header. */
  function StatusLine(all: bytes, end: nat): bytes
    requires end <= |all|
  {
    all[..if end < 256 then end else 256]
  }

  /** No empty chunk among those needed to complete the response header: the code takes a
      read of no bytes for the end of the stream. */
  ghost predicate NoEmptyChunk(input: seq<Read>, end: nat) {
    forall i :: 0 <= i < Delivering(input) && |Arrived(input, i)| < end ==> |input[i].data| > 0
  }

  /** The stream answers: a complete response header within the scan buffer. */
  ghost predicate Answers(input: seq<Read>) {
    var all := TargetBytes(input);
    && Find(all).Some? && Find(all).value + 4 <= SCAN_LEN
    && NoEmptyChunk(input, Find(all).value + 4)
  }

  ghost predicate Accepted(input: seq<Read>) {
    Answers(input) && 200 <= Status.Code(StatusLine(TargetBytes(input), Find(TargetBytes(input)).value + 4)) < 300
  }

  /** `http_connect` behind the request. For every chunking and every poll outcome it opens
      the tunnel exactly when the proxy answers with a 2xx header, and then the leftover and
      the reads still to come are together the bytes behind that header. The read number `k`
      is polled `polls(k)` times before it resolves. */
  method HttpConnect(conn: Conn, polls: nat -> nat) returns (r: Connected)
    requires conn.Valid() && conn.next == 0 && conn.read == Empty
    modifies conn
    ensures conn.Valid()
    ensures r.Tunnel? <==> Accepted(conn.input)
    ensures r.Tunnel? ==>
              && conn.read == Empty
              && Arrived(conn.input, conn.next)
                 == TargetBytes(conn.input)[..Find(TargetBytes(conn.input)).value + 4] + r.leftover
  {
    var buf := new byte[SCAN_LEN](_ => 0);
    var bufLen, turns := 0, 0;
    while true
      invariant conn.Valid() && fresh(buf) && bufLen <= SCAN_LEN
      invariant Scanned(conn.input, conn.next, conn.read, buf[..bufLen])
      decreases |conn.input| - conn.next
    {
      if bufLen >= SCAN_LEN {
        BeyondScan(conn.input, conn.next, conn.read, buf[..bufLen]);
        return Refused;
      }
      if conn.next >= |conn.input| {
        NotThere(conn.input, conn.next, buf[..bufLen]);
        return Unanswered;
      }
      var n := ReadInto(conn, buf, bufLen, polls(turns));
      turns := turns + 1;
      if n == 0 {
        return Refused;
      }
      bufLen := bufLen + n;
      var pos := Find(buf[..bufLen]);
      if pos.Some? {
        r := Answer(conn, buf[..bufLen], pos.value + 4, conn.next - 1);
        return;
      }
    }
  }

  /** One read into the scan buffer; 0 is a failure, the end, or an empty chunk. */
  method ReadInto(conn: Conn, buf: array<byte>, bufLen: nat, polls: nat) returns (n: nat)
    requires conn.Valid() && conn.next < |conn.input|
    requires buf.Length == SCAN_LEN && bufLen < SCAN_LEN
    requires Scanned(conn.input, conn.next, conn.read, buf[..bufLen])
    modifies conn, buf
    ensures conn.Valid()
    ensures n == 0 ==> !Answers(conn.input)
    ensures n > 0 ==>
              && bufLen + n <= SCAN_LEN && conn.next == old(conn.next) + 1
              && GotMore(conn.input, conn.next, conn.read, buf[..bufLen + n])
  {
    ghost var before, k := buf[..bufLen], conn.next;
    var got := AwaitRead(conn, SCAN_LEN - bufLen, polls);
    if got.Failure? {
      NotThere(conn.input, k, before);
      return 0;
    }
    n := |got.data|;
    if n == 0 {
      if conn.input[k].Chunk? {
        EmptyChunkAt(conn.input, k, before);
      } else {
        NotThere(conn.input, k, before);
      }
      return;
    }
    CopyInto(buf, bufLen, got.data);
    MoreScanned(conn.input, k, conn.read, before, got.data);
  }

  /** `Scanned` but for the last read, which may have completed the header. */
  ghost predicate GotMore(input: seq<Read>, next: nat, read: Reading, got: bytes) {
    && 0 < next <= Delivering(input) && !read.Pending?
    && Arrived(input, next) == got + StashOf(read)
    && Find(Arrived(input, next - 1)).None?
    && NoEmptyBefore(input, next)
    && (Find(got).None? ==> Scanned(input, next, read, got))
  }

  method CopyInto(buf: array<byte>, at: nat, data: bytes)
    requires at + |data| <= buf.Length
    modifies buf
    ensures buf[..at + |data|] == old(buf[..at]) + data
  {
    forall i | 0 <= i < |data| {
      buf[at + i] := data[i];
    }
  }

  /** The scan buffer holds what has resolved less the stash, no header end yet, and the
      stash is empty unless the buffer is full. */
  ghost predicate Scanned(input: seq<Read>, next: nat, read: Reading, got: bytes) {
    && next <= Delivering(input) && !read.Pending? && Find(got).None?
    && Arrived(input, next) == got + StashOf(read)
    && (|got| < SCAN_LEN ==> read == Empty)
    && NoEmptyBefore(input, next)
  }

  ghost predicate NoEmptyBefore(input: seq<Read>, next: nat)
    requires next <= Delivering(input)
  {
    forall i :: 0 <= i < next ==> |input[i].data| > 0
  }

  lemma BeyondScan(input: seq<Read>, next: nat, read: Reading, got: bytes)
    requires Scanned(input, next, read, got) && |got| == SCAN_LEN
    ensures !Answers(input)
  {
    var all := TargetBytes(input);
    ArrivedPrefix(input, next, Delivering(input));
    assert got == all[..SCAN_LEN];
    FindInPrefix(all, SCAN_LEN);
  }

  lemma NotThere(input: seq<Read>, next: nat, got: bytes)
    requires Scanned(input, next, Empty, got) && next == Delivering(input)
    ensures !Answers(input)
  {
    NilRight(got);
  }

  lemma EmptyChunkAt(input: seq<Read>, next: nat, got: bytes)
    requires Scanned(input, next, Empty, got) && next < Delivering(input) && input[next].data == []
    ensures !Answers(input)
  {
    NilRight(got);
    var all := TargetBytes(input);
    if Find(all).Some? && NoEmptyChunk(input, Find(all).value + 4) {
      ArrivedPrefix(input, next, Delivering(input));
      assert got == all[..|got|];
      FindInPrefix(all, |got|);
      assert false;
    }
  }

  lemma MoreScanned(input: seq<Read>, k: nat, read: Reading, before: bytes, data: bytes)
    requires Scanned(input, k, Empty, before) && k < Delivering(input)
    requires input[k].data == data + StashOf(read) && !read.Pending? && |data| > 0
    requires |before| + |data| < SCAN_LEN ==> read == Empty
    ensures GotMore(input, k + 1, read, before + data)
  {
    NilRight(before);
    Assoc(before, data, StashOf(read));
  }

  /** The header is complete: read its status, and hand on everything behind it. */
  method Answer(conn: Conn, got: bytes, end: nat, ghost k: nat) returns (r: Connected)
    requires conn.Valid() && conn.next == k + 1 && GotMore(conn.input, conn.next, conn.read, got)
    requires |got| <= SCAN_LEN && Find(got).Some? && end == Find(got).value + 4
    modifies conn`read
    ensures conn.Valid()
    ensures r.Tunnel? <==> Accepted(conn.input)
    ensures r.Tunnel? ==>
              && conn.read == Empty
              && Arrived(conn.input, conn.next)
                 == TargetBytes(conn.input)[..Find(TargetBytes(conn.input)).value + 4] + r.leftover
  {
    ghost var all := TargetBytes(conn.input);
    ghost var stash := StashOf(conn.read);
    HeaderFound(conn.input, conn.next, got, stash, k);
    var code := Status.Code(StatusLine(got, end));
    assert StatusLine(got, end) == StatusLine(all, end);
    if !(200 <= code < 300) {
      return Refused;
    }
    var leftover := got[end..];
    var tail := conn.TakeBuffered();
    leftover := leftover + tail;
    Split(got, end);
    Assoc(got[..end], got[end..], stash);
    assert all[..end] == got[..end];
    r := Tunnel(leftover);
  }

  lemma HeaderFound(input: seq<Read>, next: nat, got: bytes, stash: bytes, k: nat)
    requires next == k + 1 <= Delivering(input) && |got| <= SCAN_LEN && Find(got).Some?
    requires Arrived(input, next) == got + stash && NoEmptyBefore(input, next)
    requires Find(Arrived(input, k)).None?
    ensures got <= TargetBytes(input) && Find(TargetBytes(input)) == Find(got)
    ensures Answers(input)
  {
    var all := TargetBytes(input);
    var end := Find(got).value + 4;
    ArrivedPrefix(input, next, Delivering(input));
    assert got == all[..|got|];
    FindInPrefix(all, |got|);
    forall i | 0 <= i < Delivering(input) && |Arrived(input, i)| < end
      ensures |input[i].data| > 0
    {
      if i >= next {
        ArrivedPrefix(input, next, i);
        assert false;
      }
    }
  }

  /** `s.read(..).await`: polled until the read in flight resolves. */
  method AwaitRead(conn: Conn, room: nat, polls: nat) returns (p: Poll)
    requires conn.Valid() && room > 0 && conn.read == Empty && conn.next < |conn.input|
    modifies conn
    ensures conn.Valid()
    ensures match conn.input[old(conn.next)]
            case Chunk(data) =>
              && p.Got? && conn.next == old(conn.next) + 1
              && data == p.data + StashOf(conn.read) && !conn.read.Pending?
              && |p.data| <= room && (p.data == [] <==> data == [])
              && (|p.data| < room ==> conn.read == Empty)
            case Eof => p == Got([]) && conn.next == old(conn.next) && conn.read == Empty
            case Failed => p == Failure && conn.next == old(conn.next) && conn.read == Empty
  {
    for i := 0 to polls
      invariant conn.Valid() && !conn.read.Ready? && conn.next == old(conn.next)
    {
      p := conn.PollRead(room, false);
    }
    p := conn.PollRead(room, true);
    if conn.input[old(conn.next)].Chunk? {
      FitsAndRest(room, conn.input[old(conn.next)].data);
    }
  }

  // ---------------------------------------------------------------- behind the tunnel

  /** The bytes of the reads still to come after the first `n`. */
  function Behind(input: seq<Read>, n: nat): bytes
    requires n <= Delivering(input)
  {
    ArrivedPrefix(input, n, Delivering(input));
    TargetBytes(input)[|Arrived(input, n)|..]
  }

  datatype Downstream = Downstream(outcome: Outcome, sent: seq<bytes>)

  /** The response, and the leftover if there is one, each as one frame. */
  method SendHead(leftover: bytes, sendOk: nat -> bool) returns (ok: bool, sent: seq<bytes>)
    ensures Concat(sent) <= V.VLESS_RESPONSE + leftover
    ensures ok ==> Concat(sent) == V.VLESS_RESPONSE + leftover
  {
    if !sendOk(0) {
      return false, [];
    }
    sent := [V.VLESS_RESPONSE];
    assert sent[..0] == [];
    NilLeft(V.VLESS_RESPONSE);
    if |leftover| == 0 {
      NilRight(V.VLESS_RESPONSE);
      return true, sent;
    }
    if !sendOk(1) {
      return false, sent;
    }
    ConcatSnoc(sent, leftover);
    return true, sent + [leftover];
  }

  /** `plain_download`: every further chunk as one frame behind those sent before. */
  method PlainDownload(conn: Conn, head: seq<bytes>, sendOk: nat -> bool) returns (d: Downstream)
    requires conn.Valid() && conn.read == Empty
    modifies conn`next
    ensures conn.Valid()
    ensures Concat(d.sent) <= Concat(head) + Behind(conn.input, old(conn.next))
    ensures !d.outcome.Error? ==> Concat(d.sent) == Concat(head) + Behind(conn.input, old(conn.next))
    ensures d.outcome.Ended? ==> conn.next < |conn.input| && conn.input[conn.next].Eof?
    ensures d.outcome.Waiting? ==> conn.next == |conn.input|
  {
    ghost var start := conn.next;
    var sent := head;
    RawDue(conn.input, start, start, Concat(head));
    while true
      invariant start <= conn.next <= Delivering(conn.input) && conn.read == Empty
      invariant Concat(sent) == Concat(head) + Since(conn.input, start, conn.next)
      decreases |conn.input| - conn.next
    {
      RawDue(conn.input, start, conn.next, Concat(head));
      if conn.next >= |conn.input| {
        return Downstream(Waiting, sent);
      }
      match conn.input[conn.next]
      case Failed => return Downstream(Error, sent);
      case Eof => return Downstream(Ended, sent);
      case Chunk(data) =>
        conn.next := conn.next + 1;
        if !sendOk(|sent|) {
          return Downstream(Error, sent);
        }
        SinceStep(conn.input, start, conn.next, Concat(head));
        ConcatSnoc(sent, data);
        sent := sent + [data];
    }
  }

  /** `establish_plain` behind a connect: response, leftover, and every further chunk of the
      stream. */
  method ServeRaw(conn: Conn, leftover: bytes, sendOk: nat -> bool) returns (d: Downstream)
    requires conn.Valid() && conn.read == Empty
    modifies conn`next
    ensures conn.Valid()
    ensures var due := V.VLESS_RESPONSE + leftover + Behind(conn.input, old(conn.next));
            && Concat(d.sent) <= due
            && (!d.outcome.Error? ==> Concat(d.sent) == due)
    ensures d.outcome.Ended? ==> conn.next < |conn.input| && conn.input[conn.next].Eof?
    ensures d.outcome.Waiting? ==> conn.next == |conn.input|
  {
    var ok, sent := SendHead(leftover, sendOk);
    if !ok {
      return Downstream(Error, sent);
    }
    d := PlainDownload(conn, sent, sendOk);
  }

  /** The bytes of the reads from `start` up to `n`. */
  function Since(input: seq<Read>, start: nat, n: nat): bytes
    requires start <= n <= Delivering(input)
  {
    ArrivedPrefix(input, start, n);
    Arrived(input, n)[|Arrived(input, start)|..]
  }

  lemma SinceStep(input: seq<Read>, start: nat, n: nat, head: bytes)
    requires start < n <= Delivering(input)
    ensures head + Since(input, start, n) == head + Since(input, start, n - 1) + input[n - 1].data
  {
    ArrivedPrefix(input, start, n - 1);
    TailAppend(Arrived(input, n - 1), input[n - 1].data, |Arrived(input, start)|);
    Assoc(head, Since(input, start, n - 1), input[n - 1].data);
  }

  lemma RawDue(input: seq<Read>, start: nat, n: nat, head: bytes)
    requires start <= n <= Delivering(input)
    ensures head + Since(input, start, n) <= head + Behind(input, start)
    ensures n == start ==> head + Since(input, start, n) == head
  {
    ArrivedPrefix(input, start, n);
    ArrivedPrefix(input, n, Delivering(input));
    assert Since(input, start, n) == TargetBytes(input)[|Arrived(input, start)|..|Arrived(input, n)|];
    if n == start {
      NilRight(head);
    }
  }

  /** The whole path: for every chunking of the proxy's stream, what the client receives
      behind the VLESS response is exactly what the proxy sent behind its response header,
      once each and in order. */
  method TunnelRaw(input: seq<Read>, polls: nat -> nat, sendOk: nat -> bool) returns (r: Connected, d: Downstream)
    ensures r.Tunnel? <==> Accepted(input)
    ensures r.Tunnel? ==>
              var due := V.VLESS_RESPONSE + TargetBytes(input)[Find(TargetBytes(input)).value + 4..];
              && Concat(d.sent) <= due
              && (!d.outcome.Error? ==> Concat(d.sent) == due)
    ensures !r.Tunnel? ==> d.sent == []
  {
    var conn := new Conn(input);
    d := Downstream(Error, []);
    r := HttpConnect(conn, polls);
    if r.Tunnel? {
      ghost var n := conn.next;
      d := ServeRaw(conn, r.leftover, sendOk);
      DueBehindHeader(input, n, Find(TargetBytes(input)).value + 4, r.leftover);
    }
  }

  lemma DueBehindHeader(input: seq<Read>, n: nat, end: nat, leftover: bytes)
    requires n <= Delivering(input) && end <= |TargetBytes(input)|
    requires Arrived(input, n) == TargetBytes(input)[..end] + leftover
    ensures V.VLESS_RESPONSE + leftover + Behind(input, n)
         == V.VLESS_RESPONSE + TargetBytes(input)[end..]
  {
    var all := TargetBytes(input);
    ArrivedPrefix(input, n, Delivering(input));
    assert leftover == all[end..|Arrived(input, n)|];
    assert all[end..] == leftover + all[|Arrived(input, n)|..];
    Assoc(V.VLESS_RESPONSE, leftover, all[|Arrived(input, n)|..]);
  }
}
