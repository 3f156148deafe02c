/** The reference meaning of an upload: a function from the bytes a client has sent to
    the bytes its target is owed. It knows nothing of buffers, frames or awaits. */
module Payload {
  import opened Bytes
  import opened Nonce
  import opened Records
  import opened Session
  import H = Handshake
  import V = Vless

  /** The plaintext of records opened one after the other under nonces 1, 2, 3, …. */
  function OpenAll(env: Env, key: bytes, recs: seq<Rec>): Option<bytes> {
    if |recs| == 0 then Some([])
    else
      var last := recs[|recs| - 1];
      match OpenAll(env, key, recs[..|recs| - 1])
      case None => None
      case Some(front) =>
        match env.open(key, NonceAt(|recs|), last.hdr, last.body)
        case None => None
        case Some(pt) => Some(front + pt)
  }

  /** The plaintext of the longest authentic prefix of a record list. */
  function Plaintext(env: Env, key: bytes, recs: seq<Rec>): bytes {
    match OpenAll(env, key, recs)
    case Some(pt) => pt
    case None => if |recs| == 0 then [] else Plaintext(env, key, recs[..|recs| - 1])
  }

  /** The application bytes behind the VLESS header of a plaintext stream. */
  function BehindHeader(env: Env, stream: bytes): bytes {
    match V.Parse(stream, env.outside)
    case None => []
    case Some(p) => stream[p.consumed..]
  }

  /** The plaintext that the received bytes carry. */
  function Stream(env: Env, rx: bytes): bytes {
    if env.plaintext then rx
    else
      match H.ReadHello(env.crypto, rx)
      case NeedMore => []
      case Violation => []
      case Whole(pfs, nfsKey, consumed) =>
        match env.crypto.commit(pfs, nfsKey)
        case None => []
        case Some(keys) => Plaintext(env, keys.r, Deframe(rx[consumed..]).recs)
  }

  function Owed(env: Env, rx: bytes): bytes {
    BehindHeader(env, Stream(env, rx))
  }

  lemma OpenAllSnoc(env: Env, key: bytes, recs: seq<Rec>, r: Rec, front: bytes, pt: bytes)
    requires OpenAll(env, key, recs) == Some(front)
    requires env.open(key, NonceAt(|recs| + 1), r.hdr, r.body) == Some(pt)
    ensures OpenAll(env, key, recs + [r]) == Some(front + pt)
  {
    assert (recs + [r])[..|recs|] == recs;
  }

  lemma {:induction false} OpenAllExtends(env: Env, key: bytes, recs: seq<Rec>, n: nat)
    requires n <= |recs| && OpenAll(env, key, recs).Some?
    ensures OpenAll(env, key, recs[..n]).Some?
    ensures OpenAll(env, key, recs[..n]).value <= OpenAll(env, key, recs).value
  {
    if n == |recs| {
      assert recs[..n] == recs;
    } else {
      var front := recs[..|recs| - 1];
      OpenAllExtends(env, key, front, n);
      assert front[..n] == recs[..n];
    }
  }

  /** An authentic prefix of the records yields a prefix of the whole plaintext. */
  lemma {:induction false} PlaintextExtends(env: Env, key: bytes, recs: seq<Rec>, n: nat)
    requires n <= |recs| && OpenAll(env, key, recs[..n]).Some?
    ensures OpenAll(env, key, recs[..n]).value <= Plaintext(env, key, recs)
    decreases |recs|
  {
    if n == |recs| {
      assert recs[..n] == recs;
    }
    if OpenAll(env, key, recs).Some? {
      OpenAllExtends(env, key, recs, n);
    } else if n < |recs| {
      var front := recs[..|recs| - 1];
      assert front[..n] == recs[..n];
      PlaintextExtends(env, key, front, n);
    }
  }

  lemma {:induction false} PlaintextIsPrefix(env: Env, key: bytes, recs: seq<Rec>) returns (n: nat)
    ensures n <= |recs| && OpenAll(env, key, recs[..n]) == Some(Plaintext(env, key, recs))
    decreases |recs|
  {
    if OpenAll(env, key, recs).Some? {
      n := |recs|;
      assert recs[..n] == recs;
    } else {
      var front := recs[..|recs| - 1];
      n := PlaintextIsPrefix(env, key, front);
      assert front[..n] == recs[..n];
    }
  }

  lemma BehindHeaderExtends(env: Env, a: bytes, b: bytes)
    requires a <= b
    ensures BehindHeader(env, a) <= BehindHeader(env, b)
  {
    if V.Parse(a, env.outside).Some? {
      PrefixSplit(a, b);
      V.ParseStable(a, b[|a|..], env.outside);
      TailAppend(a, b[|a|..], V.Parse(a, env.outside).value.consumed);
    }
  }

  lemma PlaintextMonotone(env: Env, key: bytes, a: seq<Rec>, b: seq<Rec>)
    requires a <= b
    ensures Plaintext(env, key, a) <= Plaintext(env, key, b)
  {
    var n := PlaintextIsPrefix(env, key, a);
    assert a[..n] == b[..n];
    PlaintextExtends(env, key, b, n);
  }

  lemma StreamExtends(env: Env, a: bytes, b: bytes)
    ensures Stream(env, a) <= Stream(env, a + b)
  {
    if env.plaintext {
    } else if H.ReadHello(env.crypto, a).Whole? {
      var h := H.ReadHello(env.crypto, a);
      H.HelloMonotone(env.crypto, a, b);
      TailAppend(a, b, h.consumed);
      var keys := env.crypto.commit(h.pfs, h.nfsKey);
      if keys.Some? {
        var short, long := a[h.consumed..], a[h.consumed..] + b;
        DeframeExtends(short, b);
        PlaintextMonotone(env, keys.value.r, Deframe(short).recs, Deframe(long).recs);
      }
    }
  }

  /** What the target is owed only ever grows at its end. */
  lemma OwedExtends(env: Env, a: bytes, b: bytes)
    ensures Owed(env, a) <= Owed(env, a + b)
  {
    StreamExtends(env, a, b);
    BehindHeaderExtends(env, Stream(env, a), Stream(env, a + b));
  }
}
