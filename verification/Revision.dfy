/** `revision_for` of `sub/src/proxyip.rs`: the name of a dataset's groups, the first twelve
    bytes of the SHA-256 of their JSON text in hexadecimal. */
module Revision {
  import opened Bytes
  import opened ProxyIp
  import opened Groups
  import Hmac
  import opened Text

  const LIMIT := Hmac.LIMIT

  // ---------------------------------------------------------------- the JSON text

  function EndpointText(at: Endpoint): string {
    "[" + Decimal(at.ip) + "," + Decimal(at.port) + "]"
  }

  function ListText(list: seq<Endpoint>): string {
    if |list| == 0 then ""
    else if |list| == 1 then EndpointText(list[0])
    else EndpointText(list[0]) + "," + ListText(list[1..])
  }

  /** Country codes are capital letters: nothing in them is escaped. */
  function GroupText(g: Group): string {
    "\"" + g.country + "\":[" + ListText(g.list) + "]"
  }

  function BindingsText(gs: GroupMap): string {
    if |gs| == 0 then ""
    else if |gs| == 1 then GroupText(gs[0])
    else GroupText(gs[0]) + "," + BindingsText(gs[1..])
  }

  /** Compact JSON: an object of arrays of pairs, keys in order. */
  function GroupsText(gs: GroupMap): string {
    "{" + BindingsText(gs) + "}"
  }

  // ---------------------------------------------------------------- its length

  lemma {:induction false} DecimalBound(n: nat, digits: nat, limit: nat)
    requires digits > 0 && n < limit && limit == Power(digits)
    ensures |Decimal(n)| <= digits
    decreases digits
  {
    if n >= 10 {
      DecimalBound(n / 10, digits - 1, limit / 10);
    }
  }

  /** Ten to the power of `digits`. */
  function Power(digits: nat): nat {
    if digits == 0 then 1 else 10 * Power(digits - 1)
  }

  lemma EndpointBound(at: Endpoint)
    ensures |EndpointText(at)| <= 18
  {
    assert Power(5) == 100000;
    assert Power(10) == 100000 * Power(5);
    DecimalBound(at.ip, 10, Power(10));
    DecimalBound(at.port, 5, Power(5));
  }

  lemma {:induction false} ListBound(list: seq<Endpoint>)
    ensures |ListText(list)| <= 19 * |list|
  {
    if |list| > 0 {
      EndpointBound(list[0]);
      ListBound(list[1..]);
    }
  }

  lemma {:induction false} BindingsBound(gs: GroupMap)
    requires forall g :: 0 <= g < |gs| ==> |gs[g].country| == 2
    ensures |BindingsText(gs)| <= 8 * |gs| + 19 * Total(gs)
  {
    if |gs| > 0 {
      ListBound(gs[0].list);
      BindingsBound(gs[1..]);
    }
  }

  lemma TextBound(gs: GroupMap)
    requires |gs| <= Total(gs) <= MAX_PREPARED_ENTRIES && forall g :: 0 <= g < |gs| ==> |gs[g].country| == 2
    ensures |GroupsText(gs)| < LIMIT
  {
    BindingsBound(gs);
  }

  // ---------------------------------------------------------------- the revision

  ghost predicate IsRevision(revision: string, gs: GroupMap) {
    var digest := Hmac.Sha(Ascii(GroupsText(gs)));
    |revision| == 24 && forall i :: 0 <= i < 12 ==> revision[2 * i..2 * i + 2] == HexByte(digest[i])
  }

  method RevisionFor(gs: GroupMap) returns (revision: string)
    requires |GroupsText(gs)| < LIMIT
    ensures IsRevision(revision, gs)
  {
    var serialized := Ascii(GroupsText(gs));
    var digest := Hmac.HashTwo(serialized, []);
    NilRight(serialized);
    revision := FirstTwelve(digest);
  }

  method FirstTwelve(digest: Hmac.Digest) returns (revision: string)
    ensures |revision| == 24
    ensures forall i :: 0 <= i < 12 ==> revision[2 * i..2 * i + 2] == HexByte(digest[i])
  {
    revision := "";
    for i := 0 to 12
      invariant |revision| == 2 * i
      invariant forall j :: 0 <= j < i ==> revision[2 * j..2 * j + 2] == HexByte(digest[j])
    {
      var hex := HexByte(digest[i]);
      forall j | 0 <= j < i ensures (revision + hex)[2 * j..2 * j + 2] == HexByte(digest[j]) {
        SliceStable(revision, hex, 2 * j, 2 * j + 2);
      }
      TailAppend(revision, hex, |revision|);
      revision := revision + hex;
      assert revision[2 * i..2 * i + 2] == hex;
    }
  }
}
