/** Decimal and hexadecimal text, as the relay and the subscription worker print it. */
module Text {
  import opened Bytes

  /** The bytes of a text in ASCII. */
  function Ascii(s: string): (b: bytes)
    ensures |b| == |s|
  {
    seq(|s|, i requires 0 <= i < |s| => s[i] as int % 256)
  }

  function Digit(d: nat): (c: char)
    requires d < 10
    ensures '0' <= c <= '9'
  {
    '0' + d as char
  }

  /** Decimal notation without leading zeros. */
  function Decimal(n: nat): string {
    if n < 10 then [Digit(n)] else Decimal(n / 10) + [Digit(n % 10)]
  }

  function DecimalValue(s: string): int {
    if |s| == 0 then 0 else DecimalValue(s[..|s| - 1]) * 10 + (s[|s| - 1] as int - '0' as int)
  }

  lemma {:induction false} DecimalReads(n: nat)
    ensures DecimalValue(Decimal(n)) == n
  {
    if n < 10 {
      assert Decimal(n)[..0] == [];
    } else {
      DecimalReads(n / 10);
      assert Decimal(n)[..|Decimal(n)| - 1] == Decimal(n / 10);
    }
  }

  predicate DigitsOnly(s: string) {
    forall i :: 0 <= i < |s| ==> '0' <= s[i] <= '9'
  }

  /** Digits without a leading zero that stand for the number. */
  predicate Spells(s: string, n: nat) {
    DigitsOnly(s) && |s| > 0 && (|s| > 1 ==> s[0] != '0') && DecimalValue(s) == n
  }

  lemma {:induction false} DecimalSpells(n: nat)
    ensures Spells(Decimal(n), n)
    ensures n > 0 ==> Decimal(n)[0] != '0'
  {
    DecimalReads(n);
    if n >= 10 {
      DecimalSpells(n / 10);
    }
  }

  lemma {:induction false} ValueIsPositive(s: string)
    requires DigitsOnly(s) && |s| > 0 && s[0] != '0'
    ensures DecimalValue(s) > 0
  {
    var front := s[..|s| - 1];
    if |s| > 1 {
      ValueIsPositive(front);
    }
  }

  /** There is one such text for every number. */
  lemma {:induction false} DecimalExactly(s: string, n: nat)
    ensures Spells(s, n) <==> s == Decimal(n)
    decreases |s|
  {
    DecimalSpells(n);
    if Spells(s, n) {
      var front, last := s[..|s| - 1], s[|s| - 1];
      InitLast(s);
      if |s| == 1 {
        assert DecimalValue(front) == 0;
      } else {
        ValueIsPositive(front);
        var digit := last as int - '0' as int;
        assert n / 10 == DecimalValue(front) && n % 10 == digit;
        DecimalExactly(front, n / 10);
      }
    }
  }

  /** `push_u8_dec`: up to three digits through a stack buffer, `i > 0` keeping inner zeros. */
  method PushU8Dec(s: string, value: byte) returns (t: string)
    ensures t == s + Decimal(value)
  {
    var n: int := value;
    var buf := new char[3](_ => '0');
    var i := 0;
    if n >= 100 {
      buf[i] := Digit(n / 100);
      i := i + 1;
      n := n % 100;
    }
    if n >= 10 || i > 0 {
      buf[i] := Digit(n / 10);
      i := i + 1;
      n := n % 10;
    }
    buf[i] := Digit(n);
    i := i + 1;
    t := s + buf[..i];
    ghost var v: nat := value;
    if v >= 100 {
      assert Decimal(v / 100) == [Digit(v / 100)];
      assert Decimal(v / 10) == Decimal(v / 10 / 10) + [Digit(v / 10 % 10)];
      assert v / 10 / 10 == v / 100 && v / 10 % 10 == v % 100 / 10 && v % 100 % 10 == v % 10;
      assert buf[..3] == [Digit(v / 100), Digit(v % 100 / 10), Digit(v % 10)];
    } else if v >= 10 {
      assert Decimal(v / 10) == [Digit(v / 10)];
      assert buf[..2] == [Digit(v / 10), Digit(v % 10)];
    } else {
      assert buf[..1] == [Digit(v)];
    }
  }

  /** Four octets with dots between them. */
  function Dotted(ip: Octets): string {
    Decimal(ip[0]) + "." + Decimal(ip[1]) + "." + Decimal(ip[2]) + "." + Decimal(ip[3])
  }

  /** The pieces of a text between the separators. */
  function SplitOn(s: string, separator: char): (p: seq<string>)
    ensures |p| > 0
  {
    if |s| == 0 then [""]
    else
      var p, c := SplitOn(s[..|s| - 1], separator), s[|s| - 1];
      if c == separator then p + [""] else p[..|p| - 1] + [p[|p| - 1] + [c]]
  }

  /** Four decimal numbers with dots between them, the octets in order. */
  predicate SpellsIpv4(s: string, ip: Octets) {
    var p := SplitOn(s, '.');
    |p| == 4 && forall k :: 0 <= k < 4 ==> Spells(p[k], ip[k])
  }

  /** The last piece goes on. */
  function Grown(p: seq<string>, more: string): seq<string>
    requires |p| > 0
  {
    p[..|p| - 1] + [p[|p| - 1] + more]
  }

  lemma GrownTwice(p: seq<string>, a: string, b: string)
    requires |p| > 0
    ensures Grown(Grown(p, a), b) == Grown(p, a + b)
  {
    Assoc(p[|p| - 1], a, b);
  }

  lemma SplitOne(s: string, c: char, separator: char)
    ensures SplitOn(s + [c], separator) == if c == separator then SplitOn(s, separator) + [""] else Grown(SplitOn(s, separator), [c])
  {
    assert (s + [c])[..|s|] == s;
  }

  lemma {:induction false} SplitSnoc(s: string, more: string, separator: char)
    requires separator !in more
    ensures SplitOn(s + more, separator) == Grown(SplitOn(s, separator), more)
    decreases |more|
  {
    var p := SplitOn(s, separator);
    if |more| == 0 {
      NilRight(s);
      NilRight(p[|p| - 1]);
    } else {
      var front, c := more[..|more| - 1], more[|more| - 1];
      SplitSnoc(s, front, separator);
      InitLast(more);
      Assoc(s, front, [c]);
      SplitOne(s + front, c, separator);
      GrownTwice(p, front, [c]);
    }
  }

  lemma SplitNext(s: string, more: string, separator: char)
    requires separator !in more
    ensures SplitOn(s + [separator] + more, separator) == SplitOn(s, separator) + [more]
  {
    SplitOne(s, separator, separator);
    SplitSnoc(s + [separator], more, separator);
    NilLeft(more);
  }

  lemma FourPieces(a: string, b: string, c: string, d: string, separator: char)
    requires separator !in a && separator !in b && separator !in c && separator !in d
    ensures SplitOn(a + [separator] + b + [separator] + c + [separator] + d, separator) == [a, b, c, d]
  {
    assert SplitOn(a, separator) == [a] by {
      SplitSnoc("", a, separator);
      NilLeft(a);
    }
    var two := a + [separator] + b;
    SplitNext(a, b, separator);
    SplitNext(two, c, separator);
    SplitNext(two + [separator] + c, d, separator);
  }

  lemma NoDot(ip: Octets, k: nat)
    requires k < 4
    ensures '.' !in Decimal(ip[k]) && Spells(Decimal(ip[k]), ip[k])
  {
    DecimalSpells(ip[k]);
  }

  /** The text of an address reads back to its octets. */
  lemma DottedReads(ip: Octets)
    ensures SpellsIpv4(Dotted(ip), ip)
  {
    var a, b, c, d := Decimal(ip[0]), Decimal(ip[1]), Decimal(ip[2]), Decimal(ip[3]);
    NoDot(ip, 0);
    NoDot(ip, 1);
    NoDot(ip, 2);
    NoDot(ip, 3);
    FourPieces(a, b, c, d, '.');
    FourSpelled(Dotted(ip), a, b, c, d, ip);
  }

  lemma FourSpelled(s: string, a: string, b: string, c: string, d: string, ip: Octets)
    requires SplitOn(s, '.') == [a, b, c, d]
    requires Spells(a, ip[0]) && Spells(b, ip[1]) && Spells(c, ip[2]) && Spells(d, ip[3])
    ensures SpellsIpv4(s, ip)
  {
  }

  function HexDigit(d: nat): (c: char)
    requires d < 16
  {
    if d < 10 then '0' + d as char else 'a' + (d - 10) as char
  }

  /** The digits `from_str` accepts: both cases. */
  function HexValue(c: char): (d: Option<nat>)
    ensures d.Some? ==> d.value < 16
  {
    if '0' <= c <= '9' then Some(c as int - '0' as int)
    else if 'a' <= c <= 'f' then Some(c as int - 'a' as int + 10)
    else if 'A' <= c <= 'F' then Some(c as int - 'A' as int + 10)
    else None
  }

  lemma HexDigitReads(d: nat)
    requires d < 16
    ensures HexValue(HexDigit(d)) == Some(d)
    ensures HexDigit(d) != '-'
  {
  }

  function HexByte(b: byte): string {
    [HexDigit(b / 16), HexDigit(b % 16)]
  }

  /** Eight colon-separated groups of four digits, in brackets. */
  function Bracketed(ip: bytes): string
    requires |ip| == 16
  {
    "[" + HexGroups(ip, 8) + "]"
  }

  function HexGroups(ip: bytes, n: nat): string
    requires |ip| == 16 && n <= 8
  {
    if n == 0 then ""
    else HexGroups(ip, n - 1) + (if n > 1 then ":" else "") + HexByte(ip[2 * n - 2]) + HexByte(ip[2 * n - 1])
  }

  /** The lower-case hexadecimal digit of a value below 16. */
  predicate SpellsHex(c: char, d: nat) {
    !('A' <= c <= 'F') && HexValue(c) == Some(d)
  }

  /** Brackets around eight groups of four digits with colons between them: group `k` is the
      bytes `2k` and `2k + 1`. */
  predicate SpellsIpv6(s: string, ip: bytes)
    requires |ip| == 16
  {
    && |s| == 41 && s[0] == '[' && s[40] == ']'
    && (forall k :: 0 <= k < 7 ==> s[5 * k + 5] == ':')
    && (forall k :: 0 <= k < 8 ==> SpellsByte(s, 5 * k + 1, ip[2 * k]) && SpellsByte(s, 5 * k + 3, ip[2 * k + 1]))
  }

  predicate SpellsByte(s: string, at: nat, b: byte) {
    at + 2 <= |s| && SpellsHex(s[at], b / 16) && SpellsHex(s[at + 1], b % 16)
  }

  lemma {:induction false} GroupsLength(ip: bytes, n: nat)
    requires |ip| == 16 && n <= 8
    ensures |HexGroups(ip, n)| == if n == 0 then 0 else 5 * n - 1
  {
    if n > 0 {
      GroupsLength(ip, n - 1);
    }
  }

  lemma LastGroup(ip: bytes, n: nat)
    requires |ip| == 16 && 0 < n <= 8
    ensures |HexGroups(ip, n)| == 5 * n - 1
    ensures SpellsByte(HexGroups(ip, n), 5 * n - 5, ip[2 * n - 2]) && SpellsByte(HexGroups(ip, n), 5 * n - 3, ip[2 * n - 1])
    ensures n > 1 ==> HexGroups(ip, n)[5 * n - 6] == ':'
  {
    GroupsLength(ip, n);
    GroupsLength(ip, n - 1);
    var hi, lo := HexByte(ip[2 * n - 2]), HexByte(ip[2 * n - 1]);
    var front := HexGroups(ip, n - 1) + (if n > 1 then ":" else "");
    assert HexGroups(ip, n) == front + hi + lo;
    BytesSpelled(front, hi, lo, ip[2 * n - 2], ip[2 * n - 1]);
  }

  lemma BytesSpelled(front: string, hi: string, lo: string, a: byte, b: byte)
    requires hi == HexByte(a) && lo == HexByte(b)
    ensures SpellsByte(front + hi + lo, |front|, a) && SpellsByte(front + hi + lo, |front| + 2, b)
  {
  }

  /** Earlier groups stay where they are. */
  lemma {:induction false} GroupsRead(ip: bytes, n: nat, k: nat)
    requires |ip| == 16 && k < n <= 8
    ensures |HexGroups(ip, n)| == 5 * n - 1
    ensures SpellsByte(HexGroups(ip, n), 5 * k, ip[2 * k]) && SpellsByte(HexGroups(ip, n), 5 * k + 2, ip[2 * k + 1])
    ensures k < n - 1 ==> HexGroups(ip, n)[5 * k + 4] == ':'
    decreases n
  {
    LastGroup(ip, n);
    if k < n - 1 {
      GroupsRead(ip, n - 1, k);
      Earlier(ip, n);
    }
  }

  lemma Earlier(ip: bytes, n: nat)
    requires |ip| == 16 && 0 < n <= 8
    ensures |HexGroups(ip, n - 1)| <= |HexGroups(ip, n)|
    ensures forall i :: 0 <= i < |HexGroups(ip, n - 1)| ==> HexGroups(ip, n)[i] == HexGroups(ip, n - 1)[i]
  {
  }

  lemma BracketedReads(ip: bytes)
    requires |ip| == 16
    ensures SpellsIpv6(Bracketed(ip), ip)
  {
    var s, groups := Bracketed(ip), HexGroups(ip, 8);
    GroupsLength(ip, 8);
    assert forall i :: 0 <= i < |groups| ==> s[i + 1] == groups[i];
    forall k | 0 <= k < 8
      ensures SpellsByte(s, 5 * k + 1, ip[2 * k]) && SpellsByte(s, 5 * k + 3, ip[2 * k + 1])
      ensures k < 7 ==> s[5 * k + 5] == ':'
    {
      GroupsRead(ip, 8, k);
      assert s[5 * k + 1] == groups[5 * k] && s[5 * k + 2] == groups[5 * k + 1];
      assert s[5 * k + 3] == groups[5 * k + 2] && s[5 * k + 4] == groups[5 * k + 3];
    }
  }
}
