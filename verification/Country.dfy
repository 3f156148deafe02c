/** Country codes in `sub/src/proxyip.rs` and `sub/src/lib.rs`: normalisation, filters, and
    the rule that merges the codes reported for one endpoint. */
module Country {
  import opened Bytes

  const UNKNOWN := "XX"

  // ---------------------------------------------------------------- the order of strings

  predicate Less(a: string, b: string) {
    if |b| == 0 then false
    else if |a| == 0 then true
    else a[0] < b[0] || (a[0] == b[0] && Less(a[1..], b[1..]))
  }

  lemma {:induction false} LessTotal(a: string, b: string)
    ensures Less(a, b) || a == b || Less(b, a)
    ensures !(Less(a, b) && (a == b || Less(b, a)))
  {
    if |a| > 0 && |b| > 0 {
      LessTotal(a[1..], b[1..]);
      HeadTail(a);
      HeadTail(b);
    } else {
      LessIrreflexive(a);
    }
  }

  lemma {:induction false} LessIrreflexive(a: string)
    ensures !Less(a, a)
  {
    if |a| > 0 {
      LessIrreflexive(a[1..]);
    }
  }

  /** Behind the longest common beginning the smaller character decides, or the shorter text. */
  ghost predicate Before(a: string, b: string, k: nat) {
    k <= |a| && k < |b| && a[..k] == b[..k] && (k == |a| || a[k] < b[k])
  }

  lemma BeforeCons(a: string, b: string, k: nat)
    requires |a| > 0 && |b| > 0 && a[0] == b[0]
    ensures Before(a, b, k + 1) <==> Before(a[1..], b[1..], k)
  {
    if k <= |a[1..]| && k < |b[1..]| {
      assert a[..k + 1] == [a[0]] + a[1..][..k] && b[..k + 1] == [b[0]] + b[1..][..k];
      assert a[..k + 1][1..] == a[1..][..k] && b[..k + 1][1..] == b[1..][..k];
    }
  }

  lemma {:induction false} LessExactly(a: string, b: string)
    ensures Less(a, b) <==> exists k :: Before(a, b, k)
  {
    if |a| == 0 || |b| == 0 || a[0] != b[0] {
      assert Before(a, b, 0) <==> Less(a, b);
      assert forall k: nat :: k > 0 && k <= |a| && k < |b| ==> a[..k][0] != b[..k][0];
    } else {
      LessExactly(a[1..], b[1..]);
      assert !Before(a, b, 0);
      forall k: nat ensures Before(a, b, k + 1) <==> Before(a[1..], b[1..], k) {
        BeforeCons(a, b, k);
      }
      if k: nat :| Before(a, b, k) {
        var m: nat := k - 1;
        assert Before(a, b, m + 1);
        assert Before(a[1..], b[1..], m);
      }
    }
  }

  lemma {:induction false} LessTransitive(a: string, b: string, c: string)
    requires Less(a, b) && Less(b, c)
    ensures Less(a, c)
  {
    if |a| > 0 && a[0] == b[0] && b[0] == c[0] {
      LessTransitive(a[1..], b[1..], c[1..]);
    }
  }

  // ---------------------------------------------------------------- normalisation

  /** The characters `trim` removes: Unicode White_Space. */
  predicate IsSpace(c: char) {
    || '\U{0009}' <= c <= '\U{000D}' || c == ' ' || c == '\U{0085}' || c == '\U{00A0}' || c == '\U{1680}'
    || '\U{2000}' <= c <= '\U{200A}' || c == '\U{2028}' || c == '\U{2029}' || c == '\U{202F}' || c == '\U{205F}'
    || c == '\U{3000}'
  }

  /** The same by code points. */
  const WHITE_SPACE: seq<int> := [
    0x9, 0xA, 0xB, 0xC, 0xD, 0x20, 0x85, 0xA0, 0x1680, 0x2000, 0x2001, 0x2002, 0x2003, 0x2004, 0x2005, 0x2006, 0x2007, 0x2008,
    0x2009, 0x200A, 0x2028, 0x2029, 0x202F, 0x205F, 0x3000]

  lemma SpaceExactly(c: char)
    ensures IsSpace(c) <==> c as int in WHITE_SPACE
  {
    if IsSpace(c) {
      assert WHITE_SPACE[SpaceNumber(c)] == c as int;
    }
    if k :| 0 <= k < |WHITE_SPACE| && WHITE_SPACE[k] == c as int {
      assert k == SpaceNumber(c) && IsSpace(c);
    }
  }

  function SpaceNumber(c: char): (k: nat)
    ensures k < 25
  {
    var n := c as int;
    if 0x9 <= n <= 0xD then n - 0x9
    else if n == 0x20 then 5
    else if n == 0x85 then 6
    else if n == 0xA0 then 7
    else if n == 0x1680 then 8
    else if 0x2000 <= n <= 0x200A then n - 0x2000 + 9
    else if n == 0x2028 then 20
    else if n == 0x2029 then 21
    else if n == 0x202F then 22
    else if n == 0x205F then 23
    else 24
  }

  function Trim(s: string): string {
    if |s| > 0 && IsSpace(s[0]) then Trim(s[1..])
    else if |s| > 0 && IsSpace(s[|s| - 1]) then Trim(s[..|s| - 1])
    else s
  }

  function Upper(c: char): char {
    if 'a' <= c <= 'z' then 'A' + (c - 'a') else c
  }

  function Uppercase(s: string): (u: string)
    ensures |u| == |s| && forall i :: 0 <= i < |s| ==> u[i] == Upper(s[i])
  {
    seq(|s|, i requires 0 <= i < |s| => Upper(s[i]))
  }

  predicate IsLetter(c: char) {
    'A' <= c <= 'Z' || 'a' <= c <= 'z'
  }

  predicate TwoLetters(s: string) {
    |s| == 2 && IsLetter(s[0]) && IsLetter(s[1])
  }

  /** The names the feed is known to spell out. */
  function Alias(s: string): Option<string> {
    if s == "UK" || s == "UNITED KINGDOM" then Some("GB")
    else if s == "UNITED STATES" || s == "USA" then Some("US")
    else if s == "GERMANY" then Some("DE")
    else if s == "JAPAN" then Some("JP")
    else if s == "HONG KONG" then Some("HK")
    else if s == "SINGAPORE" then Some("SG")
    else if s == "NETHERLANDS" then Some("NL")
    else if s == "FRANCE" then Some("FR")
    else if s == "SOUTH KOREA" then Some("KR")
    else if s == "TAIWAN" then Some("TW")
    else if s == "AUSTRALIA" then Some("AU")
    else if s == "CANADA" then Some("CA")
    else if s == "BRAZIL" then Some("BR")
    else if s == "INDIA" then Some("IN")
    else None
  }

  function NormalizeCountry(raw: Option<string>): string {
    var value := Uppercase(Trim(if raw.Some? then raw.value else ""));
    match Alias(value)
    case Some(code) => code
    case None => if TwoLetters(value) then value else UNKNOWN
  }

  /** Two capital letters, and the United Kingdom under its ISO code. */
  predicate IsCode(s: string) {
    |s| == 2 && 'A' <= s[0] <= 'Z' && 'A' <= s[1] <= 'Z' && s != "UK"
  }

  lemma AliasIsCode(s: string)
    ensures Alias(s).Some? ==> IsCode(Alias(s).value)
    ensures IsCode(s) ==> Alias(s).None?
  {
  }

  lemma CodeIsStable(s: string)
    requires |s| == 2 && IsLetter(s[0]) && IsLetter(s[1])
    ensures Trim(s) == s
  {
  }

  /** Whatever the feed says, the result is a code. */
  lemma NormalizeGivesCode(raw: Option<string>)
    ensures IsCode(NormalizeCountry(raw))
  {
    var value := Uppercase(Trim(if raw.Some? then raw.value else ""));
    AliasIsCode(value);
  }

  /** The fixed points of normalisation are exactly the codes, so it is idempotent and the
      check a cached dataset must pass accepts exactly codes. */
  lemma NormalizeFixes(s: string)
    ensures NormalizeCountry(Some(s)) == s <==> IsCode(s)
  {
    NormalizeGivesCode(Some(s));
    if IsCode(s) {
      CodeIsStable(s);
      assert Uppercase(s) == s;
      AliasIsCode(s);
    }
  }

  /** `parse_country_code` */
  function ParseCode(raw: string): (r: Option<string>)
    ensures r.Some? ==> IsCode(r.value)
  {
    var value := Uppercase(Trim(raw));
    if TwoLetters(value) then Some(if value == "UK" then "GB" else value) else None
  }

  // ---------------------------------------------------------------- spelling

  ghost predicate Blank(s: string) {
    forall i :: 0 <= i < |s| ==> IsSpace(s[i])
  }

  /** The same character, or the lower-case letter at the same place of the alphabet. */
  predicate SameLetter(c: char, capital: char) {
    c == capital || ('a' <= c <= 'z' && 'A' <= capital <= 'Z' && c as int - 'a' as int == capital as int - 'A' as int)
  }

  /** A text writes a name in capitals: in any mixture of cases, with white space around it. */
  ghost predicate Writes(pre: string, core: string, post: string, name: string) {
    && Blank(pre) && Blank(post) && |core| == |name| > 0
    && forall i :: 0 <= i < |name| ==> SameLetter(core[i], name[i])
  }

  /** Capital letters, perhaps with spaces inside. */
  predicate InCapitals(name: string) {
    && |name| > 0 && name[0] != ' ' && name[|name| - 1] != ' '
    && forall i :: 0 <= i < |name| ==> 'A' <= name[i] <= 'Z' || name[i] == ' '
  }

  lemma {:induction false} TrimStrips(pre: string, core: string, post: string)
    requires Blank(pre) && Blank(post) && |core| > 0 && !IsSpace(core[0]) && !IsSpace(core[|core| - 1])
    ensures Trim(pre + core + post) == core
    decreases |pre| + |post|
  {
    var s := pre + core + post;
    if |pre| > 0 {
      assert s[1..] == pre[1..] + core + post;
      TrimStrips(pre[1..], core, post);
    } else if |post| > 0 {
      assert s[..|s| - 1] == pre + core + post[..|post| - 1];
      TrimStrips(pre, core, post[..|post| - 1]);
    } else {
      assert s == core;
    }
  }

  lemma {:induction false} TrimParts(s: string) returns (pre: string, post: string)
    ensures s == pre + Trim(s) + post && Blank(pre) && Blank(post)
  {
    if |s| > 0 && IsSpace(s[0]) {
      HeadTail(s);
      pre, post := TrimParts(s[1..]);
      Assoc([s[0]], pre + Trim(s), post);
      Assoc([s[0]], pre, Trim(s));
      pre := [s[0]] + pre;
    } else if |s| > 0 && IsSpace(s[|s| - 1]) {
      InitLast(s);
      pre, post := TrimParts(s[..|s| - 1]);
      Assoc(pre + Trim(s), post, [s[|s| - 1]]);
      post := post + [s[|s| - 1]];
    } else {
      pre, post := "", "";
      NilLeft(s);
      NilRight(s);
    }
  }

  lemma WrittenIsRead(pre: string, core: string, post: string, name: string)
    requires Writes(pre, core, post, name) && InCapitals(name)
    ensures Uppercase(Trim(pre + core + post)) == name
  {
    TrimStrips(pre, core, post);
    assert forall i :: 0 <= i < |name| ==> Upper(core[i]) == name[i];
  }

  /** Every name the feed is known to spell out, with its code. */
  const ALIASES: seq<(string, string)> := [
    ("UK", "GB"), ("UNITED KINGDOM", "GB"), ("UNITED STATES", "US"), ("USA", "US"), ("GERMANY", "DE"), ("JAPAN", "JP"),
    ("HONG KONG", "HK"), ("SINGAPORE", "SG"), ("NETHERLANDS", "NL"), ("FRANCE", "FR"), ("SOUTH KOREA", "KR"),
    ("TAIWAN", "TW"), ("AUSTRALIA", "AU"), ("CANADA", "CA"), ("BRAZIL", "BR"), ("INDIA", "IN")]

  lemma AliasListed(k: nat)
    requires k < |ALIASES|
    ensures InCapitals(ALIASES[k].0) && Alias(ALIASES[k].0) == Some(ALIASES[k].1)
  {
    InCapitalsListed(k);
    if k < 6 {
      FirstListed(k);
    } else if k < 11 {
      NextListed(k);
    } else {
      LastListed(k);
    }
  }

  lemma InCapitalsListed(k: nat)
    requires k < |ALIASES|
    ensures InCapitals(ALIASES[k].0)
  {
  }

  lemma FirstListed(k: nat)
    requires k < 6
    ensures Alias(ALIASES[k].0) == Some(ALIASES[k].1)
  {
  }

  lemma NextListed(k: nat)
    requires 6 <= k < 11
    ensures Alias(ALIASES[k].0) == Some(ALIASES[k].1)
  {
  }

  lemma LastListed(k: nat)
    requires 11 <= k < |ALIASES|
    ensures Alias(ALIASES[k].0) == Some(ALIASES[k].1)
  {
  }

  /** A known name is given its code, however it is written. */
  lemma NameReads(pre: string, core: string, post: string, k: nat)
    requires k < |ALIASES| && Writes(pre, core, post, ALIASES[k].0)
    ensures NormalizeCountry(Some(pre + core + post)) == ALIASES[k].1
  {
    AliasListed(k);
    WrittenIsRead(pre, core, post, ALIASES[k].0);
  }

  /** And a code is itself. */
  lemma LettersRead(pre: string, core: string, post: string, code: string)
    requires IsCode(code) && Writes(pre, core, post, code)
    ensures NormalizeCountry(Some(pre + core + post)) == code && ParseCode(pre + core + post) == Some(code)
  {
    WrittenIsRead(pre, core, post, code);
    AliasIsCode(code);
  }

  lemma AliasFound(s: string) returns (k: nat)
    requires Alias(s).Some?
    ensures k < |ALIASES| && ALIASES[k] == (s, Alias(s).value)
  {
    k := if s == "UK" then 0 else if s == "UNITED KINGDOM" then 1 else if s == "UNITED STATES" then 2 else if s == "USA" then 3
      else if s == "GERMANY" then 4 else if s == "JAPAN" then 5 else if s == "HONG KONG" then 6 else if s == "SINGAPORE" then 7
      else if s == "NETHERLANDS" then 8 else if s == "FRANCE" then 9 else if s == "SOUTH KOREA" then 10
      else if s == "TAIWAN" then 11 else if s == "AUSTRALIA" then 12 else if s == "CANADA" then 13
      else if s == "BRAZIL" then 14 else 15;
  }

  lemma UpperWrites(core: string)
    requires |core| > 0
    ensures Writes("", core, "", Uppercase(core))
  {
  }

  /** Any other text is unknown: whatever gets a code of its own writes that code or one of the
      known names. */
  lemma OnlyWritten(raw: string) returns (pre: string, core: string, post: string, name: string)
    requires NormalizeCountry(Some(raw)) != UNKNOWN
    ensures raw == pre + core + post && Writes(pre, core, post, name)
    ensures (name, NormalizeCountry(Some(raw))) in ALIASES || (name == NormalizeCountry(Some(raw)) && IsCode(name))
  {
    pre, post := TrimParts(raw);
    core := Trim(raw);
    name := Uppercase(core);
    assert Alias("").None?;
    UpperWrites(core);
    NormalizeGivesCode(Some(raw));
    if Alias(name).Some? {
      var k := AliasFound(name);
      assert ALIASES[k] in ALIASES;
    }
  }

  /** A piece of a filter is read exactly if it writes two letters; "UK" is "GB". */
  lemma PieceReads(pre: string, core: string, post: string, letters: string)
    requires Writes(pre, core, post, letters) && |letters| == 2 && InCapitals(letters)
    ensures ParseCode(pre + core + post) == Some(if letters == "UK" then "GB" else letters)
  {
    WrittenIsRead(pre, core, post, letters);
  }

  lemma OnlyLettersRead(raw: string) returns (pre: string, core: string, post: string, letters: string)
    requires ParseCode(raw).Some?
    ensures raw == pre + core + post && Writes(pre, core, post, letters) && |letters| == 2 && InCapitals(letters)
    ensures ParseCode(raw).value == if letters == "UK" then "GB" else letters
  {
    pre, post := TrimParts(raw);
    core := Trim(raw);
    letters := Uppercase(core);
    UpperWrites(core);
  }

  // ---------------------------------------------------------------- filters

  predicate IsSeparator(c: char) {
    c == ',' || c == '+' || IsSpace(c)
  }

  /** `split` on the separators, keeping empty pieces. */
  function Pieces(raw: string): (p: seq<string>)
    ensures |p| > 0
  {
    if |raw| == 0 then [""]
    else
      var p, c := Pieces(raw[..|raw| - 1]), raw[|raw| - 1];
      if IsSeparator(c) then p + [""] else Grown(p, c)
  }

  /** The last piece goes on. */
  function Grown(p: seq<string>, c: char): seq<string>
    requires |p| > 0
  {
    p[..|p| - 1] + [p[|p| - 1] + [c]]
  }

  lemma GrownRight(p: seq<string>, q: seq<string>, c: char)
    requires |q| > 0
    ensures Grown(p + q, c) == p + Grown(q, c)
  {
    assert (p + q)[..|p + q| - 1] == p + q[..|q| - 1];
  }

  lemma PieceOne(s: string, c: char)
    ensures Pieces(s + [c]) == if IsSeparator(c) then Pieces(s) + [""] else Grown(Pieces(s), c)
  {
    assert (s + [c])[..|s|] == s;
  }

  lemma {:induction false} PieceWhole(s: string)
    requires forall i :: 0 <= i < |s| ==> !IsSeparator(s[i])
    ensures Pieces(s) == [s]
    decreases |s|
  {
    if |s| > 0 {
      PieceWhole(s[..|s| - 1]);
      InitLast(s);
    }
  }

  /** Every separator cuts, and what has none is one piece. */
  lemma {:induction false} PiecesCut(a: string, c: char, b: string)
    requires IsSeparator(c)
    ensures Pieces(a + [c] + b) == Pieces(a) + Pieces(b)
    decreases |b|
  {
    if |b| == 0 {
      NilRight(a + [c]);
      PieceOne(a, c);
    } else {
      var front, last := b[..|b| - 1], b[|b| - 1];
      PiecesCut(a, c, front);
      InitLast(b);
      Assoc(a + [c], front, [last]);
      PieceOne(a + [c] + front, last);
      PieceOne(front, last);
      GrownRight(Pieces(a), Pieces(front), last);
      Assoc(Pieces(a), Pieces(front), [""]);
    }
  }

  /** The codes of the non-empty pieces, in order; none if some piece is not a code. */
  function Codes(pieces: seq<string>): Option<seq<string>> {
    if |pieces| == 0 then Some([])
    else
      var last := pieces[|pieces| - 1];
      match Codes(pieces[..|pieces| - 1])
      case None => None
      case Some(cs) =>
        if last == "" then Some(cs)
        else if ParseCode(last).Some? then Some(cs + [ParseCode(last).value])
        else None
  }

  /** First occurrences only. */
  function Dedup(cs: seq<string>): (d: seq<string>)
    ensures Distinct(d)
    ensures forall c :: c in d <==> c in cs
  {
    if |cs| == 0 then []
    else
      var before, c := Dedup(cs[..|cs| - 1]), cs[|cs| - 1];
      assert forall x :: x in cs <==> x in cs[..|cs| - 1] || x == c;
      if c in before then before else before + [c]
  }

  /** The first place of a code. */
  function First(cs: seq<string>, c: string): (i: nat)
    requires c in cs
    ensures i < |cs| && cs[i] == c && c !in cs[..i]
  {
    if cs[0] == c then 0
    else
      assert cs == [cs[0]] + cs[1..];
      var i := First(cs[1..], c);
      assert cs[..i + 1] == [cs[0]] + cs[1..][..i];
      i + 1
  }

  lemma FirstUnique(cs: seq<string>, c: string, i: nat)
    requires i < |cs| && cs[i] == c && c !in cs[..i]
    ensures First(cs, c) == i
  {
    var j := First(cs, c);
    assert forall m :: 0 <= m < i ==> cs[m] == cs[..i][m];
    assert forall m :: 0 <= m < j ==> cs[m] == cs[..j][m];
  }

  lemma FirstStays(cs: seq<string>, more: string, c: string)
    requires c in cs
    ensures First(cs + [more], c) == First(cs, c)
  {
    var i := First(cs, c);
    assert (cs + [more])[..i] == cs[..i];
    FirstUnique(cs + [more], c, i);
  }

  /** In the order of first mention. */
  lemma {:induction false} DedupInOrder(cs: seq<string>, i: nat, j: nat)
    requires i < j < |Dedup(cs)|
    ensures First(cs, Dedup(cs)[i]) < First(cs, Dedup(cs)[j])
  {
    var front, last := cs[..|cs| - 1], cs[|cs| - 1];
    var d := Dedup(front);
    InitLast(cs);
    FirstStays(front, last, Dedup(cs)[i]);
    if j < |d| {
      DedupInOrder(front, i, j);
      FirstStays(front, last, Dedup(cs)[j]);
    } else {
      assert cs[First(cs, last)] == last && last !in front;
    }
  }

  lemma {:induction false} CodesPrefix(pieces: seq<string>, n: nat)
    requires n <= |pieces| && Codes(pieces).Some?
    ensures Codes(pieces[..n]).Some?
    decreases |pieces|
  {
    if n == |pieces| {
      WholeTake(pieces);
    } else {
      assert pieces[..|pieces| - 1][..n] == pieces[..n];
      CodesPrefix(pieces[..|pieces| - 1], n);
    }
  }

  /** `parse_filter`: each code once, in the order of first mention, and never an empty list. */
  method ParseFilter(raw: string) returns (r: Option<seq<string>>)
    ensures r.Some? <==> Codes(Pieces(raw)).Some? && Codes(Pieces(raw)).value != []
    ensures r.Some? ==> r.value == Dedup(Codes(Pieces(raw)).value)
    ensures r.Some? ==> Distinct(r.value) && |r.value| > 0
  {
    var pieces := Pieces(raw);
    var countries: seq<string> := [];
    var seen: set<string> := {};
    for i := 0 to |pieces|
      invariant Codes(pieces[..i]).Some? && countries == Dedup(Codes(pieces[..i]).value)
      invariant forall c :: c in seen <==> c in countries
    {
      assert pieces[..i + 1][..i] == pieces[..i];
      if pieces[i] != "" {
        var country := ParseCode(pieces[i]);
        if country.None? {
          if Codes(pieces).Some? {
            CodesPrefix(pieces, i + 1);
          }
          return None;
        }
        ghost var cs := Codes(pieces[..i]).value;
        assert (cs + [country.value])[..|cs|] == cs;
        if country.value !in seen {
          seen := seen + {country.value};
          countries := countries + [country.value];
        }
      }
    }
    WholeTake(pieces);
    if |countries| == 0 {
      assert forall c :: c !in Codes(pieces).value;
      return None;
    }
    return Some(countries);
  }

  // ---------------------------------------------------------------- merging reports

  /** The code kept when an endpoint with code `existing` is reported again under `code`. */
  function Merge(existing: string, code: string): string {
    if code != existing && (existing == UNKNOWN || Less(code, existing)) then code else existing
  }

  /** The code an endpoint ends up with after the reports `cs`. */
  function MergeAll(cs: seq<string>): (m: string)
    requires |cs| > 0
    ensures m in cs
  {
    var last := cs[|cs| - 1];
    if |cs| == 1 then last else Merge(MergeAll(cs[..|cs| - 1]), last)
  }

  function Least(cs: seq<string>): (l: string)
    requires |cs| > 0
    ensures l in cs
  {
    var last := cs[|cs| - 1];
    if |cs| == 1 then last
    else
      var l := Least(cs[..|cs| - 1]);
      if Less(last, l) then last else l
  }

  lemma {:induction false} LeastBelow(cs: seq<string>, c: string)
    requires c in cs
    ensures Least(cs) == c || Less(Least(cs), c)
    decreases |cs|
  {
    var last := cs[|cs| - 1];
    if |cs| > 1 {
      var front := cs[..|cs| - 1];
      InitLast(cs);
      LessTotal(last, Least(front));
      if c != last {
        LeastBelow(front, c);
        if Less(last, Least(front)) && Least(front) != c {
          LessTransitive(last, Least(front), c);
        }
      }
    }
  }

  /** The merged code is the least code reported, exactly unless "XX" is the least and was
      not reported last. */
  lemma {:induction false} MergeAllIsLeast(cs: seq<string>)
    requires |cs| > 0
    ensures MergeAll(cs) == Least(cs) <==> Least(cs) != UNKNOWN || cs[|cs| - 1] == UNKNOWN
    decreases |cs|
  {
    var last := cs[|cs| - 1];
    if |cs| > 1 {
      var front := cs[..|cs| - 1];
      var m, l := MergeAll(front), Least(front);
      MergeAllIsLeast(front);
      LeastBelow(front, m);
      LessTotal(last, l);
      LessTotal(last, m);
      LessTotal(m, UNKNOWN);
      LessTotal(last, UNKNOWN);
      if l == UNKNOWN && m != UNKNOWN && Less(last, UNKNOWN) {
        LessTransitive(last, UNKNOWN, m);
      }
      if last == UNKNOWN && l != UNKNOWN && m != l && Less(last, l) {
        LessTransitive(last, l, m);
      }
    }
  }

  predicate OnlyUnknown(cs: seq<string>) {
    forall c :: c in cs ==> c == UNKNOWN
  }

  lemma LeastOfPermutation(cs: seq<string>, ds: seq<string>)
    requires |cs| > 0 && multiset(cs) == multiset(ds)
    ensures |ds| > 0 && Least(cs) == Least(ds)
  {
    assert |multiset(cs)| == |multiset(ds)|;
    assert Least(cs) in multiset(ds) && Least(ds) in multiset(cs);
    LeastBelow(cs, Least(ds));
    LeastBelow(ds, Least(cs));
    LessTotal(Least(cs), Least(ds));
  }

  ghost predicate EveryOrderGivesLeast(cs: seq<string>)
    requires |cs| > 0
  {
    forall ds: seq<string> :: multiset(ds) == multiset(cs) && |ds| > 0 ==> MergeAll(ds) == Least(cs)
  }

  lemma MergeAnyOrder(cs: seq<string>, ds: seq<string>)
    requires |cs| > 0 && |ds| > 0 && multiset(ds) == multiset(cs)
    requires Least(cs) != UNKNOWN || OnlyUnknown(cs)
    ensures MergeAll(ds) == Least(cs)
  {
    LeastOfPermutation(cs, ds);
    SameMembers(cs, ds, ds[|ds| - 1]);
    MergeAllIsLeast(ds);
  }

  lemma SameMembers(cs: seq<string>, ds: seq<string>, c: string)
    requires multiset(cs) == multiset(ds)
    ensures c in cs <==> c in ds
  {
    assert c in cs <==> c in multiset(cs);
    assert c in ds <==> c in multiset(ds);
  }

  function MovedLast<T>(cs: seq<T>, i: nat): (ds: seq<T>)
    requires i < |cs|
    ensures |ds| == |cs| && ds[|ds| - 1] == cs[i]
  {
    cs[..i] + cs[i + 1..] + [cs[i]]
  }

  lemma MovedLastPermutes<T>(cs: seq<T>, i: nat)
    requires i < |cs|
    ensures multiset(MovedLast(cs, i)) == multiset(cs)
  {
    assert cs == cs[..i] + [cs[i]] + cs[i + 1..];
  }

  /** The order of the reports does not matter exactly if "XX" is not the least code
      reported, or is the only one. */
  lemma OrderIrrelevant(cs: seq<string>)
    requires |cs| > 0
    ensures EveryOrderGivesLeast(cs) <==> Least(cs) != UNKNOWN || OnlyUnknown(cs)
  {
    if Least(cs) != UNKNOWN || OnlyUnknown(cs) {
      forall ds: seq<string> | multiset(ds) == multiset(cs) && |ds| > 0 ensures MergeAll(ds) == Least(cs) {
        MergeAnyOrder(cs, ds);
      }
    } else {
      var i :| 0 <= i < |cs| && cs[i] != UNKNOWN;
      var ds := MovedLast(cs, i);
      MovedLastPermutes(cs, i);
      LeastOfPermutation(cs, ds);
      MergeAllIsLeast(ds);
    }
  }

  /** Reports "XX" then "ZA" end as "ZA"; the other way round they end as "XX". */
  lemma UnknownOverwritesLaterCode()
    ensures MergeAll(["XX", "ZA"]) == "ZA" && MergeAll(["ZA", "XX"]) == "XX"
  {
    assert ["XX", "ZA"][..1] == ["XX"] && ["ZA", "XX"][..1] == ["ZA"];
    assert Less("XX", "ZA") && !Less("ZA", "XX");
  }
}
