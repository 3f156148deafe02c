/** The status code of an HTTP response as `http_connect` in `relay/src/egress.rs` reads it:
    the second word of the status line, as a decimal number of 16 bits, or else 0. */
module Status {
  import opened Bytes
  import opened Text

  // ---------------------------------------------------------------- words

  predicate AsciiSpace(c: byte) {
    9 <= c <= 13 || c == 32
  }

  /** The white space of two and of three bytes. */
  predicate ShortSpace(c: byte, d: byte) {
    c == 0xC2 && (d == 0x85 || d == 0xA0)
  }

  predicate LongSpace(c: byte, d: byte, e: byte) {
    || (c == 0xE1 && d == 0x9A && e == 0x80)
    || (c == 0xE2 && d == 0x80 && (0x80 <= e <= 0x8A || e == 0xA8 || e == 0xA9 || e == 0xAF))
    || (c == 0xE2 && d == 0x81 && e == 0x9F)
    || (c == 0xE3 && d == 0x80 && e == 0x80)
  }

  /** How many bytes the white space that starts here takes, in UTF-8; 0 if none does. */
  function SpaceAt(b: bytes, i: nat): (n: nat)
    ensures n > 0 ==> i + n <= |b|
  {
    if i < |b| && AsciiSpace(b[i]) then 1
    else if i + 1 < |b| && ShortSpace(b[i], b[i + 1]) then 2
    else if i + 2 < |b| && LongSpace(b[i], b[i + 1], b[i + 2]) then 3
    else 0
  }

  function SkipSpace(b: bytes, i: nat): (j: nat)
    requires i <= |b|
    ensures i <= j <= |b| && SpaceAt(b, j) == 0
    decreases |b| - i
  {
    if SpaceAt(b, i) == 0 then i else SkipSpace(b, i + SpaceAt(b, i))
  }

  function WordEnd(b: bytes, i: nat): (j: nat)
    requires i <= |b|
    ensures i <= j <= |b| && (j < |b| ==> SpaceAt(b, j) > 0)
    ensures forall k :: i <= k < j ==> SpaceAt(b, k) == 0
    decreases |b| - i
  {
    if i == |b| || SpaceAt(b, i) > 0 then i else WordEnd(b, i + 1)
  }

  /** `split_whitespace().nth(n)`, from position `i` on. */
  function NthWord(b: bytes, i: nat, n: nat): Option<bytes>
    requires i <= |b|
    decreases n
  {
    var from := SkipSpace(b, i);
    if from == |b| then None
    else if n == 0 then Some(b[from..WordEnd(b, from)])
    else NthWord(b, WordEnd(b, from), n - 1)
  }

  // ---------------------------------------------------------------- numbers

  predicate IsDigit(c: byte) {
    48 <= c <= 57
  }

  predicate AllDigits(w: bytes) {
    forall i :: 0 <= i < |w| ==> IsDigit(w[i])
  }

  function Value(w: bytes): nat
    requires AllDigits(w)
  {
    if |w| == 0 then 0 else Value(w[..|w| - 1]) * 10 + (w[|w| - 1] - 48)
  }

  /** `parse::<u16>`: digits behind at most one plus sign. */
  function ParseU16(w: bytes): Option<u16> {
    var digits := if |w| > 0 && w[0] == 43 then w[1..] else w;
    if |digits| == 0 || !AllDigits(digits) || Value(digits) >= 0x1_0000 then None else Some(Value(digits))
  }

  /** The code of a status line. */
  function Code(line: bytes): u16 {
    var word := NthWord(line, 0, 1);
    if word.None? || ParseU16(word.value).None? then 0 else ParseU16(word.value).value
  }

  // ---------------------------------------------------------------- what it reads

  /** Printable ASCII without the space. */
  predicate Visible(w: bytes) {
    |w| > 0 && forall i :: 0 <= i < |w| ==> 33 <= w[i] <= 126
  }

  /** Between two positions nothing but a word. */
  predicate WordBetween(b: bytes, from: nat, to: nat) {
    from < to <= |b| && (forall k :: from <= k < to ==> 33 <= b[k] <= 126) && (to < |b| ==> AsciiSpace(b[to]))
  }

  lemma WordFound(b: bytes, from: nat, to: nat)
    requires WordBetween(b, from, to)
    ensures SkipSpace(b, from) == from && WordEnd(b, from) == to
  {
    forall k | from <= k < to ensures SpaceAt(b, k) == 0 {
    }
    assert to < |b| ==> SpaceAt(b, to) == 1;
  }

  lemma SecondWord(b: bytes, n: nat, m: nat)
    requires n < |b| && b[n] == 32 && WordBetween(b, 0, n) && WordBetween(b, n + 1, m)
    ensures NthWord(b, 0, 1) == Some(b[n + 1..m])
  {
    WordFound(b, 0, n);
    WordFound(b, n + 1, m);
    assert SpaceAt(b, n) == 1;
    assert SkipSpace(b, n) == n + 1;
  }

  /** A version, a space, and a word that ends at the next white space or with the line: the
      code is what the word says. */
  lemma CodeOfWord(version: bytes, word: bytes, rest: bytes)
    requires Visible(version) && Visible(word) && (|rest| > 0 ==> AsciiSpace(rest[0]))
    ensures Code(version + [32] + word + rest) == if ParseU16(word).Some? then ParseU16(word).value else 0
  {
    var b, at := version + [32] + word + rest, |version| + 1;
    assert b[..|version|] == version && b[|version|] == 32 && b[at..at + |word|] == word;
    assert forall k :: 0 <= k < |version| ==> b[k] == version[k];
    assert forall k :: at <= k < at + |word| ==> b[k] == word[k - at];
    assert |rest| > 0 ==> b[at + |word|] == rest[0];
    SecondWord(b, |version|, at + |word|);
  }

  lemma {:induction false} DecimalDigits(n: nat)
    ensures AllDigits(Ascii(Decimal(n))) && Value(Ascii(Decimal(n))) == n && Visible(Ascii(Decimal(n)))
  {
    var b := Ascii(Decimal(n));
    if n < 10 {
      assert b == [48 + n] && b[..0] == [];
    } else {
      DecimalDigits(n / 10);
      assert Decimal(n)[|b| - 1] == Digit(n % 10) && b[|b| - 1] == 48 + n % 10;
      assert b[..|b| - 1] == Ascii(Decimal(n / 10));
    }
  }

  /** Every status code is read back from its line. */
  lemma CodeReads(version: bytes, code: u16, rest: bytes)
    requires Visible(version) && (|rest| > 0 ==> AsciiSpace(rest[0]))
    ensures Code(version + [32] + Ascii(Decimal(code)) + rest) == code
  {
    DecimalDigits(code);
    CodeOfWord(version, Ascii(Decimal(code)), rest);
  }
}
