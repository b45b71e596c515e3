/**
  The Python `str` operations the relay relies on: `strip()`,
  `partition(sep)`, `rstrip(chars)`, `lower()` and `str(int)`, each with the
  property that pins it down.
 */
module PyStr {

  /** Python's `str.isspace` for a single character: the ASCII whitespace and
      information-separator controls, NEL, and the Unicode space and line
      separators. */
  predicate IsSpace(c: char) {
    || c == ' ' || c == '\t' || c == '\n' || c == '\r'
    || c == '\U{000B}' || c == '\U{000C}'
    || c == '\U{001C}' || c == '\U{001D}' || c == '\U{001E}' || c == '\U{001F}'
    || c == '\U{0085}' || c == '\U{00A0}' || c == '\U{1680}'
    || ('\U{2000}' <= c <= '\U{200A}')
    || c == '\U{2028}' || c == '\U{2029}' || c == '\U{202F}' || c == '\U{205F}'
    || c == '\U{3000}'
  }

  ghost predicate AllSpace(s: string) {
    forall k :: 0 <= k < |s| ==> IsSpace(s[k])
  }

  /** Neither end of `s` is whitespace. */
  predicate Trimmed(s: string) {
    s == [] || (!IsSpace(s[0]) && !IsSpace(s[|s| - 1]))
  }

  /** `s` is `r` with nothing but whitespace added on either side. */
  ghost predicate Pads(s: string, r: string) {
    exists a, b :: AllSpace(a) && AllSpace(b) && s == a + r + b
  }

  /** How many whitespace characters `s` starts with. */
  function LeadingSpaces(s: string): (n: nat)
    ensures n <= |s|
    ensures forall k :: 0 <= k < n ==> IsSpace(s[k])
    ensures n < |s| ==> !IsSpace(s[n])
  {
    if s != [] && IsSpace(s[0]) then 1 + LeadingSpaces(s[1..]) else 0
  }

  /** How many whitespace characters `s` ends with. */
  function TrailingSpaces(s: string): (n: nat)
    ensures n <= |s|
    ensures forall k :: |s| - n <= k < |s| ==> IsSpace(s[k])
    ensures n < |s| ==> !IsSpace(s[|s| - 1 - n])
  {
    if s != [] && IsSpace(s[|s| - 1]) then 1 + TrailingSpaces(s[..|s| - 1]) else 0
  }

  /** `str.strip()`: the text between the leading and the trailing whitespace. */
  function Strip(s: string): (r: string)
    ensures Trimmed(r)
  {
    var i := LeadingSpaces(s);
    if i == |s| then [] else s[i..|s| - TrailingSpaces(s)]
  }

  /** What `strip()` removes is whitespace, from the two ends only. */
  lemma StripPads(s: string)
    ensures Pads(s, Strip(s))
  {
    var i, n := LeadingSpaces(s), TrailingSpaces(s);
    if i == |s| {
      var e: string := [];
      assert Strip(s) == e && AllSpace(s) && AllSpace(e);
      assert s == s + e + e;
    } else {
      var a, r, b := s[..i], s[i..|s| - n], s[|s| - n..];
      assert r == Strip(s);
      assert forall k :: 0 <= k < |a| ==> a[k] == s[k];
      assert forall k :: 0 <= k < |b| ==> b[k] == s[|s| - n + k];
      assert AllSpace(a) && AllSpace(b);
      assert s == a + r + b;
    }
  }

  /** The two counts are pinned down by their contracts. */
  lemma LeadingSpacesExactly(s: string, m: nat)
    requires m <= |s| && (forall k :: 0 <= k < m ==> IsSpace(s[k])) && (m < |s| ==> !IsSpace(s[m]))
    ensures LeadingSpaces(s) == m
  {
  }

  lemma TrailingSpacesExactly(s: string, m: nat)
    requires m <= |s| && (forall k :: |s| - m <= k < |s| ==> IsSpace(s[k])) && (m < |s| ==> !IsSpace(s[|s| - 1 - m]))
    ensures TrailingSpaces(s) == m
  {
  }

  /** `strip()` is determined by its contract: a trimmed string padded with
      whitespace on both sides strips back to itself. */
  lemma StripUnique(a: string, r: string, b: string)
    requires AllSpace(a) && Trimmed(r) && AllSpace(b)
    ensures Strip(a + r + b) == r
  {
    var s := a + r + b;
    if r == [] {
      assert s == a + b;
      LeadingSpacesExactly(s, |s|);
    } else {
      assert s[|a|] == r[0] && s[|a| + |r| - 1] == r[|r| - 1];
      LeadingSpacesExactly(s, |a|);
      TrailingSpacesExactly(s, |b|);
      assert s[|a|..|a| + |r|] == r;
    }
  }

  /** A string with no surrounding whitespace strips to itself. */
  lemma StripTrimmed(s: string)
    requires Trimmed(s)
    ensures Strip(s) == s
  {
    assert [] + s + [] == s;
    StripUnique([], s, []);
  }

  lemma StripIdempotent(s: string)
    ensures Strip(Strip(s)) == Strip(s)
  {
    StripTrimmed(Strip(s));
  }

  /** `strip()` only removes characters: whatever `s` lacks, so does `Strip(s)`. */
  lemma StripKeepsOut(s: string, c: char)
    requires c !in s
    ensures c !in Strip(s)
  {
    var i := LeadingSpaces(s);
    if i < |s| {
      var r := Strip(s);
      assert forall k :: 0 <= k < |r| ==> r[k] == s[i + k];
    }
  }

  /** `strip()` yields the empty string exactly on all-whitespace input. */
  lemma StripEmptyIff(s: string)
    ensures Strip(s) == [] <==> AllSpace(s)
  {
    if AllSpace(s) {
      LeadingSpacesExactly(s, |s|);
    }
  }

  /** The result of `str.partition(sep)` for a one-character separator. */
  datatype Parts = Parts(head: string, sep: string, tail: string)

  /** `str.partition(sep)`: splits at the first `sep`, or returns `(s, "", "")`
      when there is none. */
  function Partition(s: string, sep: char): (p: Parts)
    ensures p.head + p.sep + p.tail == s
    ensures sep !in p.head
    ensures p.sep == [sep] <==> sep in s
    ensures sep !in s ==> p == Parts(s, [], [])
  {
    if s == [] then Parts([], [], [])
    else if s[0] == sep then Parts([], [sep], s[1..])
    else
      var p := Partition(s[1..], sep);
      assert s == [s[0]] + s[1..];
      Parts([s[0]] + p.head, p.sep, p.tail)
  }

  /** The split happens at the FIRST separator: later ones stay in the tail. */
  lemma {:induction false} PartitionAtFirst(p: string, sep: char, r: string)
    requires sep !in p
    ensures Partition(p + [sep] + r, sep) == Parts(p, [sep], r)
  {
    if p != [] {
      assert (p + [sep] + r)[1..] == p[1..] + [sep] + r;
      PartitionAtFirst(p[1..], sep, r);
    } else {
      assert p + [sep] + r == [sep] + r;
    }
  }

  /** `n` copies of `c` (Python's `c * n`). */
  function Repeat(c: char, n: nat): (r: string)
    ensures |r| == n && forall i :: 0 <= i < n ==> r[i] == c
  {
    seq(n, _ => c)
  }

  /** `str.rstrip(c)` for one character `c`: drops every trailing `c`. */
  function RStripChar(s: string, c: char): (r: string)
    ensures |r| <= |s| && s == r + Repeat(c, |s| - |r|)
    ensures r == [] || r[|r| - 1] != c
  {
    if s != [] && s[|s| - 1] == c then
      var r := RStripChar(s[..|s| - 1], c);
      assert s == s[..|s| - 1] + [c];
      assert Repeat(c, |s| - |r|) == Repeat(c, |s| - 1 - |r|) + [c];
      r
    else
      assert s == s + Repeat(c, 0);
      s
  }

  /** Trailing copies of `c` make no difference to `rstrip(c)`. */
  lemma {:induction false} RStripCharIgnoresPadding(s: string, c: char, n: nat)
    ensures RStripChar(s + Repeat(c, n), c) == RStripChar(s, c)
  {
    if n > 0 {
      var t := s + Repeat(c, n);
      assert t[..|t| - 1] == s + Repeat(c, n - 1);
      RStripCharIgnoresPadding(s, c, n - 1);
    } else {
      assert s + Repeat(c, 0) == s;
    }
  }

  /** `rstrip(c)` is determined by its contract: if `s` is `r` followed by
      copies of `c` and `r` does not end in `c`, the result is `r`. */
  lemma RStripCharUnique(s: string, c: char, r: string, n: nat)
    requires s == r + Repeat(c, n)
    requires r == [] || r[|r| - 1] != c
    ensures RStripChar(s, c) == r
  {
    RStripCharIgnoresPadding(r, c, n);
  }

  /** ASCII case folding of one character. */
  function LowerChar(c: char): char {
    if 'A' <= c <= 'Z' then (c as int + 32) as char else c
  }

  /** `str.lower()` restricted to ASCII letters. */
  function AsciiLower(s: string): (r: string)
    ensures |r| == |s|
    ensures forall i :: 0 <= i < |s| ==> r[i] == LowerChar(s[i])
  {
    seq(|s|, i requires 0 <= i < |s| => LowerChar(s[i]))
  }

  predicate IsDigit(c: char) {
    '0' <= c <= '9'
  }

  predicate AllDigits(s: string) {
    forall i :: 0 <= i < |s| ==> IsDigit(s[i])
  }

  function DigitChar(d: nat): (c: char)
    requires d < 10
    ensures IsDigit(c) && c as int - '0' as int == d
  {
    ('0' as int + d) as char
  }

  /** Decimal digits of a natural number, without leading zeros. */
  function DecimalText(n: nat): (r: string)
    ensures r != [] && AllDigits(r)
    ensures r[0] == '0' ==> n == 0
  {
    if n < 10 then [DigitChar(n)] else DecimalText(n / 10) + [DigitChar(n % 10)]
  }

  /** The number a string of decimal digits denotes. */
  function DecimalValue(s: string): nat
    requires AllDigits(s)
  {
    if s == [] then 0 else DecimalValue(s[..|s| - 1]) * 10 + (s[|s| - 1] as int - '0' as int)
  }

  lemma {:induction false} DecimalRoundTrip(n: nat)
    ensures DecimalValue(DecimalText(n)) == n
  {
    if n >= 10 {
      var t := DecimalText(n);
      assert t[..|t| - 1] == DecimalText(n / 10);
      DecimalRoundTrip(n / 10);
    }
  }

  /** Python's `str(i)` for an integer. */
  function IntText(i: int): (r: string)
    ensures r != []
  {
    if i < 0 then "-" + DecimalText(-i) else DecimalText(i)
  }

  /** Reads back what `IntText` writes: an optional minus sign and digits. */
  function IntValue(s: string): int
    requires s != [] && (if s[0] == '-' then AllDigits(s[1..]) else AllDigits(s))
  {
    if s[0] == '-' then 0 - DecimalValue(s[1..]) as int else DecimalValue(s)
  }

  lemma IntTextRoundTrip(i: int)
    ensures var t := IntText(i); t != [] && (if t[0] == '-' then AllDigits(t[1..]) else AllDigits(t))
                                 && IntValue(t) == i
  {
    if i < 0 {
      assert IntText(i)[1..] == DecimalText(-i);
      DecimalRoundTrip(-i);
    } else {
      DecimalRoundTrip(i);
    }
  }
}
