/** The parts of Python's `str` and `re` behaviour that the scheduling core
    relies on: whitespace, digits, word characters, lower-casing, substring
    tests, `split()`, `"\n".join`, and integer rendering. Letters, digits and
    case are ASCII; whitespace is the full set `str.isspace()` accepts. */
module Text {

  /** `str.isspace()`; also the class `\s` of a `re` pattern on `str`. */
  predicate IsSpace(c: char) {
    var n := c as int;
    (9 <= n <= 13) || (28 <= n <= 32) || n == 0x85 || n == 0xA0 || n == 0x1680
    || (0x2000 <= n <= 0x200A) || n == 0x2028 || n == 0x2029 || n == 0x202F
    || n == 0x205F || n == 0x3000
  }

  predicate NotSpace(c: char) { !IsSpace(c) }

  predicate IsDigit(c: char) { '0' <= c <= '9' }

  /** The class `\w` of a `re` pattern. */
  predicate IsWordChar(c: char) {
    IsDigit(c) || ('a' <= c <= 'z') || ('A' <= c <= 'Z') || c == '_'
  }

  predicate NotNewline(c: char) { c != '\n' }

  function LowerChar(c: char): char {
    if 'A' <= c <= 'Z' then (c as int + 32) as char else c
  }

  /** `str.lower()`. */
  function Lower(s: string): string {
    seq(|s|, i requires 0 <= i < |s| => LowerChar(s[i]))
  }

  /** Python's `t in s` for two strings. */
  function Contains(s: string, t: string): bool
    decreases |s|
  {
    if |t| > |s| then false
    else if s[..|t|] == t then true
    else Contains(s[1..], t)
  }

  /** A substring occurrence of `t` at position `i` makes `t in s` true. */
  lemma {:induction false} ContainsAt(s: string, t: string, i: nat)
    requires i + |t| <= |s| && s[i..i + |t|] == t
    ensures Contains(s, t)
    decreases i
  {
    if s[..|t|] != t {
      assert i > 0;
      assert s[1..][i - 1..i - 1 + |t|] == s[i..i + |t|];
      ContainsAt(s[1..], t, i - 1);
    }
  }

  /** Every character of a contained string occurs in the container. */
  lemma {:induction false} ContainsChars(s: string, t: string, c: char)
    requires Contains(s, t) && c in t
    ensures c in s
    decreases |s|
  {
    if s[..|t|] != t {
      ContainsChars(s[1..], t, c);
    } else {
      var k :| 0 <= k < |t| && t[k] == c;
      assert s[k] == c;
    }
  }

  /** The regex assertion `\b` at position `i`. */
  predicate IsBoundary(s: string, i: int)
    requires 0 <= i <= |s|
  {
    (i > 0 && IsWordChar(s[i - 1])) != (i < |s| && IsWordChar(s[i]))
  }

  /** The end of the longest run of characters satisfying `p` from `i`. */
  function Span(s: string, i: nat, p: char -> bool): (j: nat)
    requires i <= |s|
    ensures i <= j <= |s|
    ensures forall k :: i <= k < j ==> p(s[k])
    ensures j < |s| ==> !p(s[j])
    decreases |s| - i
  {
    if i < |s| && p(s[i]) then Span(s, i + 1, p) else i
  }

  function WordsFrom(s: string, i: nat): seq<string>
    requires i <= |s|
    decreases |s| - i
  {
    var a := Span(s, i, IsSpace);
    if a == |s| then []
    else
      assert NotSpace(s[a]);
      var b := Span(s, a, NotSpace);
      [s[a..b]] + WordsFrom(s, b)
  }

  /** `str.split()` with no separator: the maximal runs of non-space characters. */
  function Words(s: string): seq<string> {
    WordsFrom(s, 0)
  }

  function DigitValue(c: char): nat {
    if IsDigit(c) then c as int - '0' as int else 0
  }

  /** `int(s)` for a string of decimal digits. */
  function DigitsValue(s: string): nat
    decreases |s|
  {
    if s == [] then 0 else DigitsValue(s[..|s| - 1]) * 10 + DigitValue(s[|s| - 1])
  }

  predicate AllDigits(s: string) {
    forall k :: 0 <= k < |s| ==> IsDigit(s[k])
  }

  function DigitChar(d: int): char
    requires 0 <= d <= 9
  {
    (48 + d) as char
  }

  /** `str(n)` for a natural number. */
  function NatToString(n: nat): string
    decreases n
  {
    if n < 10 then [DigitChar(n)] else NatToString(n / 10) + [DigitChar(n % 10)]
  }

  /** `str(i)` (an f-string field) for any integer. */
  function IntToString(i: int): string {
    if i < 0 then "-" + NatToString(-i) else NatToString(i)
  }

  /** Two digits with a leading zero, as `%I`, `%M` and `%d` of `strftime`
      render values below one hundred. */
  function Pad2(n: int): string {
    [DigitChar((n / 10) % 10), DigitChar(n % 10)]
  }

  /** Reading the decimal rendering of `n` back gives `n`, and the rendering
      is a non-empty run of digits. */
  lemma {:induction false} NatToStringRoundTrip(n: nat)
    ensures |NatToString(n)| >= 1 && AllDigits(NatToString(n))
    ensures DigitsValue(NatToString(n)) == n
    decreases n
  {
    if n >= 10 {
      NatToStringRoundTrip(n / 10);
      var s := NatToString(n);
      assert s[..|s| - 1] == NatToString(n / 10);
    }
  }

  lemma Pad2RoundTrip(n: int)
    requires 0 <= n < 100
    ensures |Pad2(n)| == 2 && AllDigits(Pad2(n))
    ensures DigitsValue(Pad2(n)) == n
  {
    var s := Pad2(n);
    assert s[..1] == [s[0]];
    assert DigitsValue(s[..1]) == DigitsValue([]) * 10 + DigitValue(s[0]);
  }

  /** `sep.join(parts)`. */
  function JoinWith(sep: string, parts: seq<string>): string
    decreases |parts|
  {
    if |parts| == 0 then ""
    else if |parts| == 1 then parts[0]
    else parts[0] + sep + JoinWith(sep, parts[1..])
  }

  function IndexOf(s: string, c: char): (k: nat)
    ensures k <= |s|
    ensures k < |s| ==> s[k] == c
    ensures forall j :: 0 <= j < k ==> s[j] != c
    decreases |s|
  {
    if |s| == 0 then 0 else if s[0] == c then 0 else 1 + IndexOf(s[1..], c)
  }

  /** `s.split(c)` for a one-character separator. */
  function SplitOn(s: string, c: char): seq<string>
    decreases |s|
  {
    var k := IndexOf(s, c);
    if k == |s| then [s] else [s[..k]] + SplitOn(s[k + 1..], c)
  }

  /** Splitting a join on its separator gives the parts back, when no part
      contains the separator. */
  lemma {:induction false} SplitJoin(parts: seq<string>, c: char)
    requires |parts| >= 1
    requires forall i :: 0 <= i < |parts| ==> c !in parts[i]
    ensures SplitOn(JoinWith([c], parts), c) == parts
    decreases |parts|
  {
    var p := parts[0];
    if |parts| == 1 {
    } else {
      var rest := JoinWith([c], parts[1..]);
      var s := p + [c] + rest;
      var k := IndexOf(s, c);
      assert s[|p|] == c;
      assert k == |p|;
      assert s[..k] == p;
      assert s[k + 1..] == rest;
      SplitJoin(parts[1..], c);
    }
  }

  /** Lower-casing works character by character. */
  lemma LowerAppend(a: string, b: string)
    ensures Lower(a + b) == Lower(a) + Lower(b)
  {
  }

  /** Lower-casing leaves digits alone. */
  lemma LowerDigits(s: string)
    requires AllDigits(s)
    ensures Lower(s) == s
  {
  }

  /** A string occurring in one of the same length is that string. */
  lemma ContainsSameLength(s: string, t: string)
    requires Contains(s, t) && |s| == |t|
    ensures s == t
  {
    assert s[..|t|] == s;
  }

  /** Joining a non-empty list with one more part at the end. */
  lemma {:induction false} JoinWithSnoc(sep: string, parts: seq<string>, last: string)
    requires |parts| >= 1
    ensures JoinWith(sep, parts + [last]) == JoinWith(sep, parts) + sep + last
    decreases |parts|
  {
    if |parts| == 1 {
      assert (parts + [last])[1..] == [last];
    } else {
      assert (parts + [last])[1..] == parts[1..] + [last];
      JoinWithSnoc(sep, parts[1..], last);
    }
  }

  /** Joining a non-empty list between a first and a last part. */
  lemma JoinWithFrame(sep: string, first: string, middle: seq<string>, last: string)
    requires |middle| >= 1
    ensures JoinWith(sep, [first] + middle + [last]) == first + sep + JoinWith(sep, middle) + sep + last
  {
    var parts := [first] + middle + [last];
    assert parts[1..] == middle + [last];
    JoinWithSnoc(sep, middle, last);
  }
}
