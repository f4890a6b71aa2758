/** The string operations the backend (Python) and the frontend (JavaScript)
    apply to command output and stream lines. */
module Text {
  import opened Wrappers

  /** Python's `str.isspace` for one character. */
  predicate IsPySpace(c: char) {
    var n := c as int;
    (9 <= n <= 13) || (0x1c <= n <= 0x20) || n == 0x85 || n == 0xa0 || n == 0x1680
    || (0x2000 <= n <= 0x200a) || n == 0x2028 || n == 0x2029 || n == 0x202f || n == 0x205f || n == 0x3000
  }

  /** The white space and line terminators JavaScript's `String.prototype.trim` removes. */
  predicate IsJsSpace(c: char) {
    var n := c as int;
    (9 <= n <= 13) || n == 0x20 || n == 0xa0 || n == 0x1680 || (0x2000 <= n <= 0x200a)
    || n == 0x2028 || n == 0x2029 || n == 0x202f || n == 0x205f || n == 0x3000 || n == 0xfeff
  }

  /** The boundaries Python's `str.splitlines` splits at ("\r\n" counts as one). */
  predicate IsLineBreak(c: char) {
    var n := c as int;
    (10 <= n <= 13) || (0x1c <= n <= 0x1e) || n == 0x85 || n == 0x2028 || n == 0x2029
  }

  predicate IsDigit(c: char) { '0' <= c <= '9' }

  predicate AllDigits(s: string) { forall i :: 0 <= i < |s| ==> IsDigit(s[i]) }

  predicate StartsWith(s: string, prefix: string) {
    |prefix| <= |s| && s[..|prefix|] == prefix
  }

  lemma {:induction false} StartsWithShorter(s: string, p: string, q: string)
    requires StartsWith(s, p + q)
    ensures StartsWith(s, p)
  {
    assert s[..|p|] == (p + q)[..|p|] == p;
  }

  predicate EndsWith(s: string, suffix: string) {
    |suffix| <= |s| && s[|s| - |suffix|..] == suffix
  }

  // ---------------------------------------------------------------- strip

  function StripLeft(s: string): (r: string)
    ensures |r| <= |s| && r == s[|s| - |r|..]
    ensures forall i :: 0 <= i < |s| - |r| ==> IsPySpace(s[i])
    ensures r == [] || !IsPySpace(r[0])
    decreases |s|
  {
    if s != [] && IsPySpace(s[0]) then StripLeft(s[1..]) else s
  }

  function StripRight(s: string): (r: string)
    ensures |r| <= |s| && r == s[..|r|]
    ensures forall i :: |r| <= i < |s| ==> IsPySpace(s[i])
    ensures r == [] || !IsPySpace(r[|r| - 1])
    decreases |s|
  {
    if s != [] && IsPySpace(s[|s| - 1]) then StripRight(s[..|s| - 1]) else s
  }

  /** `r` is `s` from index `lo` on, with only white space around it. */
  predicate TrimmedAt(s: string, r: string, lo: int) {
    0 <= lo && lo + |r| <= |s| && r == s[lo..lo + |r|]
    && (forall i :: 0 <= i < lo ==> IsPySpace(s[i]))
    && (forall i :: lo + |r| <= i < |s| ==> IsPySpace(s[i]))
  }

  /** Python's `str.strip()`: the text with its leading and trailing white space cut off. */
  function Strip(s: string): (r: string)
    ensures exists lo :: TrimmedAt(s, r, lo)
    ensures r == [] || (!IsPySpace(r[0]) && !IsPySpace(r[|r| - 1]))
  {
    var l := StripLeft(s);
    var r := StripRight(l);
    var lo := |s| - |l|;
    assert r == s[lo..lo + |r|];
    assert forall i :: lo + |r| <= i < |s| ==> s[i] == l[i - lo];
    assert TrimmedAt(s, r, lo);
    r
  }

  lemma {:induction false} StripKeepsTrimmed(s: string)
    requires s != [] && !IsPySpace(s[0]) && !IsPySpace(s[|s| - 1])
    ensures Strip(s) == s
  {
  }

  // ---------------------------------------------------------------- search

  /** `sub` occurs in `s` starting at index `j`. */
  predicate MatchAt(s: string, sub: string, j: int) {
    0 <= j && j + |sub| <= |s| && s[j..j + |sub|] == sub
  }

  /** Index of the first occurrence of `sub` in `s` (Python's `str.find`, JavaScript's `indexOf`). */
  function IndexOf(s: string, sub: string): (r: Option<nat>)
    ensures r.Some? ==> MatchAt(s, sub, r.value)
    ensures r.Some? ==> forall j :: 0 <= j < r.value ==> !MatchAt(s, sub, j)
    ensures r.None? ==> forall j :: !MatchAt(s, sub, j)
    decreases |s|
  {
    if |s| < |sub| then None
    else if s[..|sub|] == sub then Some(0)
    else
      var t := s[1..];
      assert forall j :: MatchAt(s, sub, j) <==> (j >= 1 && MatchAt(t, sub, j - 1)) by {
        forall j ensures MatchAt(s, sub, j) <==> (j >= 1 && MatchAt(t, sub, j - 1)) {
          if j == 0 {
            assert s[0..|sub|] == s[..|sub|];
          } else if 1 <= j && j + |sub| <= |s| {
            assert s[j..j + |sub|] == t[j - 1..j - 1 + |sub|];
          }
        }
      }
      match IndexOf(t, sub)
      case None => None
      case Some(i) => Some(i + 1)
  }

  /** Python's `sub in s`. */
  predicate Contains(s: string, sub: string) {
    IndexOf(s, sub).Some?
  }

  lemma {:induction false} ContainsAt(s: string, sub: string, j: nat)
    requires MatchAt(s, sub, j)
    ensures Contains(s, sub)
  {
  }

  lemma {:induction false} ContainsMiddle(a: string, b: string, c: string)
    ensures Contains(a + b + c, b)
  {
    var s := a + b + c;
    assert s[|a|..|a| + |b|] == b;
    ContainsAt(s, b, |a|);
  }

  lemma {:induction false} ContainsInner(a: string, b: string, c: string, d: string)
    ensures Contains(a + b + c + d, b + c + d)
  {
    var s := a + b + c + d;
    assert s[|a|..|a| + |b + c + d|] == b + c + d;
    ContainsAt(s, b + c + d, |a|);
  }

  lemma {:induction false} ContainsFront(b: string, c: string)
    ensures Contains(b + c, b)
  {
    assert (b + c)[0..|b|] == b;
    ContainsAt(b + c, b, 0);
  }

  lemma {:induction false} ContainsAfter(a: string, s: string, sub: string)
    requires Contains(s, sub)
    ensures Contains(a + s, sub)
  {
    var j := IndexOf(s, sub).value;
    assert (a + s)[|a| + j..|a| + j + |sub|] == s[j..j + |sub|];
    ContainsAt(a + s, sub, |a| + j);
  }

  lemma {:induction false} ContainsBefore(s: string, t: string, sub: string)
    requires Contains(s, sub)
    ensures Contains(s + t, sub)
  {
    var j := IndexOf(s, sub).value;
    assert (s + t)[j..j + |sub|] == s[j..j + |sub|];
    ContainsAt(s + t, sub, j);
  }

  /** Text found in a piece is found in any text built around it. */
  lemma {:induction false} ContainsWithin(a: string, s: string, b: string, sub: string)
    requires Contains(s, sub)
    ensures Contains(a + s + b, sub)
  {
    ContainsAfter(a, s, sub);
    ContainsBefore(a + s, b, sub);
  }

  /** Python's `s.split(sep)[0]`: the text up to the first occurrence of `sep`. */
  function SplitFirst(s: string, sep: string): string {
    match IndexOf(s, sep)
    case None => s
    case Some(j) => s[..j]
  }

  /** The first field is a prefix of `s` without `sep`, ending at the first
      occurrence of `sep` or at the end of `s`. */
  lemma {:induction false} SplitFirstIsField(s: string, sep: string)
    requires |sep| > 0
    ensures var r := SplitFirst(s, sep);
            StartsWith(s, r) && (|r| == |s| || MatchAt(s, sep, |r|)) && !Contains(r, sep)
  {
    match IndexOf(s, sep)
    case None =>
      assert s[..|s|] == s;
    case Some(j) =>
      NoMatchBefore(s, sep, j);
  }

  /** Python's `s.split(sep)[1]` where `sep in s`: the text after the first
      occurrence of `sep`, up to the next occurrence or the end. */
  function SplitSecond(s: string, sep: string): string
    requires |sep| > 0 && Contains(s, sep)
  {
    SplitFirst(s[IndexOf(s, sep).value + |sep|..], sep)
  }

  /** The second field is a prefix of the text after the first separator,
      contains no separator, and ends at the next separator or at the end. */
  lemma {:induction false} SplitSecondIsField(s: string, sep: string)
    requires |sep| > 0 && Contains(s, sep)
    ensures var r := SplitSecond(s, sep);
            var rest := s[IndexOf(s, sep).value + |sep|..];
            StartsWith(rest, r) && (|r| == |rest| || MatchAt(rest, sep, |r|)) && !Contains(r, sep)
  {
    SplitFirstIsField(s[IndexOf(s, sep).value + |sep|..], sep);
  }

  /** A prefix that ends before the first occurrence does not contain it. */
  lemma {:induction false} NoMatchBefore(s: string, sub: string, j: nat)
    requires |sub| > 0 && j <= |s|
    requires forall p :: 0 <= p < j ==> !MatchAt(s, sub, p)
    ensures !Contains(s[..j], sub)
  {
    var r := s[..j];
    forall p | 0 <= p ensures !MatchAt(r, sub, p) {
      if p + |sub| <= j {
        assert !MatchAt(s, sub, p);
        assert r[p..p + |sub|] == s[p..p + |sub|];
      }
    }
  }

  // ---------------------------------------------------------------- split

  /** Index of the first `c` in `s`, or `|s|` when there is none. */
  function FindChar(s: string, c: char): (i: nat)
    ensures i <= |s| && c !in s[..i] && (i < |s| ==> s[i] == c)
    ensures forall k :: 0 <= k < i ==> s[k] != c
    decreases |s|
  {
    if s == [] then 0
    else if s[0] == c then 0
    else
      assert s[1..][..FindChar(s[1..], c)] == s[1..1 + FindChar(s[1..], c)];
      1 + FindChar(s[1..], c)
  }

  /** Joins `parts` with `c` between neighbours (JavaScript's `join`). */
  function JoinWith(parts: seq<string>, c: char): string
    decreases |parts|
  {
    if |parts| == 0 then ""
    else if |parts| == 1 then parts[0]
    else parts[0] + [c] + JoinWith(parts[1..], c)
  }

  lemma {:induction false} FindCharAt(s: string, c: char, i: nat)
    requires i < |s| && s[i] == c && c !in s[..i]
    ensures FindChar(s, c) == i
  {
    assert forall k :: 0 <= k < i ==> s[..i][k] == s[k];
  }

  /** JavaScript's `s.split(c)` for a one-character separator. */
  function SplitOn(s: string, c: char): (parts: seq<string>)
    ensures |parts| >= 1
    ensures forall k :: 0 <= k < |parts| ==> c !in parts[k]
    ensures JoinWith(parts, c) == s
    decreases |s|
  {
    var i := FindChar(s, c);
    if i == |s| then
      assert s[..i] == s;
      [s]
    else
      var tail := SplitOn(s[i + 1..], c);
      assert s == s[..i] + [c] + s[i + 1..];
      [s[..i]] + tail
  }

  lemma {:induction false} SplitOnJoined(a: string, b: string, c: char)
    requires c !in a
    ensures SplitOn(a + [c] + b, c) == [a] + SplitOn(b, c)
  {
    var s := a + [c] + b;
    var i := FindChar(s, c);
    assert s[..|a|] == a && s[|a|] == c;
    assert i == |a|;
    assert s[i + 1..] == b;
  }

  lemma {:induction false} SplitOnSingle(a: string, c: char)
    requires c !in a
    ensures SplitOn(a, c) == [a]
  {
    assert FindChar(a, c) == |a|;
  }

  /** Index of the first line boundary in `s`, or `|s|` when there is none. */
  function FindLineBreak(s: string): (i: nat)
    ensures i <= |s| && (i < |s| ==> IsLineBreak(s[i]))
    ensures forall k :: 0 <= k < i ==> !IsLineBreak(s[k])
    decreases |s|
  {
    if s == [] then 0
    else if IsLineBreak(s[0]) then 0
    else 1 + FindLineBreak(s[1..])
  }

  predicate NoLineBreak(s: string) {
    forall k :: 0 <= k < |s| ==> !IsLineBreak(s[k])
  }

  /** Python's `str.splitlines()`: the lines of `s` without their terminators;
      a final terminator does not start an empty last line. */
  function SplitLines(s: string): (lines: seq<string>)
    ensures forall k :: 0 <= k < |lines| ==> NoLineBreak(lines[k])
    ensures s == [] <==> lines == []
    decreases |s|
  {
    if s == [] then []
    else
      var i := FindLineBreak(s);
      if i == |s| then [s]
      else if s[i] == '\r' && i + 1 < |s| && s[i + 1] == '\n' then [s[..i]] + SplitLines(s[i + 2..])
      else [s[..i]] + SplitLines(s[i + 1..])
  }

  lemma {:induction false} SplitLinesTwo(a: string, b: string)
    requires NoLineBreak(a) && NoLineBreak(b) && b != []
    ensures SplitLines(a + "\n" + b) == [a, b]
  {
    var s := a + "\n" + b;
    var i := FindLineBreak(s);
    assert s[|a|] == '\n';
    assert forall k :: 0 <= k < |a| ==> s[k] == a[k];
    assert i == |a| && s[..i] == a && s[i + 1..] == b;
    assert FindLineBreak(b) == |b|;
  }

  /** `parts` without its last element when that element is empty. */
  function DropEmptyLast(parts: seq<string>): seq<string> {
    if |parts| > 0 && parts[|parts| - 1] == [] then parts[..|parts| - 1] else parts
  }

  /** Where '\n' is the only line boundary, the first boundary is the
      first newline. */
  lemma {:induction false} FirstBreakIsNewline(s: string)
    requires forall k :: 0 <= k < |s| && IsLineBreak(s[k]) ==> s[k] == '\n'
    ensures FindLineBreak(s) == FindChar(s, '\n')
  {
  }

  /** On text whose only line boundaries are '\n', the lines are the pieces
      between newlines, less the empty piece a final newline leaves; so they
      join back to the text (see `SplitOn`). */
  lemma {:induction false} SplitLinesOnNewlines(s: string)
    requires forall k :: 0 <= k < |s| && IsLineBreak(s[k]) ==> s[k] == '\n'
    ensures SplitLines(s) == DropEmptyLast(SplitOn(s, '\n'))
    decreases |s|
  {
    if s == [] {
      SplitOnSingle(s, '\n');
    } else {
      FirstBreakIsNewline(s);
      var i := FindLineBreak(s);
      if i < |s| {
        var rest := s[i + 1..];
        NewlineStep(s, i);
        SplitLinesOnNewlines(rest);
        if rest == [] {
          SplitOnSingle(rest, '\n');
        } else {
          DropEmptyLastCons(s[..i], SplitOn(rest, '\n'));
        }
      }
    }
  }

  lemma {:induction false} DropEmptyLastCons(line: string, parts: seq<string>)
    requires parts != []
    ensures DropEmptyLast([line] + parts) == [line] + DropEmptyLast(parts)
  {
    assert ([line] + parts)[..|parts|] == [line] + parts[..|parts| - 1];
  }

  /** One newline-terminated line: both splits take it off the front. */
  lemma {:induction false} NewlineStep(s: string, i: nat)
    requires i < |s| && i == FindLineBreak(s) && i == FindChar(s, '\n')
    ensures SplitLines(s) == [s[..i]] + SplitLines(s[i + 1..])
    ensures SplitOn(s, '\n') == [s[..i]] + SplitOn(s[i + 1..], '\n')
  {
  }

  // ---------------------------------------------------------------- case

  function LowerChar(c: char): char {
    if 'A' <= c <= 'Z' then (c as int + 32) as char else c
  }

  /** Python's `str.lower()` restricted to ASCII letters. */
  function Lower(s: string): (r: string)
    ensures |r| == |s| && forall i :: 0 <= i < |s| ==> r[i] == LowerChar(s[i])
  {
    seq(|s|, i requires 0 <= i < |s| => LowerChar(s[i]))
  }

  /** Lower-casing works character by character, so it distributes over
      concatenation. */
  lemma {:induction false} LowerAppend(a: string, b: string)
    ensures Lower(a + b) == Lower(a) + Lower(b)
  {
    assert forall i :: 0 <= i < |a + b| ==> Lower(a + b)[i] == (Lower(a) + Lower(b))[i] by {
      forall i | 0 <= i < |a + b| ensures Lower(a + b)[i] == (Lower(a) + Lower(b))[i] {
        if i < |a| { assert (a + b)[i] == a[i]; } else { assert (a + b)[i] == b[i - |a|]; }
      }
    }
  }

  /** Lower-casing twice is lower-casing once. */
  lemma {:induction false} LowerIdempotent(s: string)
    ensures Lower(Lower(s)) == Lower(s)
  {
    assert forall i :: 0 <= i < |s| ==> LowerChar(LowerChar(s[i])) == LowerChar(s[i]);
  }

  // ---------------------------------------------------------------- integers

  function DigitChar(d: nat): (c: char)
    requires d < 10
    ensures IsDigit(c) && c as int - '0' as int == d
  {
    ('0' as int + d) as char
  }

  /** The decimal digits of `n`, most significant first, without leading zeros. */
  function NatToString(n: nat): (s: string)
    ensures |s| >= 1 && AllDigits(s)
    ensures |s| > 1 ==> s[0] != '0'
    decreases n
  {
    if n < 10 then [DigitChar(n)] else NatToString(n / 10) + [DigitChar(n % 10)]
  }

  /** Python's `str(n)` (and an f-string `{n}`) for an integer. */
  function IntToString(n: int): (s: string)
    ensures |s| >= 1 && !IsPySpace(s[0]) && !IsPySpace(s[|s| - 1])
  {
    if n < 0 then "-" + NatToString(-n) else NatToString(n)
  }

  function DigitsValue(s: string): nat
    requires AllDigits(s)
    decreases |s|
  {
    if s == [] then 0
    else DigitsValue(s[..|s| - 1]) * 10 + (s[|s| - 1] as int - '0' as int)
  }

  /** Python's `int(text)` on a string: surrounding white space, an optional
      sign and at least one ASCII digit; anything else raises ValueError (None). */
  function ParseInt(s: string): (r: Option<int>)
    ensures r.Some? ==> var t := Strip(s); |t| >= 1 && AllDigits(t[1..])
  {
    var t := Strip(s);
    if |t| == 0 then None
    else if t[0] == '-' || t[0] == '+' then
      var d := t[1..];
      if |d| > 0 && AllDigits(d) then
        var v: int := DigitsValue(d);
        Some(if t[0] == '-' then -v else v)
      else None
    else if AllDigits(t) then Some(DigitsValue(t))
    else None
  }

  lemma {:induction false} DigitsOfNat(n: nat)
    ensures DigitsValue(NatToString(n)) == n
    decreases n
  {
    var s := NatToString(n);
    if n >= 10 {
      DigitsOfNat(n / 10);
      assert s[..|s| - 1] == NatToString(n / 10);
    }
  }

  lemma {:induction false} ParseNatString(n: nat)
    ensures ParseInt(IntToString(n)) == Some(n)
  {
    var s := NatToString(n);
    assert IntToString(n) == s;
    assert IsDigit(s[0]) && IsDigit(s[|s| - 1]);
    StripKeepsTrimmed(s);
    DigitsOfNat(n);
  }

  /** A minus sign before a run of digits reads as minus their value. */
  lemma {:induction false} ParseMinusDigits(d: string, value: nat)
    requires |d| > 0 && AllDigits(d) && DigitsValue(d) == value
    ensures ParseInt("-" + d) == Some(-(value as int))
  {
    var s := "-" + d;
    assert IsDigit(s[|s| - 1]);
    StripKeepsTrimmed(s);
    assert s[1..] == d;
  }

  lemma {:induction false} ParseNegativeString(n: int)
    requires n < 0
    ensures ParseInt(IntToString(n)) == Some(n)
  {
    var d := NatToString(-n);
    assert IntToString(n) == "-" + d;
    DigitsOfNat(-n);
    ParseMinusDigits(d, -n);
  }

  /** Reading back what `str(n)` wrote gives `n`. */
  lemma {:induction false} ParseIntRoundTrip(n: int)
    ensures ParseInt(IntToString(n)) == Some(n)
  {
    if n < 0 {
      ParseNegativeString(n);
    } else {
      ParseNatString(n);
    }
  }
}
