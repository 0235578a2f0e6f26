/**
 * The few Python string operations the digest relies on: `str.strip` (with and
 * without an explicit character set), `str.lstrip`, `str.splitlines`,
 * `str.split(sep)`, `"".join`, `str.replace(c, "")`, the slice `xs[:n]`, the
 * comprehension that keeps the non-blank stripped lines, and decimal
 * formatting of non-negative integers.
 */
module Text {

  /** The characters for which Python's `str.isspace()` holds. */
  const Whitespace: set<char> := {
    '\t', '\n', '\U{000B}', '\U{000C}', '\r', '\U{001C}', '\U{001D}', '\U{001E}', '\U{001F}', ' ',
    '\U{0085}', '\U{00A0}', '\U{1680}',
    '\U{2000}', '\U{2001}', '\U{2002}', '\U{2003}', '\U{2004}', '\U{2005}', '\U{2006}',
    '\U{2007}', '\U{2008}', '\U{2009}', '\U{200A}',
    '\U{2028}', '\U{2029}', '\U{202F}', '\U{205F}', '\U{3000}'
  }

  /** The line boundaries recognised by Python's `str.splitlines()`. */
  const LineBreaks: set<char> := {
    '\n', '\r', '\U{000B}', '\U{000C}', '\U{001C}', '\U{001D}', '\U{001E}', '\U{0085}', '\U{2028}', '\U{2029}'
  }

  // ---------------------------------------------------------------------------
  // strip / lstrip / rstrip
  // ---------------------------------------------------------------------------

  /** `s.lstrip(chars)`: the longest suffix of `s` that does not start with a character of `cs`. */
  function LStripSet(s: string, cs: set<char>): (r: string)
    ensures |r| <= |s| && r == s[|s| - |r|..]
    ensures r != [] ==> r[0] !in cs
    ensures forall k :: 0 <= k < |s| - |r| ==> s[k] in cs
    decreases |s|
  {
    if s != [] && s[0] in cs then LStripSet(s[1..], cs) else s
  }

  /** `s.rstrip(chars)`: the longest prefix of `s` that does not end with a character of `cs`. */
  function RStripSet(s: string, cs: set<char>): (r: string)
    ensures |r| <= |s| && r == s[..|r|]
    ensures r != [] ==> r[|r| - 1] !in cs
    ensures forall k :: |r| <= k < |s| ==> s[k] in cs
    decreases |s|
  {
    if s != [] && s[|s| - 1] in cs then RStripSet(s[..|s| - 1], cs) else s
  }

  /** Number of characters `s.strip(chars)` removes at the front. */
  function StripStart(s: string, cs: set<char>): (n: nat)
    ensures n <= |s|
    decreases |s|
  {
    if s != [] && s[0] in cs then 1 + StripStart(s[1..], cs) else 0
  }

  /** True if `s` neither starts nor ends with a character of `cs`. */
  predicate IsStrippedOf(s: string, cs: set<char>)
  {
    s == [] || (s[0] !in cs && s[|s| - 1] !in cs)
  }

  predicate IsStripped(s: string)
  {
    IsStrippedOf(s, Whitespace)
  }

  /**
   * `s.strip(chars)`: removes the leading and the trailing characters of
   * `cs`, one at a time from either end; `StripSetSlice` says which piece of
   * `s` is left.
   */
  function StripSet(s: string, cs: set<char>): (r: string)
    ensures IsStrippedOf(r, cs)
    ensures |r| <= |s|
    decreases |s|
  {
    if s != [] && s[0] in cs then StripSet(s[1..], cs)
    else if s != [] && s[|s| - 1] in cs then StripSet(s[..|s| - 1], cs)
    else s
  }

  /**
   * What `strip(chars)` leaves is the piece of `s` that starts after the
   * `StripStart` leading characters of `cs`; every character cut before or
   * after that piece is in `cs`.
   */
  lemma {:induction false} StripSetSlice(s: string, cs: set<char>)
    ensures var r := StripSet(s, cs); var st := StripStart(s, cs);
      && st + |r| <= |s| && r == s[st..st + |r|]
      && (forall k :: 0 <= k < st ==> s[k] in cs)
      && (forall k :: st + |r| <= k < |s| ==> s[k] in cs)
    decreases |s|
  {
    if s != [] && s[0] in cs {
      StripSetSlice(s[1..], cs);
      StripSliceFront(s, cs);
    } else if s != [] && s[|s| - 1] in cs {
      StripSetSlice(s[..|s| - 1], cs);
      StripSliceBack(s, cs);
    }
  }

  /** The step of `StripSetSlice` that drops a leading character. */
  lemma StripSliceFront(s: string, cs: set<char>)
    requires s != [] && s[0] in cs
    requires var t := s[1..]; var r := StripSet(t, cs); var st := StripStart(t, cs);
      && st + |r| <= |t| && r == t[st..st + |r|]
      && (forall k :: 0 <= k < st ==> t[k] in cs)
      && (forall k :: st + |r| <= k < |t| ==> t[k] in cs)
    ensures var r := StripSet(s, cs); var st := StripStart(s, cs);
      && st + |r| <= |s| && r == s[st..st + |r|]
      && (forall k :: 0 <= k < st ==> s[k] in cs)
      && (forall k :: st + |r| <= k < |s| ==> s[k] in cs)
  {
    var t := s[1..];
    var st := StripStart(t, cs);
    var r := StripSet(t, cs);
    assert StripSet(s, cs) == r && StripStart(s, cs) == st + 1;
    TailSlice(s, st, st + |r|);
    assert forall k :: 0 < k < |s| ==> s[k] == t[k - 1];
  }

  /** A slice of the tail of `s` is the slice of `s` one position later. */
  lemma TailSlice(s: string, i: nat, j: nat)
    requires i <= j < |s|
    ensures s[1..][i..j] == s[i + 1..j + 1]
  {
    forall k | 0 <= k < j - i ensures s[1..][i..j][k] == s[i + 1..j + 1][k] {
    }
  }

  /** The step of `StripSetSlice` that drops a trailing character. */
  lemma StripSliceBack(s: string, cs: set<char>)
    requires s != [] && s[0] !in cs && s[|s| - 1] in cs
    requires var t := s[..|s| - 1]; var r := StripSet(t, cs); var st := StripStart(t, cs);
      && st + |r| <= |t| && r == t[st..st + |r|]
      && (forall k :: st + |r| <= k < |t| ==> t[k] in cs)
    ensures var r := StripSet(s, cs); var st := StripStart(s, cs);
      && st == 0 && |r| <= |s| && r == s[..|r|]
      && (forall k :: |r| <= k < |s| ==> s[k] in cs)
  {
    var t := s[..|s| - 1];
    assert t[0] == s[0];
    var r := StripSet(t, cs);
    assert r == s[..|r|];
    forall k | |r| <= k < |s| ensures s[k] in cs {
      if k < |t| {
        assert s[k] == t[k];
      }
    }
  }

  /** `s.strip()` with no argument: removes surrounding whitespace. */
  function Strip(s: string): (r: string)
    ensures IsStripped(r)
    ensures |r| <= |s|
  {
    StripSet(s, Whitespace)
  }

  lemma {:induction false} StripOfStripped(s: string, cs: set<char>)
    requires IsStrippedOf(s, cs)
    ensures StripSet(s, cs) == s
  {
  }

  /** Stripping is idempotent. */
  lemma StripIdempotent(s: string, cs: set<char>)
    ensures StripSet(StripSet(s, cs), cs) == StripSet(s, cs)
  {
    StripOfStripped(StripSet(s, cs), cs);
  }

  /** A slice holds no character the string does not. */
  lemma SliceAvoids(p: string, i: nat, j: nat, cs: set<char>)
    requires i <= j <= |p|
    requires forall k :: 0 <= k < |p| ==> p[k] !in cs
    ensures forall k :: 0 <= k < j - i ==> p[i..j][k] !in cs
  {
    forall k | 0 <= k < j - i ensures p[i..j][k] !in cs {
      assert p[i..j][k] == p[i + k];
    }
  }

  /** Stripping keeps a piece of the string, so it holds no character the string does not. */
  lemma StripAvoids(p: string, cs: set<char>)
    requires forall k :: 0 <= k < |p| ==> p[k] !in cs
    ensures forall k :: 0 <= k < |Strip(p)| ==> Strip(p)[k] !in cs
  {
    StripSetSlice(p, Whitespace);
    var st := StripStart(p, Whitespace);
    var s := StripSet(p, Whitespace);
    SliceAvoids(p, st, st + |s|, cs);
  }

  /** A string is blank (`not s.strip()`) exactly when every character is whitespace. */
  lemma {:induction false} StripEmptyIffAllWhitespace(s: string)
    ensures Strip(s) == [] <==> forall k :: 0 <= k < |s| ==> s[k] in Whitespace
  {
    StripSetSlice(s, Whitespace);
    var r := Strip(s);
    if r == [] {
      assert forall k :: 0 <= k < |s| ==> s[k] in Whitespace by {
        forall k | 0 <= k < |s| ensures s[k] in Whitespace {
          assert k < StripStart(s, Whitespace) || StripStart(s, Whitespace) + |r| <= k;
        }
      }
    } else {
      assert s[StripStart(s, Whitespace)] == r[0];
    }
  }

  // ---------------------------------------------------------------------------
  // splitlines
  // ---------------------------------------------------------------------------

  /** Index of the first line boundary in `s`, or `|s|` if there is none. */
  function FirstBreak(s: string): (i: nat)
    ensures i <= |s|
    ensures forall k :: 0 <= k < i ==> s[k] !in LineBreaks
    ensures i < |s| ==> s[i] in LineBreaks
    decreases |s|
  {
    if s == [] then 0
    else if s[0] in LineBreaks then 0
    else 1 + FirstBreak(s[1..])
  }

  /** Length of the line boundary at `s[i]`: `\r\n` counts as one boundary of two characters. */
  function BreakWidth(s: string, i: nat): nat
    requires i < |s|
  {
    if s[i] == '\r' && i + 1 < |s| && s[i + 1] == '\n' then 2 else 1
  }

  /**
   * `s.splitlines()`: the lines of `s` without their boundaries; a trailing
   * boundary does not start a further, empty line.
   */
  function SplitLines(s: string): (lines: seq<string>)
    ensures forall k, j :: 0 <= k < |lines| && 0 <= j < |lines[k]| ==> lines[k][j] !in LineBreaks
    ensures s == [] <==> lines == []
    decreases |s|
  {
    if s == [] then []
    else
      var i := FirstBreak(s);
      if i == |s| then [s]
      else [s[..i]] + SplitLines(s[i + BreakWidth(s, i)..])
  }

  /** Joins lines with `"\n"`, as `chr(10).join(lines)` does. */
  function JoinLines(lines: seq<string>): string
  {
    if lines == [] then ""
    else if |lines| == 1 then lines[0]
    else lines[0] + "\n" + JoinLines(lines[1..])
  }

  predicate NoLineBreaks(s: string)
  {
    forall j :: 0 <= j < |s| ==> s[j] !in LineBreaks
  }

  /**
   * Splitting a `"\n"`-join of boundary-free lines gives those lines back,
   * provided the last line is not empty (`"a\n".splitlines()` is `["a"]`).
   */
  lemma {:induction false} SplitJoinLines(lines: seq<string>)
    requires lines != [] && lines[|lines| - 1] != []
    requires forall k :: 0 <= k < |lines| ==> NoLineBreaks(lines[k])
    ensures SplitLines(JoinLines(lines)) == lines
  {
    var s := JoinLines(lines);
    if |lines| == 1 {
      assert FirstBreak(s) == |s|;
    } else {
      var rest := JoinLines(lines[1..]);
      assert s == lines[0] + "\n" + rest;
      assert s == lines[0] + ("\n" + rest);
      assert ("\n" + rest)[0] in LineBreaks;
      FirstBreakOfPrefix(lines[0], "\n" + rest);
      assert FirstBreak(s) == |lines[0]|;
      assert BreakWidth(s, |lines[0]|) == 1;
      assert s[..|lines[0]|] == lines[0];
      assert s[|lines[0]| + 1..] == rest;
      SplitJoinLines(lines[1..]);
    }
  }

  lemma {:induction false} FirstBreakOfPrefix(a: string, b: string)
    requires NoLineBreaks(a)
    requires b != [] && b[0] in LineBreaks
    ensures FirstBreak(a + b) == |a|
  {
    if a != [] {
      assert (a + b)[1..] == a[1..] + b;
      FirstBreakOfPrefix(a[1..], b);
    }
  }

  // ---------------------------------------------------------------------------
  // split(sep), join, replace
  // ---------------------------------------------------------------------------

  /** Index of the first `c` in `s`, or `|s|` if there is none. */
  function IndexOf(s: string, c: char): (i: nat)
    ensures i <= |s|
    ensures forall k :: 0 <= k < i ==> s[k] != c
    ensures i < |s| ==> s[i] == c
    decreases |s|
  {
    if s == [] then 0
    else if s[0] == c then 0
    else 1 + IndexOf(s[1..], c)
  }

  /** `s.split(c)` for a one-character separator: never empty; `"".split(",")` is `[""]`. */
  function SplitOn(s: string, c: char): (parts: seq<string>)
    ensures |parts| >= 1
    ensures forall k, j :: 0 <= k < |parts| && 0 <= j < |parts[k]| ==> parts[k][j] != c
    decreases |s|
  {
    var i := IndexOf(s, c);
    if i == |s| then [s]
    else [s[..i]] + SplitOn(s[i + 1..], c)
  }

  /** `c.join(parts)` for a one-character separator. */
  function JoinOn(parts: seq<string>, c: char): string
  {
    if parts == [] then ""
    else if |parts| == 1 then parts[0]
    else parts[0] + [c] + JoinOn(parts[1..], c)
  }

  /** Splitting on `c` loses nothing: joining the parts with `c` restores the input. */
  lemma {:induction false} JoinSplitOn(s: string, c: char)
    ensures JoinOn(SplitOn(s, c), c) == s
    decreases |s|
  {
    var i := IndexOf(s, c);
    if i < |s| {
      var rest := SplitOn(s[i + 1..], c);
      var parts := [s[..i]] + rest;
      assert SplitOn(s, c) == parts;
      assert |parts| >= 2 && parts[0] == s[..i] && parts[1..] == rest;
      assert JoinOn(parts, c) == s[..i] + [c] + JoinOn(rest, c);
      JoinSplitOn(s[i + 1..], c);
      assert s == s[..i] + [c] + s[i + 1..];
    }
  }

  /** `"".join(parts)`. */
  function Concat(parts: seq<string>): (r: string)
    ensures parts == [] ==> r == ""
  {
    if parts == [] then "" else parts[0] + Concat(parts[1..])
  }

  /** `s.replace(c1, "").replace(c2, "")…` for every character of `cs`. */
  function RemoveChars(s: string, cs: set<char>): (r: string)
    ensures |r| <= |s|
    ensures forall k :: 0 <= k < |r| ==> r[k] !in cs
    decreases |s|
  {
    if s == [] then ""
    else if s[0] in cs then RemoveChars(s[1..], cs)
    else [s[0]] + RemoveChars(s[1..], cs)
  }

  /** `xs[:n]`: the first `n` elements, or all of them when there are fewer. */
  function Take<T>(xs: seq<T>, n: nat): (r: seq<T>)
    ensures |r| == if |xs| <= n then |xs| else n
    ensures r == xs[..|r|]
  {
    if |xs| <= n then xs else xs[..n]
  }

  /** `[x.strip() for x in lines if x.strip()]`: the non-blank lines, stripped, in order. */
  function NonBlankStripped(lines: seq<string>): (r: seq<string>)
    ensures |r| <= |lines|
    ensures forall k :: 0 <= k < |r| ==> r[k] != [] && IsStripped(r[k])
  {
    if |lines| == 0 then []
    else
      var rest := NonBlankStripped(lines[1..]);
      var s := Strip(lines[0]);
      if |s| == 0 then rest else [s] + rest
  }

  /** Every line that survives is a stripped line of the input, none of them with a line break. */
  lemma {:induction false} NonBlankStrippedNoBreaks(lines: seq<string>)
    requires forall k :: 0 <= k < |lines| ==> NoLineBreaks(lines[k])
    ensures forall k :: 0 <= k < |NonBlankStripped(lines)| ==> NoLineBreaks(NonBlankStripped(lines)[k])
  {
    if |lines| != 0 {
      var tail := lines[1..];
      assert forall k :: 0 <= k < |tail| ==> tail[k] == lines[k + 1];
      NonBlankStrippedNoBreaks(tail);
      var s := Strip(lines[0]);
      var rest := NonBlankStripped(tail);
      if |s| != 0 {
        StripAvoids(lines[0], LineBreaks);
        var r := [s] + rest;
        assert NonBlankStripped(lines) == r;
        forall k | 0 <= k < |r| ensures NoLineBreaks(r[k]) {
          if k > 0 {
            assert r[k] == rest[k - 1];
          }
        }
      } else {
        assert NonBlankStripped(lines) == rest;
      }
    }
  }

  /** A text is kept exactly when it is non-empty and some line strips to it. */
  lemma {:induction false} NonBlankStrippedElements(lines: seq<string>, x: string)
    ensures x in NonBlankStripped(lines) <==> x != [] && exists p :: p in lines && Strip(p) == x
  {
    if |lines| != 0 {
      var tail := lines[1..];
      NonBlankStrippedElements(tail, x);
      var h := Strip(lines[0]);
      var rest := NonBlankStripped(tail);
      assert NonBlankStripped(lines) == if |h| == 0 then rest else [h] + rest;
      assert x in NonBlankStripped(lines) <==> (|h| != 0 && x == h) || x in rest;
      if exists p :: p in lines && Strip(p) == x {
        var p :| p in lines && Strip(p) == x;
        assert p == lines[0] || p in tail;
      }
      if exists p :: p in tail && Strip(p) == x {
        var p :| p in tail && Strip(p) == x;
        assert p in lines;
      }
    }
  }

  // ---------------------------------------------------------------------------
  // decimal numbers
  // ---------------------------------------------------------------------------

  predicate IsDigit(c: char)
  {
    '0' <= c <= '9'
  }

  function DigitValue(c: char): (d: nat)
    requires IsDigit(c)
    ensures d < 10
  {
    (c as int - '0' as int) as nat
  }

  function DigitChar(d: nat): (c: char)
    requires d < 10
    ensures IsDigit(c) && DigitValue(c) == d
  {
    ('0' as int + d) as char
  }

  /** `str(n)` for `n >= 0`: decimal digits, no leading zeros. */
  function NatToString(n: nat): (s: string)
    ensures |s| >= 1
    ensures forall k :: 0 <= k < |s| ==> IsDigit(s[k])
    ensures |s| > 1 ==> s[0] != '0'
  {
    if n < 10 then [DigitChar(n)] else NatToString(n / 10) + [DigitChar(n % 10)]
  }

  /** The value of a non-empty string of decimal digits. */
  function DigitsValue(s: string): nat
    requires forall k :: 0 <= k < |s| ==> IsDigit(s[k])
  {
    if s == [] then 0 else 10 * DigitsValue(s[..|s| - 1]) + DigitValue(s[|s| - 1])
  }

  lemma {:induction false} DigitsValueOfNatToString(n: nat)
    ensures DigitsValue(NatToString(n)) == n
  {
    var s := NatToString(n);
    if n >= 10 {
      DigitsValueOfNatToString(n / 10);
      assert s[..|s| - 1] == NatToString(n / 10);
    }
  }

  /** `NatToString` is injective: distinct numbers print differently. */
  lemma NatToStringInjective(m: nat, n: nat)
    requires NatToString(m) == NatToString(n)
    ensures m == n
  {
    DigitsValueOfNatToString(m);
    DigitsValueOfNatToString(n);
  }
}
