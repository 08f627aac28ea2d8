/**
 * The two string operations the label file goes through: Python's
 * `str.splitlines()` and `str.strip()` with no argument.
 */
module Text {

  /** Characters for which Python's `str.isspace()` holds. */
  predicate IsSpace(c: char)
  {
    var n := c as int;
    (9 <= n <= 13) || (28 <= n <= 32) || n == 0x85 || n == 0xA0 || n == 0x1680
    || (0x2000 <= n <= 0x200A) || n == 0x2028 || n == 0x2029 || n == 0x202F
    || n == 0x205F || n == 0x3000
  }

  /** Line boundaries recognised by `str.splitlines()` ("\r\n" counts once). */
  predicate IsLineBreak(c: char)
  {
    var n := c as int;
    (10 <= n <= 13) || (28 <= n <= 30) || n == 0x85 || n == 0x2028 || n == 0x2029
  }

  /** `s.lstrip()`: the longest suffix of s that does not start with white space. */
  function StripStart(s: string): (r: string)
    ensures |r| <= |s| && r == s[|s| - |r|..]
    ensures forall i :: 0 <= i < |s| - |r| ==> IsSpace(s[i])
    ensures r == [] || !IsSpace(r[0])
  {
    if s == [] || !IsSpace(s[0]) then s else StripStart(s[1..])
  }

  /** `s.rstrip()`: the longest prefix of s that does not end with white space. */
  function StripEnd(s: string): (r: string)
    ensures |r| <= |s| && r == s[..|r|]
    ensures forall i :: |r| <= i < |s| ==> IsSpace(s[i])
    ensures r == [] || !IsSpace(r[|r| - 1])
  {
    if s == [] || !IsSpace(s[|s| - 1]) then s else StripEnd(s[..|s| - 1])
  }

  /** `s.strip()`: s without its leading and trailing white space. */
  function Strip(s: string): (r: string)
    ensures |r| <= |s|
    ensures r == [] || (!IsSpace(r[0]) && !IsSpace(r[|r| - 1]))
  {
    var t := StripStart(s);
    var r := StripEnd(t);
    assert r != [] ==> r[0] == t[0];
    r
  }

  /** r is the piece of s starting at i, with nothing but white space before and after it. */
  predicate SpaceAround(s: string, i: nat, r: string)
  {
    && i + |r| <= |s| && r == s[i..i + |r|]
    && (forall k :: 0 <= k < i ==> IsSpace(s[k]))
    && (forall k :: i + |r| <= k < |s| ==> IsSpace(s[k]))
  }

  /**
   * `strip()` keeps one contiguous piece of s, the one starting after the
   * leading white space, and drops only white space before and after it.
   */
  lemma StripIsTrimmedInfix(s: string)
    ensures SpaceAround(s, |s| - |StripStart(s)|, Strip(s))
  {
    var t := StripStart(s);
    PrefixOfSuffix(s, t, StripEnd(t));
  }

  /**
   * A prefix r of t, followed in t by white space only, where t is a suffix of
   * s with only white space before it, has only white space around it in s.
   */
  lemma PrefixOfSuffix(s: string, t: string, r: string)
    requires |t| <= |s| && t == s[|s| - |t|..]
    requires forall k :: 0 <= k < |s| - |t| ==> IsSpace(s[k])
    requires |r| <= |t| && r == t[..|r|]
    requires forall k :: |r| <= k < |t| ==> IsSpace(t[k])
    ensures SpaceAround(s, |s| - |t|, r)
  {
    var i := |s| - |t|;
    forall k | i + |r| <= k < |s|
      ensures IsSpace(s[k])
    {
      assert |r| <= k - i < |t|;
      assert t[k - i] == s[i..][k - i] == s[k];
    }
    assert s[i..i + |r|] == s[i..][..|r|];
  }

  /** A string without white space at either end is its own strip. */
  lemma StripFixesTrimmed(s: string)
    requires s == [] || (!IsSpace(s[0]) && !IsSpace(s[|s| - 1]))
    ensures Strip(s) == s
  {
  }

  /** strip is idempotent. */
  lemma StripIdempotent(s: string)
    ensures Strip(Strip(s)) == Strip(s)
  {
    var r := Strip(s);
    StripFixesTrimmed(r);
    assert Strip(r) == r;
  }

  /** Index of the first line boundary in s, or |s| when there is none. */
  function FirstBreak(s: string): (i: nat)
    ensures i <= |s|
    ensures i < |s| ==> IsLineBreak(s[i])
    ensures forall k :: 0 <= k < i ==> !IsLineBreak(s[k])
  {
    if s == [] then 0
    else if IsLineBreak(s[0]) then 0
    else 1 + FirstBreak(s[1..])
  }

  /** A line of text: no line boundary anywhere in it. */
  predicate IsLine(s: string)
  {
    forall k :: 0 <= k < |s| ==> !IsLineBreak(s[k])
  }

  /** A piece of a line is a line. */
  lemma InfixIsLine(s: string, i: nat, j: nat)
    requires IsLine(s) && i <= j <= |s|
    ensures IsLine(s[i..j])
  {
    forall k | 0 <= k < j - i
      ensures !IsLineBreak(s[i..j][k])
    {
      assert s[i..j][k] == s[i + k];
    }
  }

  /** `s.splitlines()`: the lines of s without their boundaries; no trailing empty line. */
  function SplitLines(s: string): (lines: seq<string>)
    ensures forall k :: 0 <= k < |lines| ==> IsLine(lines[k])
    ensures lines == [] <==> s == []
    decreases |s|
  {
    if s == [] then []
    else
      var i := FirstBreak(s);
      if i == |s| then [s]
      else
        var next := if s[i] == '\r' && i + 1 < |s| && s[i + 1] == '\n' then i + 2 else i + 1;
        [s[..i]] + SplitLines(s[next..])
  }

  /** The text of a label file written one line per entry, each ended by "\n". */
  function JoinLines(lines: seq<string>): string
  {
    if lines == [] then "" else lines[0] + "\n" + JoinLines(lines[1..])
  }

  /** Splitting a "\n"-terminated file gives back the lines that have no boundary in them. */
  lemma {:induction false} SplitJoinLines(lines: seq<string>)
    requires forall k :: 0 <= k < |lines| ==> IsLine(lines[k])
    ensures SplitLines(JoinLines(lines)) == lines
  {
    if lines != [] {
      var rest := JoinLines(lines[1..]);
      SplitAtBreak(lines[0], '\n', rest);
      SplitJoinLines(lines[1..]);
    }
  }

  /**
   * A line followed by one boundary character and more text splits into that
   * line and the lines of the rest; "\r" counts alone unless "\n" follows it.
   */
  lemma SplitAtBreak(l: string, b: char, rest: string)
    requires IsLine(l) && IsLineBreak(b)
    requires !(b == '\r' && rest != [] && rest[0] == '\n')
    ensures SplitLines(l + [b] + rest) == [l] + SplitLines(rest)
  {
    var s := l + [b] + rest;
    assert s[|l|] == b;
    FirstBreakAt(s, |l|);
    assert s[..|l|] == l;
    assert s[|l| + 1..] == rest;
  }

  /** "\r\n" ends a line as one boundary: it does not leave an empty line behind. */
  lemma SplitAtCrLf(l: string, rest: string)
    requires IsLine(l)
    ensures SplitLines(l + "\r\n" + rest) == [l] + SplitLines(rest)
  {
    var s := l + "\r\n" + rest;
    assert s[|l|] == '\r' && s[|l| + 1] == '\n';
    FirstBreakAt(s, |l|);
    assert s[..|l|] == l;
    assert s[|l| + 2..] == rest;
  }

  /** A last line without a boundary after it is still a line of the text. */
  lemma SplitLastLine(l: string)
    requires IsLine(l) && l != []
    ensures SplitLines(l) == [l]
  {
    NoBreak(l);
  }

  lemma {:induction false} NoBreak(s: string)
    requires IsLine(s)
    ensures FirstBreak(s) == |s|
  {
    if s != [] {
      InfixIsLine(s, 1, |s|);
      NoBreak(s[1..]);
    }
  }

  lemma FirstBreakAt(s: string, i: nat)
    requires i < |s| && IsLineBreak(s[i])
    requires forall k :: 0 <= k < i ==> !IsLineBreak(s[k])
    ensures FirstBreak(s) == i
  {
  }
}
