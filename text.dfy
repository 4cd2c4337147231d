/** The string operations of Python's `str` that the core relies on:
    `strip`, `replace` of one character, `in` (substring search),
    `split(sep)[0]`, `startswith` and `lower`. */
module Text {

  /** The characters for which Python's `str.isspace()` holds; `str.strip()`
      with no argument removes exactly these. */
  const Whitespace: set<char> := {
    ' ', '\t', '\n', '\r', '\U{0B}', '\U{0C}', '\U{1C}', '\U{1D}', '\U{1E}', '\U{1F}',
    '\U{85}', '\U{A0}', '\U{1680}', '\U{2000}', '\U{2001}', '\U{2002}', '\U{2003}',
    '\U{2004}', '\U{2005}', '\U{2006}', '\U{2007}', '\U{2008}', '\U{2009}', '\U{200A}',
    '\U{2028}', '\U{2029}', '\U{202F}', '\U{205F}', '\U{3000}'
  }

  /** `s.lstrip(cs)`: drops the longest prefix made of characters in `cs`. */
  function StripStart(s: string, cs: set<char>): (r: string)
    ensures |r| <= |s| && r == s[|s| - |r|..]
    ensures forall k :: 0 <= k < |s| - |r| ==> s[k] in cs
    ensures r != [] ==> r[0] !in cs
  {
    if s != [] && s[0] in cs then StripStart(s[1..], cs) else s
  }

  /** `s.rstrip(cs)`: drops the longest suffix made of characters in `cs`. */
  function StripEnd(s: string, cs: set<char>): (r: string)
    ensures |r| <= |s| && r == s[..|r|]
    ensures forall k :: |r| <= k < |s| ==> s[k] in cs
    ensures r != [] ==> r[|r| - 1] !in cs
  {
    if s != [] && s[|s| - 1] in cs then StripEnd(s[..|s| - 1], cs) else s
  }

  /** `p` occurs in `s` starting at index `i`. */
  predicate OccursAt(s: string, p: string, i: int) {
    0 <= i && i + |p| <= |s| && s[i..i + |p|] == p
  }

  /** Python's `p in s`. */
  predicate Contains(s: string, p: string) {
    exists i :: 0 <= i <= |s| && OccursAt(s, p, i)
  }

  /** `r` is a contiguous piece of `s`. */
  predicate IsSubstring(r: string, s: string) {
    Contains(s, r)
  }

  /** A piece of a piece of `s` is a piece of `s`. */
  lemma {:induction false} SubstringTransitive(a: string, b: string, c: string)
    requires IsSubstring(a, b) && IsSubstring(b, c)
    ensures IsSubstring(a, c)
  {
    var i :| 0 <= i <= |b| && OccursAt(b, a, i);
    var j :| 0 <= j <= |c| && OccursAt(c, b, j);
    SliceOfSlice(c, j, j + |b|, i, i + |a|);
    assert OccursAt(c, a, j + i);
  }

  /** `p` occurs in `x + p + y` right after `x`. */
  lemma {:induction false} OccursInMiddle(x: string, p: string, y: string)
    ensures OccursAt(x + p + y, p, |x|)
  {
    var s := x + p + y;
    assert forall k :: 0 <= k < |p| ==> s[|x|..|x| + |p|][k] == s[|x| + k] == p[k];
  }

  /** A slice of a slice is a slice. */
  lemma {:induction false} SliceOfSlice(s: string, lo: nat, hi: nat, i: nat, j: nat)
    requires lo <= hi <= |s| && i <= j <= hi - lo
    ensures s[lo..hi][i..j] == s[lo + i..lo + j]
  {
    var t := s[lo..hi];
    assert forall k :: 0 <= k < j - i ==> t[i..j][k] == t[i + k] == s[lo + i + k];
  }

  /** What occurs in a piece of `s` occurs in `s`. */
  lemma {:induction false} ContainsInSubstring(a: string, b: string, p: string)
    requires IsSubstring(a, b) && Contains(a, p)
    ensures Contains(b, p)
  {
    SubstringTransitive(p, a, b);
  }

  /** A piece of a string free of the characters `bad` is free of them too. */
  lemma {:induction false} SubstringAvoids(r: string, s: string, bad: set<char>)
    requires IsSubstring(r, s)
    requires forall k :: 0 <= k < |s| ==> s[k] !in bad
    ensures forall k :: 0 <= k < |r| ==> r[k] !in bad
  {
    var i :| 0 <= i <= |s| && OccursAt(s, r, i);
    forall k | 0 <= k < |r| ensures r[k] !in bad {
      assert r[k] == s[i..i + |r|][k] == s[i + k];
    }
  }

  /** `r` is the piece of `s` starting at index `i`, and everything of `s`
      before and after that piece is made of characters in `cs`. */
  predicate StrippedAt(r: string, s: string, cs: set<char>, i: int) {
    OccursAt(s, r, i) &&
    (forall k :: 0 <= k < i ==> s[k] in cs) &&
    (forall k :: i + |r| <= k < |s| ==> s[k] in cs)
  }

  /** `r` is what `s.strip(cs)` leaves: `s` with a prefix and a suffix made
      of characters in `cs` removed, and neither end of `r` in `cs`. */
  predicate IsStripOf(r: string, s: string, cs: set<char>) {
    (r != [] ==> r[0] !in cs && r[|r| - 1] !in cs) &&
    exists i :: 0 <= i <= |s| && StrippedAt(r, s, cs, i)
  }

  /** At most one string is what stripping `s` leaves. */
  lemma {:induction false} IsStripOfUnique(r1: string, r2: string, s: string, cs: set<char>)
    requires IsStripOf(r1, s, cs) && IsStripOf(r2, s, cs)
    ensures r1 == r2
  {
    var i1 :| 0 <= i1 <= |s| && StrippedAt(r1, s, cs, i1);
    var i2 :| 0 <= i2 <= |s| && StrippedAt(r2, s, cs, i2);
    if r1 != [] {
      assert s[i1] == s[i1..i1 + |r1|][0] == r1[0];
      assert s[i1 + |r1| - 1] == s[i1..i1 + |r1|][|r1| - 1] == r1[|r1| - 1];
    }
    if r2 != [] {
      assert s[i2] == s[i2..i2 + |r2|][0] == r2[0];
      assert s[i2 + |r2| - 1] == s[i2..i2 + |r2|][|r2| - 1] == r2[|r2| - 1];
    }
    if r1 != [] && r2 != [] {
      assert i1 == i2;
      assert i1 + |r1| == i2 + |r2|;
    }
  }

  /** `s.strip(cs)`: both ends. */
  function Strip(s: string, cs: set<char>): (r: string)
    ensures IsStripOf(r, s, cs)
    ensures IsSubstring(r, s)
    ensures r != [] ==> r[0] !in cs && r[|r| - 1] !in cs
    ensures r == [] ==> forall k :: 0 <= k < |s| ==> s[k] in cs
  {
    var t := StripStart(s, cs);
    var r := StripEnd(t, cs);
    StripPieces(s, t, r, cs);
    r
  }

  /** A suffix `t` of `s` after characters in `cs`, and a prefix `r` of `t`
      before characters in `cs`, is a piece of `s` stripped of them. */
  lemma {:induction false} StripPieces(s: string, t: string, r: string, cs: set<char>)
    requires |t| <= |s| && t == s[|s| - |t|..]
    requires forall k :: 0 <= k < |s| - |t| ==> s[k] in cs
    requires |r| <= |t| && r == t[..|r|]
    requires forall k :: |r| <= k < |t| ==> t[k] in cs
    ensures StrippedAt(r, s, cs, |s| - |t|)
    ensures IsSubstring(r, s)
    ensures r == [] ==> forall k :: 0 <= k < |s| ==> s[k] in cs
  {
    var i := |s| - |t|;
    SliceOfSlice(s, i, |s|, 0, |r|);
    assert OccursAt(s, r, i);
    forall k | i + |r| <= k < |s|
      ensures s[k] in cs
    {
      assert s[k] == t[k - i];
    }
  }

  /** Stripping a string twice strips nothing more. */
  lemma {:induction false} StripIdempotent(s: string, cs: set<char>)
    ensures Strip(Strip(s, cs), cs) == Strip(s, cs)
  {
    var r := Strip(s, cs);
    assert StripStart(r, cs) == r;
    assert StripEnd(r, cs) == r;
  }

  /** A string whose ends are kept is left as it is by `strip`. */
  lemma {:induction false} StripClean(s: string, cs: set<char>)
    requires s != [] ==> s[0] !in cs && s[|s| - 1] !in cs
    ensures Strip(s, cs) == s
  {
    assert s != [] ==> s[0] !in cs;
    assert StripStart(s, cs) == s;
  }

  /** `strip` keeps a first character that is not stripped. */
  lemma {:induction false} StripKeepsFirst(s: string, cs: set<char>)
    requires s != [] && s[0] !in cs
    ensures Strip(s, cs) != [] && Strip(s, cs)[0] == s[0]
  {
    assert StripStart(s, cs) == s;
  }

  /** Python's `s.replace(a, b)` for one-character `a` and `b`. */
  function ReplaceChar(s: string, a: char, b: char): (r: string)
    ensures |r| == |s|
    ensures forall k :: 0 <= k < |s| ==> r[k] == (if s[k] == a then b else s[k])
  {
    if s == [] then [] else [if s[0] == a then b else s[0]] + ReplaceChar(s[1..], a, b)
  }

  /** Replacing a character the string does not hold changes nothing. */
  lemma {:induction false} ReplaceAbsentChar(s: string, a: char, b: char)
    requires forall k :: 0 <= k < |s| ==> s[k] != a
    ensures ReplaceChar(s, a, b) == s
  {
    var r := ReplaceChar(s, a, b);
    assert forall k :: 0 <= k < |s| ==> r[k] == s[k];
  }

  /** The first index at or after `i` where `p` occurs in `s`, or -1. */
  function FindFrom(s: string, p: string, i: nat): (k: int)
    requires i <= |s|
    ensures k == -1 || (i <= k && OccursAt(s, p, k))
    ensures forall j :: i <= j && (k == -1 || j < k) ==> !OccursAt(s, p, j)
    decreases |s| - i
  {
    if i + |p| > |s| then -1
    else if s[i..i + |p|] == p then i
    else FindFrom(s, p, i + 1)
  }

  /** Python's `s.find(p)`. */
  function Find(s: string, p: string): (k: int)
    ensures k == -1 <==> !Contains(s, p)
    ensures k != -1 ==> OccursAt(s, p, k) && forall j :: 0 <= j < k ==> !OccursAt(s, p, j)
  {
    FindFrom(s, p, 0)
  }

  /** Python's `s.split(sep)[0]` for a non-empty separator: everything before
      the first occurrence of `sep`, or all of `s`. */
  function Before(s: string, sep: string): (r: string)
    requires sep != []
    ensures |r| <= |s| && r == s[..|r|]
    ensures !Contains(r, sep)
    ensures Contains(s, sep) ==> OccursAt(s, sep, |r|)
    ensures forall j :: 0 <= j < |r| ==> !OccursAt(s, sep, j)
    ensures !Contains(s, sep) ==> r == s
  {
    var k := Find(s, sep);
    if k == -1 then s
    else
      var r := s[..k];
      forall j | 0 <= j <= |r| && OccursAt(r, sep, j) ensures false {
        assert r[j..j + |sep|] == s[j..j + |sep|];
        assert OccursAt(s, sep, j);
      }
      r
  }

  /** `"".join(lines)`. */
  function Concat(lines: seq<string>): string {
    if lines == [] then "" else Concat(lines[..|lines| - 1]) + lines[|lines| - 1]
  }

  lemma {:induction false} ConcatAppend(a: seq<string>, b: seq<string>)
    ensures Concat(a + b) == Concat(a) + Concat(b)
    decreases |b|
  {
    if b != [] {
      var init, x := b[..|b| - 1], b[|b| - 1];
      ConcatAppend(a, init);
      assert (a + b)[..|a + b| - 1] == a + init;
      assert (a + b)[|a + b| - 1] == x;
      assert Concat(b) == Concat(init) + x;
    } else {
      assert a + b == a;
    }
  }

  /** Python's `s.startswith(p)`. */
  predicate StartsWith(s: string, p: string) {
    |p| <= |s| && s[..|p|] == p
  }

  /** Python's `s.endswith(p)`. */
  predicate EndsWith(s: string, p: string) {
    |p| <= |s| && s[|s| - |p|..] == p
  }

  /** Where the parts of a two-part string lie. */
  lemma {:induction false} Parts2(a: string, b: string)
    ensures StartsWith(a + b, a) && EndsWith(a + b, b)
  {
    assert (a + b)[..|a|] == a;
    assert (a + b)[|a + b| - |b|..] == b;
  }

  /** Where the parts of a four-part string lie. */
  lemma {:induction false} Parts4(a: string, b: string, c: string, d: string)
    ensures var s := a + b + c + d;
            StartsWith(s, a) && OccursAt(s, b, |a|) && EndsWith(s, d)
  {
    var s := a + b + c + d;
    assert s[..|a|] == a;
    assert s[|a|..|a| + |b|] == b;
    assert s[|s| - |d|..] == d;
  }

  /** Python's `c.lower()`, for the ASCII letters. */
  function LowerChar(c: char): char {
    if 'A' <= c <= 'Z' then (c as int + 32) as char else c
  }

  /** Python's `s.lower()`, for the ASCII letters. */
  function Lower(s: string): (r: string)
    ensures |r| == |s|
    ensures forall k :: 0 <= k < |s| ==> r[k] == LowerChar(s[k])
  {
    if s == [] then [] else [LowerChar(s[0])] + Lower(s[1..])
  }
}
