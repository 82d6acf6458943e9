/** The two Python string builtins the core relies on: `str.lower()` and
    `str.strip()` with no arguments. */
module Strings {

  /** An ASCII upper-case letter. */
  predicate IsUpper(c: char) {
    'A' <= c <= 'Z'
  }

  /** `c.lower()` restricted to ASCII; every other character is kept. */
  function LowerChar(c: char): char {
    if IsUpper(c) then (c as int + 32) as char else c
  }

  /** `s.lower()`, character by character. */
  function Lower(s: string): (r: string)
    ensures |r| == |s|
    ensures forall i :: 0 <= i < |s| ==> r[i] == LowerChar(s[i])
  {
    seq(|s|, i requires 0 <= i < |s| => LowerChar(s[i]))
  }

  /** What lower-casing does: the length is kept, no upper-case letter is
      left, each upper-case letter becomes the lower-case letter at the same
      place in the alphabet, and every other character is kept. */
  lemma LowerMeaning(s: string)
    ensures |Lower(s)| == |s|
    ensures forall i :: 0 <= i < |s| ==> !IsUpper(Lower(s)[i])
    ensures forall i :: 0 <= i < |s| && !IsUpper(s[i]) ==> Lower(s)[i] == s[i]
    ensures forall i :: 0 <= i < |s| && IsUpper(s[i]) ==>
              'a' <= Lower(s)[i] <= 'z' && Lower(s)[i] as int - 'a' as int == s[i] as int - 'A' as int
  {
  }

  /** Lower-casing an already lower-cased text changes nothing. */
  lemma LowerIdempotent(s: string)
    ensures Lower(Lower(s)) == Lower(s)
  {
  }

  /** Lower-casing is the identity on dots, so it neither adds nor removes a dot. */
  lemma LowerCharDot(c: char)
    ensures LowerChar(c) == '.' <==> c == '.'
  {
  }

  lemma {:induction false} LowerOfSlice(s: string, i: nat)
    requires i <= |s|
    ensures Lower(s)[i..] == Lower(s[i..])
    ensures Lower(s)[..i] == Lower(s[..i])
  {
  }

  /** The characters Python's `str.isspace()` accepts: the ASCII controls
      TAB..CR and FS..US, SPACE, NEL, NO-BREAK SPACE, OGHAM SPACE MARK,
      EN QUAD..HAIR SPACE, LINE and PARAGRAPH SEPARATOR, NARROW NO-BREAK
      SPACE, MEDIUM MATHEMATICAL SPACE and IDEOGRAPHIC SPACE. */
  predicate IsSpace(c: char) {
    || '\t' <= c <= '\r'
    || '\U{1C}' <= c <= ' '
    || c == '\U{85}'
    || c == '\U{A0}'
    || c == '\U{1680}'
    || '\U{2000}' <= c <= '\U{200A}'
    || c == '\U{2028}'
    || c == '\U{2029}'
    || c == '\U{202F}'
    || c == '\U{205F}'
    || c == '\U{3000}'
  }

  predicate AllSpace(s: string) {
    forall i :: 0 <= i < |s| ==> IsSpace(s[i])
  }

  /** `s.lstrip()`: the longest suffix of `s` that does not start with whitespace. */
  function TrimLeft(s: string): (r: string)
    ensures |r| <= |s| && r == s[|s| - |r|..]
    ensures AllSpace(s[..|s| - |r|])
    ensures r != [] ==> !IsSpace(r[0])
    decreases |s|
  {
    if s != [] && IsSpace(s[0]) then
      var r := TrimLeft(s[1..]);
      assert s[..|s| - |r|] == [s[0]] + s[1..][..|s| - 1 - |r|];
      r
    else
      s
  }

  /** `s.rstrip()`: the longest prefix of `s` that does not end with whitespace. */
  function TrimRight(s: string): (r: string)
    ensures |r| <= |s| && r == s[..|r|]
    ensures AllSpace(s[|r|..])
    ensures r != [] ==> !IsSpace(r[|r| - 1])
    decreases |s|
  {
    if s != [] && IsSpace(s[|s| - 1]) then
      var r := TrimRight(s[..|s| - 1]);
      assert s[|r|..] == s[..|s| - 1][|r|..] + [s[|s| - 1]];
      r
    else
      s
  }

  /** `s.strip()`: `s` with leading and trailing whitespace removed. The
      result is no longer than `s` and, unless empty, neither starts nor
      ends with whitespace. */
  function Strip(s: string): (r: string)
    ensures |r| <= |s|
    ensures r != [] ==> !IsSpace(r[0]) && !IsSpace(r[|r| - 1])
  {
    var t := TrimLeft(s);
    var r := TrimRight(t);
    assert r != [] ==> r[0] == t[0];
    r
  }

  /** Where the stripped text starts in `s`: after the leading whitespace. */
  function StripStart(s: string): nat {
    |s| - |TrimLeft(s)|
  }

  /** What `strip()` gives: the piece of `s` that starts after the leading
      whitespace. */
  lemma StripSlice(s: string)
    ensures StripStart(s) + |Strip(s)| <= |s|
    ensures Strip(s) == s[StripStart(s)..StripStart(s) + |Strip(s)|]
  {
    var t := TrimLeft(s);
    var r := TrimRight(t);
    assert Strip(s) == r;
    SliceOfSuffix(s, |s| - |t|, |r|);
  }

  lemma SliceOfSuffix(s: string, a: nat, n: nat)
    requires a + n <= |s|
    ensures s[a..][..n] == s[a..a + n]
  {
  }

  /** Everything `strip()` cuts off, on either side, is whitespace. */
  lemma StripCutsSpace(s: string)
    ensures StripStart(s) + |Strip(s)| <= |s|
    ensures AllSpace(s[..StripStart(s)])
    ensures AllSpace(s[StripStart(s) + |Strip(s)|..])
  {
    var t := TrimLeft(s);
    var r := TrimRight(t);
    assert Strip(s) == r;
    TrimBoth(s, t, r);
  }

  /** Right-trimming the left-trimmed text cuts only whitespace from `s`. */
  lemma TrimBoth(s: string, t: string, r: string)
    requires |t| <= |s| && t == s[|s| - |t|..] && AllSpace(s[..|s| - |t|])
    requires |r| <= |t| && r == t[..|r|] && AllSpace(t[|r|..])
    ensures AllSpace(s[|s| - |t| + |r|..])
  {
    assert s[|s| - |t| + |r|..] == t[|r|..];
  }

  /** A stripped string is empty exactly when the original is all whitespace. */
  lemma StripEmptyIff(s: string)
    ensures Strip(s) == [] <==> AllSpace(s)
  {
  }

  /** Stripping twice is stripping once. */
  lemma StripIdempotent(s: string)
    ensures Strip(Strip(s)) == Strip(s)
  {
  }

  lemma {:induction false} TrimLeftSpaces(a: string, u: string)
    requires AllSpace(a) && (u == [] || !IsSpace(u[0]))
    ensures TrimLeft(a + u) == u
    decreases |a|
  {
    if a != [] {
      assert (a + u)[1..] == a[1..] + u;
      TrimLeftSpaces(a[1..], u);
    }
  }

  lemma {:induction false} TrimRightSpaces(u: string, b: string)
    requires AllSpace(b) && (u == [] || !IsSpace(u[|u| - 1]))
    ensures TrimRight(u + b) == u
    decreases |b|
  {
    if b != [] {
      assert (u + b)[..|u + b| - 1] == u + b[..|b| - 1];
      TrimRightSpaces(u, b[..|b| - 1]);
    }
  }

  /** `strip()` is determined by its result's shape: surrounding a text
      that neither starts nor ends with whitespace by whitespace on both
      sides, and stripping, gives the text back. */
  lemma StripSurrounded(a: string, t: string, b: string)
    requires AllSpace(a) && AllSpace(b)
    requires t != [] ==> !IsSpace(t[0]) && !IsSpace(t[|t| - 1])
    ensures Strip(a + t + b) == t
  {
    if t == [] {
      assert a + t + b == a + b;
      StripEmptyIff(a + b);
    } else {
      assert a + t + b == a + (t + b);
      TrimLeftSpaces(a, t + b);
      TrimRightSpaces(t, b);
    }
  }
}
