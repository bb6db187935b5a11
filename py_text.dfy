/** The three pieces of Python's string semantics that the conversation graph
    relies on: `str.isspace`/`str.strip()` (blank feedback), `str.upper()`
    and the substring test `p in s` (the TERMINATE check). */
module PyText {

  /** Python's `str.isspace()` on one character: the Unicode white-space
      characters, which include the ASCII separators 0x1C-0x1F. */
  predicate IsSpace(c: char) {
    || c == ' '
    || ('\t' <= c <= '\r')
    || ('\U{1C}' <= c <= '\U{1F}')
    || c == '\U{85}'
    || c == '\U{A0}'
    || c == '\U{1680}'
    || ('\U{2000}' <= c <= '\U{200A}')
    || c == '\U{2028}'
    || c == '\U{2029}'
    || c == '\U{202F}'
    || c == '\U{205F}'
    || c == '\U{3000}'
  }

  /** White space is not text: no white-space character is an ASCII letter
      or digit, and upper-casing leaves it as it is. */
  lemma SpaceIsNotText(c: char)
    requires IsSpace(c)
    ensures UpperChar(c) == c
    ensures !('a' <= c <= 'z' || 'A' <= c <= 'Z' || '0' <= c <= '9')
  {
  }

  /** A string made of white space only (the empty string included). */
  predicate IsBlank(s: string) {
    forall i :: 0 <= i < |s| ==> IsSpace(s[i])
  }

  /** `s.lstrip()`: drops the leading white space and nothing else. */
  function TrimStart(s: string): (r: string)
    ensures |r| <= |s| && r == s[|s| - |r|..]
    ensures forall i :: 0 <= i < |s| - |r| ==> IsSpace(s[i])
    ensures r != [] ==> !IsSpace(r[0])
  {
    if s != [] && IsSpace(s[0]) then TrimStart(s[1..]) else s
  }

  /** `s.rstrip()`: drops the trailing white space and nothing else. */
  function TrimEnd(s: string): (r: string)
    ensures |r| <= |s| && r == s[..|r|]
    ensures forall i :: |r| <= i < |s| ==> IsSpace(s[i])
    ensures r != [] ==> !IsSpace(r[|r| - 1])
  {
    if s != [] && IsSpace(s[|s| - 1]) then TrimEnd(s[..|s| - 1]) else s
  }

  /** `r` is the slice `s[k..k + |r|]` and everything around it is white space. */
  predicate SurroundedBySpace(s: string, r: string, k: int) {
    && 0 <= k <= |s| - |r| && s[k..k + |r|] == r
    && (forall i :: 0 <= i < k ==> IsSpace(s[i]))
    && (forall i :: k + |r| <= i < |s| ==> IsSpace(s[i]))
  }

  /** `s.strip()`: the result is the slice of `s` that is left once the white
      space on both ends is removed; it neither starts nor ends with white
      space, and it is empty exactly when `s` is blank. */
  function Strip(s: string): (r: string)
    ensures exists k :: SurroundedBySpace(s, r, k)
    ensures r != [] ==> !IsSpace(r[0]) && !IsSpace(r[|r| - 1])
    ensures r == [] <==> IsBlank(s)
  {
    var t := TrimStart(s);
    var r := TrimEnd(t);
    StripFacts(s, t, r);
    r
  }

  /** What `strip()` gives, from what each of the two trims promises. */
  lemma {:induction false} StripFacts(s: string, t: string, r: string)
    requires |t| <= |s| && t == s[|s| - |t|..]
    requires forall i :: 0 <= i < |s| - |t| ==> IsSpace(s[i])
    requires t != [] ==> !IsSpace(t[0])
    requires |r| <= |t| && r == t[..|r|]
    requires forall i :: |r| <= i < |t| ==> IsSpace(t[i])
    requires r != [] ==> !IsSpace(r[|r| - 1])
    ensures exists k :: SurroundedBySpace(s, r, k)
    ensures r != [] ==> !IsSpace(r[0]) && !IsSpace(r[|r| - 1])
    ensures r == [] <==> IsBlank(s)
  {
    var k := |s| - |t|;
    assert s[k..k + |r|] == r;
    forall i | k + |r| <= i < |s| ensures IsSpace(s[i]) {
      assert s[i] == t[i - k];
    }
    assert SurroundedBySpace(s, r, k);
    if r != [] {
      assert r[0] == t[0];
    } else {
      // `t` is all white space yet does not start with it, so it is empty.
      assert t == [];
    }
  }

  /** Python's `str.upper()` on one character, for the characters whose
      capital is an ASCII letter: `a`-`z`, dotless `ı` and long `ſ`. Every
      other character is kept as it is. No ASCII lower-case letter is left,
      and only those three kinds of letter change, each into an ASCII
      capital. */
  function UpperChar(c: char): (u: char)
    ensures !('a' <= u <= 'z')
    ensures u != c ==> 'A' <= u <= 'Z'
    ensures u != c ==> 'a' <= c <= 'z' || c == 'ı' || c == 'ſ'
  {
    if 'a' <= c <= 'z' then (c as int - 32) as char
    else if c == 'ı' then 'I'
    else if c == 'ſ' then 'S'
    else c
  }

  /** `s.upper()`, character by character: the length is kept, no ASCII
      lower-case letter is left, and only letters change, into capitals. */
  function Upper(s: string): (u: string)
    ensures |u| == |s|
    ensures forall i :: 0 <= i < |u| ==> !('a' <= u[i] <= 'z')
    ensures forall i :: 0 <= i < |u| ==> u[i] == s[i] || 'A' <= u[i] <= 'Z'
    ensures forall i :: 0 <= i < |u| && u[i] != s[i] ==> 'a' <= s[i] <= 'z' || s[i] == 'ı' || s[i] == 'ſ'
  {
    seq(|s|, i requires 0 <= i < |s| => UpperChar(s[i]))
  }

  /** `p` occurs in `s` starting at index `i`. */
  predicate OccursAt(s: string, p: string, i: int) {
    0 <= i <= |s| - |p| && s[i..i + |p|] == p
  }

  /** Python's `p in s` on strings: does `p` occur in `s` as a contiguous
      substring? Written as the left-to-right scan. */
  function Contains(s: string, p: string): (r: bool)
    ensures r <==> exists i :: OccursAt(s, p, i)
    decreases |s|
  {
    if |p| > |s| then false
    else if s[..|p|] == p then assert OccursAt(s, p, 0); true
    else
      var r := Contains(s[1..], p);
      assert r ==> exists i :: OccursAt(s, p, i) by {
        if r {
          var j :| OccursAt(s[1..], p, j);
          assert s[j + 1..j + 1 + |p|] == s[1..][j..j + |p|];
          assert OccursAt(s, p, j + 1);
        }
      }
      assert (exists i :: OccursAt(s, p, i)) ==> r by {
        if exists i :: OccursAt(s, p, i) {
          var i :| OccursAt(s, p, i);
          assert i != 0;
          assert s[1..][i - 1..i - 1 + |p|] == s[i..i + |p|];
          assert OccursAt(s[1..], p, i - 1);
        }
      }
      r
  }

  /** Upper-casing then searching is a case-insensitive search: `p` occurs in
      `s.upper()` exactly when some slice of `s` upper-cases, character by
      character, to `p`. */
  lemma {:induction false} ContainsUpper(s: string, p: string)
    ensures Contains(Upper(s), p) <==> exists i :: UppersToAt(s, p, i)
  {
    var u := Upper(s);
    forall i | 0 <= i <= |s| - |p|
      ensures OccursAt(u, p, i) <==> UppersToAt(s, p, i)
    {
      var v, w := u[i..i + |p|], s[i..i + |p|];
      forall k | 0 <= k < |p| ensures v[k] == UpperChar(w[k]) {
        assert v[k] == u[i + k];
      }
    }
  }

  /** `w` upper-cases, character by character, to `p`. */
  predicate UppersTo(w: string, p: string) {
    |w| == |p| && forall k :: 0 <= k < |w| ==> UpperChar(w[k]) == p[k]
  }

  /** The slice of `s` of length `|p|` starting at `i` upper-cases to `p`. */
  predicate UppersToAt(s: string, p: string, i: int) {
    0 <= i <= |s| - |p| && UppersTo(s[i..i + |p|], p)
  }
}
