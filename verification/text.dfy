/**
 The two string operations of Rust's standard library that the output manager relies on
 when it reads an answer: `str::trim` (drop leading and trailing white space) and
 `str::to_ascii_lowercase` (map `A`..`Z` to `a`..`z`, leave every other character alone).
 */
module Text {

  /** The code points with the Unicode White_Space property. */
  const WhiteSpaceCodes: set<int> := {
    0x09, 0x0A, 0x0B, 0x0C, 0x0D, 0x20, 0x85, 0xA0, 0x1680,
    0x2000, 0x2001, 0x2002, 0x2003, 0x2004, 0x2005, 0x2006, 0x2007, 0x2008, 0x2009, 0x200A,
    0x2028, 0x2029, 0x202F, 0x205F, 0x3000
  }

  /** Rust's `char::is_whitespace`. */
  predicate IsWhitespace(c: char) {
    c as int in WhiteSpaceCodes
  }

  predicate AllWhitespace(s: string) {
    forall i :: 0 <= i < |s| ==> IsWhitespace(s[i])
  }

  /** The first index at or after `i` whose character is not white space, or `|s|`. */
  function SkipForward(s: string, i: nat): (j: nat)
    requires i <= |s|
    ensures i <= j <= |s|
    ensures forall k :: i <= k < j ==> IsWhitespace(s[k])
    ensures j < |s| ==> !IsWhitespace(s[j])
    decreases |s| - i
  {
    if i < |s| && IsWhitespace(s[i]) then SkipForward(s, i + 1) else i
  }

  /**
   Scanning back from `j` but not below `lo`: the index just past the last character that is
   not white space, or `lo`.
   */
  function SkipBackward(s: string, lo: nat, j: nat): (e: nat)
    requires lo <= j <= |s|
    ensures lo <= e <= j
    ensures forall k :: e <= k < j ==> IsWhitespace(s[k])
    ensures e > lo ==> !IsWhitespace(s[e - 1])
    decreases j
  {
    if j > lo && IsWhitespace(s[j - 1]) then SkipBackward(s, lo, j - 1) else j
  }

  /** Where the trimmed text of `s` starts: the length of its leading white space. */
  function TrimStart(s: string): (i: nat)
    ensures i <= |s|
  {
    SkipForward(s, 0)
  }

  /** Where the trimmed text of `s` ends: trailing white space is dropped after `TrimStart`. */
  function TrimEnd(s: string): (e: nat)
    ensures TrimStart(s) <= e <= |s|
  {
    SkipBackward(s, TrimStart(s), |s|)
  }

  /**
   `str::trim`: `s` without its leading and its trailing white space (`trim_start`, then
   `trim_end`). The result neither starts nor ends with white space.
   */
  function Trim(s: string): (r: string)
    ensures |r| <= |s|
    ensures r != [] ==> !IsWhitespace(r[0]) && !IsWhitespace(r[|r| - 1])
  {
    s[TrimStart(s)..TrimEnd(s)]
  }

  /**
   Where the trimmed text sits: it is the part of `s` from `TrimStart(s)` on, and everything
   before it and everything after it is white space.
   */
  lemma TrimPosition(s: string)
    ensures var lead := TrimStart(s);
      && lead + |Trim(s)| <= |s|
      && Trim(s) == s[lead..lead + |Trim(s)|]
      && (forall i :: 0 <= i < lead ==> IsWhitespace(s[i]))
      && (forall i :: lead + |Trim(s)| <= i < |s| ==> IsWhitespace(s[i]))
  {
  }

  /** The trimmed text is empty exactly when `s` is all white space. */
  lemma TrimEmptyIffBlank(s: string)
    ensures Trim(s) == [] <==> AllWhitespace(s)
  {
  }

  /** The forward scan stops at the first character from `i` on that is not white space. */
  lemma SkipForwardAt(s: string, i: nat, j: nat)
    requires i <= j <= |s|
    requires forall k :: i <= k < j ==> IsWhitespace(s[k])
    requires j < |s| ==> !IsWhitespace(s[j])
    ensures SkipForward(s, i) == j
  {
  }

  /** The backward scan stops just past the last character before `j` that is not white space. */
  lemma SkipBackwardAt(s: string, lo: nat, j: nat, e: nat)
    requires lo <= e <= j <= |s|
    requires forall k :: e <= k < j ==> IsWhitespace(s[k])
    requires e > lo ==> !IsWhitespace(s[e - 1])
    ensures SkipBackward(s, lo, j) == e
  {
  }

  /**
   Trim is determined by its contract: white space, then a text that neither starts nor ends
   with white space, then white space again, trims to that text.
   */
  lemma TrimOfPadded(front: string, t: string, back: string)
    requires AllWhitespace(front) && AllWhitespace(back)
    requires t != [] ==> !IsWhitespace(t[0]) && !IsWhitespace(t[|t| - 1])
    ensures Trim(front + t + back) == t
  {
    var s := front + t + back;
    var lead := if t == [] then |s| else |front|;
    var end := if t == [] then |s| else |front| + |t|;
    forall k | 0 <= k < |s|
      ensures k < |front| ==> s[k] == front[k]
      ensures |front| <= k < |front| + |t| ==> s[k] == t[k - |front|]
      ensures |front| + |t| <= k ==> s[k] == back[k - |front| - |t|]
    {
    }
    SkipForwardAt(s, 0, lead);
    SkipBackwardAt(s, lead, |s|, end);
    assert s[lead..end] == t;
  }

  /** A text that neither starts nor ends with white space is its own trim. */
  lemma TrimOfWord(w: string)
    requires w != [] ==> !IsWhitespace(w[0]) && !IsWhitespace(w[|w| - 1])
    ensures Trim(w) == w
  {
    assert w == [] + w + [];
    TrimOfPadded([], w, []);
  }

  /** Trimming twice is trimming once. */
  lemma TrimIdempotent(s: string)
    ensures Trim(Trim(s)) == Trim(s)
  {
    TrimOfWord(Trim(s));
  }

  /** `char::to_ascii_lowercase`. */
  function AsciiLower(c: char): char {
    if 'A' <= c <= 'Z' then (c as int + 32) as char else c
  }

  /**
   `str::to_ascii_lowercase`: the same length, every upper-case ASCII letter replaced by its
   lower-case partner and every other character kept.
   */
  function ToAsciiLowercase(s: string): (r: string)
    ensures |r| == |s|
    ensures forall i :: 0 <= i < |s| ==>
      if 'A' <= s[i] <= 'Z' then r[i] as int == s[i] as int + 32 else r[i] == s[i]
  {
    if s == [] then [] else [AsciiLower(s[0])] + ToAsciiLowercase(s[1..])
  }

  /**
   A one-letter answer: lowering `t` gives the lower-case letter `lower` exactly when `t` is
   that letter in either case.
   */
  lemma LowercaseIsLetter(t: string, lower: char)
    requires 'a' <= lower <= 'z'
    ensures ToAsciiLowercase(t) == [lower] <==>
      t == [lower] || t == [(lower as int - 32) as char]
  {
    if ToAsciiLowercase(t) == [lower] {
      assert |t| == 1;
    }
  }
}
