/**
 * The string operations the screens rely on: case-insensitive equality and
 * containment (Kotlin's `ignoreCase = true`) and `trim`/`isBlank`.
 * Both are approximated on ASCII: only 'A'..'Z' fold to lower case, and the
 * whitespace class is the ASCII part of Kotlin's `Char.isWhitespace`.
 */
module Text {

  /** ASCII lower-casing of one character. */
  function LowerAscii(c: char): (r: char)
    ensures 'A' <= c <= 'Z' ==> r as int == c as int + 32
    ensures !('A' <= c <= 'Z') ==> r == c
    ensures !('A' <= r <= 'Z')
  {
    if 'A' <= c <= 'Z' then (c as int + 32) as char else c
  }

  /** `a.equals(b, ignoreCase = true)`, ASCII approximation. */
  predicate EqualsIgnoreCase(a: string, b: string)
    ensures EqualsIgnoreCase(a, b) ==> |a| == |b|
  {
    |a| == |b| && forall i :: 0 <= i < |a| ==> LowerAscii(a[i]) == LowerAscii(b[i])
  }

  /** `text.contains(query, ignoreCase = true)`, ASCII approximation. */
  predicate ContainsIgnoreCase(text: string, query: string)
    ensures ContainsIgnoreCase(text, query) ==> |query| <= |text|
  {
    exists i :: 0 <= i <= |text| && MatchesAt(text, query, i)
  }

  /** `query` occurs in `text` at position `i`, ignoring case. */
  predicate MatchesAt(text: string, query: string, i: int)
  {
    0 <= i && i + |query| <= |text| && EqualsIgnoreCase(text[i..i + |query|], query)
  }

  /** `r` is the slice of `s` that starts at `i`. */
  predicate SliceAt(r: string, s: string, i: int)
  {
    0 <= i && i + |r| <= |s| && r == s[i..i + |r|]
  }

  /** Whitespace as Kotlin's `Char.isWhitespace` classifies the ASCII range. */
  predicate IsWhitespace(c: char)
  {
    (9 <= c as int <= 13) || (28 <= c as int <= 32)
  }

  /** `s.isBlank()`: empty or only whitespace. */
  predicate IsBlank(s: string)
    ensures IsBlank(s) <==> TrimStart(s) == []
  {
    var t := TrimStart(s);
    assert t != [] ==> t[0] == s[|s| - |t|];
    forall i :: 0 <= i < |s| ==> IsWhitespace(s[i])
  }

  /** Drops leading whitespace: the result is the suffix of `s` that starts at its first non-blank character. */
  function TrimStart(s: string): (r: string)
    ensures |r| <= |s| && r == s[|s| - |r|..]
    ensures forall i :: 0 <= i < |s| - |r| ==> IsWhitespace(s[i])
    ensures r == [] || !IsWhitespace(r[0])
  {
    if |s| > 0 && IsWhitespace(s[0]) then TrimStart(s[1..]) else s
  }

  /** Drops trailing whitespace: the result is the prefix of `s` that ends at its last non-blank character. */
  function TrimEnd(s: string): (r: string)
    ensures |r| <= |s| && r == s[..|r|]
    ensures forall i :: |r| <= i < |s| ==> IsWhitespace(s[i])
    ensures r == [] || !IsWhitespace(r[|r| - 1])
  {
    if |s| > 0 && IsWhitespace(s[|s| - 1]) then TrimEnd(s[..|s| - 1]) else s
  }

  /**
   * `r` is the slice of `s` at `i`, and everything before and after that
   * slice is whitespace.
   */
  predicate TrimmedAt(r: string, s: string, i: int)
  {
    && SliceAt(r, s, i)
    && (forall k :: 0 <= k < i ==> IsWhitespace(s[k]))
    && (forall k :: i + |r| <= k < |s| ==> IsWhitespace(s[k]))
  }

  /** `r` neither starts nor ends with a blank character. */
  predicate NoBlankEnds(r: string)
  {
    r == [] || (!IsWhitespace(r[0]) && !IsWhitespace(r[|r| - 1]))
  }

  /** `s.trim()`: a contiguous slice of `s` with no blank character at either end, everything cut off being blank. */
  function Trim(s: string): (r: string)
    ensures exists i :: TrimmedAt(r, s, i)
    ensures NoBlankEnds(r)
    ensures r == [] <==> IsBlank(s)
  {
    var r := TrimEnd(TrimStart(s));
    TrimCutsWhitespace(s);
    TrimEndsNotBlank(s);
    TrimEmptyIffBlank(s);
    r
  }

  /** Trimming both ends keeps one slice of `s` and cuts off only whitespace. */
  lemma TrimCutsWhitespace(s: string)
    ensures TrimmedAt(TrimEnd(TrimStart(s)), s, |s| - |TrimStart(s)|)
  {
    var t := TrimStart(s);
    var r := TrimEnd(t);
    PrefixOfSuffix(s, t, r);
  }

  /**
   * A prefix `r` of the suffix `t` of `s` is the slice of `s` where `t`
   * starts, and what `t` has after `r` is what `s` has after that slice.
   */
  lemma PrefixOfSuffix(s: string, t: string, r: string)
    requires |t| <= |s| && t == s[|s| - |t|..]
    requires |r| <= |t| && r == t[..|r|]
    requires forall k :: |r| <= k < |t| ==> IsWhitespace(t[k])
    ensures SliceAt(r, s, |s| - |t|)
    ensures forall k :: |s| - |t| + |r| <= k < |s| ==> IsWhitespace(s[k])
  {
    var i := |s| - |t|;
    assert s[i..][..|r|] == s[i..i + |r|];
    forall k | i + |r| <= k < |s|
      ensures IsWhitespace(s[k])
    {
      assert s[k] == t[k - i];
    }
  }

  /** What trimming both ends keeps starts and ends with a non-blank character. */
  lemma TrimEndsNotBlank(s: string)
    ensures NoBlankEnds(TrimEnd(TrimStart(s)))
  {
    var t := TrimStart(s);
    var r := TrimEnd(t);
    if r != [] {
      assert r[0] == t[0];
    }
  }

  /** Trimming both ends leaves nothing exactly for a blank text. */
  lemma TrimEmptyIffBlank(s: string)
    ensures TrimEnd(TrimStart(s)) == [] <==> IsBlank(s)
  {
    var t := TrimStart(s);
    if t != [] {
      assert !IsWhitespace(t[0]);
      assert TrimEnd(t) != [];
    }
  }

  /** An empty query is contained in every text. */
  lemma ContainsEmpty(text: string)
    ensures ContainsIgnoreCase(text, "")
  {
    assert MatchesAt(text, "", 0);
  }

  /** Containment ignores the case of the query: an upper-case letter matches its lower-case form. */
  lemma {:induction false} ContainsIgnoresQueryCase(text: string, q1: string, q2: string)
    requires EqualsIgnoreCase(q1, q2)
    ensures ContainsIgnoreCase(text, q1) <==> ContainsIgnoreCase(text, q2)
  {
    if ContainsIgnoreCase(text, q1) {
      var i :| 0 <= i <= |text| && MatchesAt(text, q1, i);
      assert forall k :: 0 <= k < |q2| ==> LowerAscii(text[i..i + |q2|][k]) == LowerAscii(q1[k]);
      assert 0 <= i <= |text| && MatchesAt(text, q2, i);
    }
    if ContainsIgnoreCase(text, q2) {
      var i :| 0 <= i <= |text| && MatchesAt(text, q2, i);
      assert forall k :: 0 <= k < |q1| ==> LowerAscii(text[i..i + |q1|][k]) == LowerAscii(q2[k]);
      assert 0 <= i <= |text| && MatchesAt(text, q1, i);
    }
  }

  /** Case-insensitive equality implies case-insensitive containment. */
  lemma EqualsImpliesContains(text: string, query: string)
    requires EqualsIgnoreCase(text, query)
    ensures ContainsIgnoreCase(text, query)
  {
    assert text[0..|query|] == text;
    assert MatchesAt(text, query, 0);
  }
}
