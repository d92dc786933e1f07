/**
 * The two functions of Go's `strings` package the extractor relies on:
 * `TrimSpace` and `Contains`. A Go string is modelled as the sequence of its
 * code points.
 */
module GoStrings {

  /** Go's `unicode.IsSpace`: the Unicode White_Space property. */
  predicate IsSpace(c: char) {
    ('\t' <= c <= '\r') || c == ' ' || c == '\U{85}' || c == '\U{A0}' || c == '\U{1680}'
    || ('\U{2000}' <= c <= '\U{200A}') || c == '\U{2028}' || c == '\U{2029}'
    || c == '\U{202F}' || c == '\U{205F}' || c == '\U{3000}'
  }

  /** The number of white-space code points at the start of `s`. */
  function LeadingSpace(s: string): (n: nat)
    ensures n <= |s|
    ensures forall k :: 0 <= k < n ==> IsSpace(s[k])
    ensures n < |s| ==> !IsSpace(s[n])
  {
    if s != [] && IsSpace(s[0]) then 1 + LeadingSpace(s[1..]) else 0
  }

  /** The number of white-space code points at the end of `s`. */
  function TrailingSpace(s: string): (n: nat)
    ensures n <= |s|
    ensures forall k :: |s| - n <= k < |s| ==> IsSpace(s[k])
    ensures n < |s| ==> !IsSpace(s[|s| - 1 - n])
  {
    if s != [] && IsSpace(s[|s| - 1]) then 1 + TrailingSpace(s[..|s| - 1]) else 0
  }

  /** `strings.TrimSpace`: drops leading, then trailing white space. */
  function TrimSpace(s: string): string {
    var t := s[LeadingSpace(s)..];
    t[..|t| - TrailingSpace(t)]
  }

  /**
   * `r` is `s` with some white space cut from each end, and no more: `r` sits
   * at offset `i` of `s`, and everything before and after it is white space.
   */
  ghost predicate SpaceFramed(s: string, i: int, r: string) {
    && 0 <= i <= |s| - |r|
    && s[i..i + |r|] == r
    && (forall k :: 0 <= k < i ==> IsSpace(s[k]))
    && (forall k :: i + |r| <= k < |s| ==> IsSpace(s[k]))
  }

  /**
   * The trimmed text is the original with only white space removed from its
   * ends, it neither starts nor ends with white space, and it is empty exactly
   * when the original is all white space.
   */
  lemma TrimSpaceTrims(s: string)
    ensures var r := TrimSpace(s);
      && (r == [] || (!IsSpace(r[0]) && !IsSpace(r[|r| - 1])))
      && SpaceFramed(s, LeadingSpace(s), r)
      && Contains(s, r)
      && (r == [] <==> forall k :: 0 <= k < |s| ==> IsSpace(s[k]))
  {
    var r := TrimSpace(s);
    TrimSpaceFramed(s);
    assert r <= s[LeadingSpace(s)..];
  }

  /** The trimmed text sits at the offset of the first non-space, framed by white space. */
  lemma TrimSpaceFramed(s: string)
    ensures SpaceFramed(s, LeadingSpace(s), TrimSpace(s))
  {
    var lead := LeadingSpace(s);
    var t := s[lead..];
    var r := t[..|t| - TrailingSpace(t)];
    assert s[lead..lead + |r|] == r;
    forall k | lead + |r| <= k < |s|
      ensures IsSpace(s[k])
    {
      assert s[k] == t[k - lead];
    }
  }

  /**
   * Only one text has those properties: any `r` that is `s` framed by white
   * space and has no white space at either end is `TrimSpace(s)`.
   */
  lemma TrimSpaceUnique(s: string, i: int, r: string)
    requires SpaceFramed(s, i, r)
    requires r == [] || (!IsSpace(r[0]) && !IsSpace(r[|r| - 1]))
    ensures r == TrimSpace(s)
  {
    TrimSpaceTrims(s);
    var t := TrimSpace(s);
    var lead := LeadingSpace(s);
    if r == [] {
      assert forall k :: 0 <= k < |s| ==> IsSpace(s[k]) by {
        forall k | 0 <= k < |s| ensures IsSpace(s[k]) {
          if k >= i {
            assert i + |r| <= k;
          }
        }
      }
    } else {
      assert s[i] == r[0];
      assert i == lead;
      assert s[i + |r| - 1] == r[|r| - 1];
      assert s[lead + |t| - 1] == t[|t| - 1];
      assert |t| == |r|;
    }
  }

  /** `strings.Contains(s, sub)`: `sub` occurs in `s` at some offset. */
  predicate Contains(s: string, sub: string) {
    exists i :: 0 <= i <= |s| - |sub| && sub <= s[i..]
  }

  /** Trimming twice is trimming once. */
  lemma TrimSpaceIdempotent(s: string)
    ensures TrimSpace(TrimSpace(s)) == TrimSpace(s)
  {
    var r := TrimSpace(s);
    TrimSpaceTrims(s);
    assert LeadingSpace(r) == 0;
    assert TrailingSpace(r) == 0;
  }

  /** Appending to a string keeps everything it already contained. */
  lemma ContainsExtend(s: string, more: string, sub: string)
    requires Contains(s, sub)
    ensures Contains(s + more, sub)
  {
    var i :| 0 <= i <= |s| - |sub| && sub <= s[i..];
    assert s[i..] <= (s + more)[i..];
  }

  /** What was just appended is contained in the result. */
  lemma ContainsAppended(s: string, sub: string)
    ensures Contains(s + sub, sub)
  {
    assert sub <= (s + sub)[|s|..];
  }
}
