/**
 * The extractor's "looks like JSON" test: whether the unanchored Go regular
 * expression `\{.*\}|\[.*\]` matches a string. Go's `.` matches any code point
 * except a newline, so the expression matches exactly when some opening
 * bracket is followed, later on the same line, by its closing bracket.
 */
module JsonPattern {

  /** The meaning of one alternative, `o.*c`: an `o` and, later, a `c` with no newline between them. */
  ghost predicate SpansPair(s: string, o: char, c: char) {
    exists i, j :: 0 <= i < j < |s| && s[i] == o && s[j] == c && '\n' !in s[i + 1..j]
  }

  /** A `c` occurs before the first newline of `s`. */
  ghost predicate ClosesOnLine(s: string, c: char) {
    exists j :: 0 <= j < |s| && s[j] == c && '\n' !in s[..j]
  }

  /**
   * One left-to-right pass deciding `o.*c`; `armed` records that an `o` was
   * seen since the last newline.
   */
  function ScanPair(s: string, o: char, c: char, armed: bool): bool
  {
    if s == [] then false
    else if armed && s[0] == c then true
    else ScanPair(s[1..], o, c, Rearm(s[0], o, armed))
  }

  /** `jsonLikePattern.MatchString(s)`. */
  predicate MatchesJsonLike(s: string) {
    ScanPair(s, '{', '}', false) || ScanPair(s, '[', ']', false)
  }

  /** The scan matches exactly where one of the two alternatives of the expression does. */
  lemma MatchesJsonLikeMeaning(s: string)
    ensures MatchesJsonLike(s) <==> SpansPair(s, '{', '}') || SpansPair(s, '[', ']')
  {
    ScanPairCorrect(s, '{', '}', false);
    ScanPairCorrect(s, '[', ']', false);
  }

  /** A slice of the tail is the slice of the whole text one place further on. */
  lemma TailSlice(s: string, a: int, b: int)
    requires s != [] && 0 <= a <= b <= |s| - 1
    ensures s[1..][a..b] == s[a + 1..b + 1]
  {
  }

  /** The value of `armed` after the pass reads `x`. */
  function Rearm(x: char, o: char, armed: bool): bool {
    if x == o then true else if x == '\n' then false else armed
  }

  /** What is still to be found in `s` by a pass that is armed or not. */
  ghost predicate Pending(s: string, o: char, c: char, armed: bool) {
    SpansPair(s, o, c) || (armed && ClosesOnLine(s, c))
  }

  /** What remains to be found after the first code point is what was to be found before it. */
  lemma PendingStep(s: string, o: char, c: char, armed: bool)
    requires o != c && o != '\n' && c != '\n'
    requires s != [] && !(armed && s[0] == c)
    ensures Pending(s, o, c, armed) <==> Pending(s[1..], o, c, Rearm(s[0], o, armed))
  {
    PendingFromTail(s, o, c, armed);
    PendingToTail(s, o, c, armed);
  }

  /** A match in the tail, or a pending opener there, is one in `s`. */
  lemma PendingFromTail(s: string, o: char, c: char, armed: bool)
    requires o != c && o != '\n' && c != '\n'
    requires s != []
    ensures Pending(s[1..], o, c, Rearm(s[0], o, armed)) ==> Pending(s, o, c, armed)
  {
    var t := s[1..];
    var armed' := Rearm(s[0], o, armed);
    if SpansPair(t, o, c) {
      var i, j :| 0 <= i < j < |t| && t[i] == o && t[j] == c && '\n' !in t[i + 1..j];
      TailSlice(s, i + 1, j);
      assert s[i + 1] == o && s[j + 1] == c;
    } else if armed' && ClosesOnLine(t, c) {
      var j :| 0 <= j < |t| && t[j] == c && '\n' !in t[..j];
      if s[0] == o {
        TailSlice(s, 0, j);
        assert s[0] == o && s[j + 1] == c;
      } else {
        assert s[0] != '\n';
        assert s[..j + 1] == [s[0]] + t[..j];
        assert s[j + 1] == c;
      }
    }
  }

  /** Every match in `s` not closed by its first code point is seen again in the tail. */
  lemma PendingToTail(s: string, o: char, c: char, armed: bool)
    requires o != c && o != '\n' && c != '\n'
    requires s != [] && !(armed && s[0] == c)
    ensures Pending(s, o, c, armed) ==> Pending(s[1..], o, c, Rearm(s[0], o, armed))
  {
    var t := s[1..];
    if SpansPair(s, o, c) {
      var i, j :| 0 <= i < j < |s| && s[i] == o && s[j] == c && '\n' !in s[i + 1..j];
      if i == 0 {
        TailSlice(s, 0, j - 1);
        assert t[j - 1] == c;
      } else {
        TailSlice(s, i, j - 1);
        assert t[i - 1] == o && t[j - 1] == c;
      }
    } else if armed && ClosesOnLine(s, c) {
      var j :| 0 <= j < |s| && s[j] == c && '\n' !in s[..j];
      assert j > 0;
      assert s[0] in s[..j];
      TailSlice(s, 0, j - 1);
      assert t[j - 1] == c;
    }
  }

  /** The pass finds exactly the matches of `o.*c`, plus a pending `o` when armed. */
  lemma {:induction false} ScanPairCorrect(s: string, o: char, c: char, armed: bool)
    requires o != c && o != '\n' && c != '\n'
    ensures ScanPair(s, o, c, armed) <==> Pending(s, o, c, armed)
  {
    if s == [] {
    } else if armed && s[0] == c {
      assert '\n' !in s[..0];
    } else {
      ScanPairCorrect(s[1..], o, c, Rearm(s[0], o, armed));
      PendingStep(s, o, c, armed);
    }
  }

  /** The fragments the extractor must reject: an object and an array literal. */
  lemma LiteralsLookLikeJson()
    ensures MatchesJsonLike("{\"a\":1}")
    ensures MatchesJsonLike("[1,2,3]")
  {
    MatchesJsonLikeMeaning("{\"a\":1}");
    MatchesJsonLikeMeaning("[1,2,3]");
    var obj := "{\"a\":1}";
    assert obj[0] == '{' && obj[6] == '}' && '\n' !in obj[1..6];
    var arr := "[1,2,3]";
    assert arr[0] == '[' && arr[6] == ']' && '\n' !in arr[1..6];
  }

  /** In `{\n}` the newline between the brackets defeats the pattern. */
  lemma NewlineSeparatesBrackets()
    ensures !MatchesJsonLike("{\n}")
  {
  }
}
