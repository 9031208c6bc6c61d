/**
 * String helpers: prefix/suffix/infix tests used to state the shape of the
 * prompt, and Rust's `str::trim`, which strips characters with the Unicode
 * White_Space property (`char::is_whitespace`) from both ends.
 */
module Text {

  predicate StartsWith(s: string, p: string)
  {
    |p| <= |s| && s[..|p|] == p
  }

  predicate EndsWith(s: string, p: string)
  {
    |p| <= |s| && s[|s| - |p|..] == p
  }

  /** `w` occurs in `s` starting at position `i`. */
  predicate OccursAt(s: string, i: int, w: string)
  {
    0 <= i && i + |w| <= |s| && s[i..i + |w|] == w
  }

  /** The code points with the Unicode White_Space property. */
  const WhiteSpace: set<char> := {
    '\t', '\n', '\U{B}', '\U{C}', '\r', ' ', '\U{85}', '\U{A0}', '\U{1680}',
    '\U{2000}', '\U{2001}', '\U{2002}', '\U{2003}', '\U{2004}', '\U{2005}',
    '\U{2006}', '\U{2007}', '\U{2008}', '\U{2009}', '\U{200A}',
    '\U{2028}', '\U{2029}', '\U{202F}', '\U{205F}', '\U{3000}'}

  /** Rust's `char::is_whitespace`. */
  predicate IsWhitespace(c: char)
  {
    c in WhiteSpace
  }

  /** Every character of `s` at a position in `[i, j)` is whitespace. */
  predicate WhitespaceBetween(s: string, i: int, j: int)
  {
    forall k :: i <= k < j && 0 <= k < |s| ==> IsWhitespace(s[k])
  }

  predicate AllWhitespace(s: string)
  {
    WhitespaceBetween(s, 0, |s|)
  }

  /** Neither end of `s` is whitespace. */
  predicate Trimmed(s: string)
  {
    s == [] || (!IsWhitespace(s[0]) && !IsWhitespace(s[|s| - 1]))
  }

  /** The forward scan of `trim_start`: the first position at or after `i` that is not whitespace, or the end. */
  function SkipForward(s: string, i: nat): (n: nat)
    requires i <= |s|
    ensures i <= n <= |s| && WhitespaceBetween(s, i, n)
    ensures n < |s| ==> !IsWhitespace(s[n])
    decreases |s| - i
  {
    if i < |s| && IsWhitespace(s[i]) then SkipForward(s, i + 1) else i
  }

  /** The backward scan of `trim_end`: the position just after the last non-whitespace character before `j`, or 0. */
  function SkipBackward(s: string, j: nat): (n: nat)
    requires j <= |s|
    ensures n <= j && WhitespaceBetween(s, n, j)
    ensures 0 < n ==> !IsWhitespace(s[n - 1])
  {
    if 0 < j && IsWhitespace(s[j - 1]) then SkipBackward(s, j - 1) else j
  }

  /** `trim_start`: what is dropped is a whitespace prefix, and what is kept does not start with whitespace. */
  function TrimStart(s: string): (r: string)
    ensures |r| <= |s| && r == s[|s| - |r|..]
    ensures WhitespaceBetween(s, 0, |s| - |r|)
    ensures r == [] || !IsWhitespace(r[0])
  {
    var n := SkipForward(s, 0);
    assert n < |s| ==> s[n..][0] == s[n];
    s[n..]
  }

  /** `trim_end`: what is dropped is a whitespace suffix, and what is kept does not end with whitespace. */
  function TrimEnd(s: string): (r: string)
    ensures |r| <= |s| && r == s[..|r|]
    ensures WhitespaceBetween(s, |r|, |s|)
    ensures r == [] || !IsWhitespace(r[|r| - 1])
  {
    var n := SkipBackward(s, |s|);
    assert 0 < n ==> s[..n][n - 1] == s[n - 1];
    s[..n]
  }

  /** `str::trim`. */
  function Trim(s: string): string
  {
    TrimEnd(TrimStart(s))
  }

  /** The forward scan stops exactly at a whitespace-run's end that is followed by a non-whitespace character or the end. */
  lemma SkipForwardStopsAt(s: string, i: nat, m: nat)
    requires i <= m <= |s| && WhitespaceBetween(s, i, m) && (m < |s| ==> !IsWhitespace(s[m]))
    ensures SkipForward(s, i) == m
  {
  }

  /** The backward scan stops exactly at a whitespace-run's start that is preceded by a non-whitespace character or the start. */
  lemma SkipBackwardStopsAt(s: string, j: nat, m: nat)
    requires m <= j <= |s| && WhitespaceBetween(s, m, j) && (0 < m ==> !IsWhitespace(s[m - 1]))
    ensures SkipBackward(s, j) == m
  {
  }

  /**
   * What `Trim` keeps is one contiguous piece of `s`: everything before it and
   * after it is whitespace, and it neither starts nor ends with whitespace.
   */
  lemma TrimIsInnerSlice(s: string)
    ensures var r, i := Trim(s), |s| - |TrimStart(s)|;
      && 0 <= i <= i + |r| <= |s|
      && r == s[i..i + |r|]
      && WhitespaceBetween(s, 0, i) && WhitespaceBetween(s, i + |r|, |s|)
      && Trimmed(r)
  {
    var t := TrimStart(s);
    var r := TrimEnd(t);
    var i := |s| - |t|;
    assert forall k :: 0 <= k < |t| ==> t[k] == s[i + k];
    assert r == s[i..i + |r|];
    forall k | i + |r| <= k < |s|
      ensures IsWhitespace(s[k])
    {
      assert s[k] == t[k - i];
    }
    if r != [] {
      assert r[0] == t[0];
    }
  }

  /** The trimmed string is empty exactly when the input is all whitespace. */
  lemma TrimEmptyIff(s: string)
    ensures Trim(s) == [] <==> AllWhitespace(s)
  {
    TrimIsInnerSlice(s);
    if AllWhitespace(s) {
      SkipForwardStopsAt(s, 0, |s|);
      assert TrimStart(s) == [];
    }
  }

  /** Trimming twice changes nothing more. */
  lemma TrimIdempotent(s: string)
    ensures Trim(Trim(s)) == Trim(s)
  {
    var r := Trim(s);
    TrimIsInnerSlice(s);
    SkipForwardStopsAt(r, 0, 0);
    assert TrimStart(r) == r;
    SkipBackwardStopsAt(r, |r|, |r|);
    assert TrimEnd(r) == r;
  }

  /**
   * The converse of `TrimIsInnerSlice`: a text with no whitespace at its ends,
   * padded with whitespace on both sides, trims back to itself.
   */
  lemma TrimOfPadded(ws1: string, body: string, ws2: string)
    requires AllWhitespace(ws1) && AllWhitespace(ws2) && Trimmed(body)
    ensures Trim(ws1 + body + ws2) == body
  {
    var s := ws1 + body + ws2;
    if body == [] {
      forall k | 0 <= k < |s|
        ensures IsWhitespace(s[k])
      {
        if k < |ws1| {
          assert s[k] == ws1[k];
        } else {
          assert s[k] == ws2[k - |ws1|];
        }
      }
      TrimEmptyIff(s);
    } else {
      var t := body + ws2;
      assert s == ws1 + t;
      forall k | 0 <= k < |ws1|
        ensures IsWhitespace(s[k])
      {
        assert s[k] == ws1[k];
      }
      assert s[|ws1|] == body[0];
      SkipForwardStopsAt(s, 0, |ws1|);
      assert TrimStart(s) == t;
      forall k | |body| <= k < |t|
        ensures IsWhitespace(t[k])
      {
        assert t[k] == ws2[k - |body|];
      }
      assert t[|body| - 1] == body[|body| - 1];
      SkipBackwardStopsAt(t, |t|, |body|);
      assert TrimEnd(t) == body;
    }
  }

  /** A completion with blanks around a word trims to the word. */
  lemma TrimHello()
    ensures Trim("  Hello  ") == "Hello"
  {
    assert "  Hello  " == "  " + "Hello" + "  ";
    assert Trimmed("Hello");
    TrimOfPadded("  ", "Hello", "  ");
  }
}
