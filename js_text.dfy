/**
  The part of JavaScript's string semantics the scan matcher relies on:
  String.prototype.trim, which strips WhiteSpace and LineTerminator code
  points (ECMAScript, section 22.1.3.32 "String.prototype.trim") from both
  ends of a string.
 */
module JsText {

  /** WhiteSpace (TAB, VT, FF, ZWNBSP and every space separator) or LineTerminator (LF, CR, LS, PS). */
  predicate IsWhiteSpace(c: char)
  {
    c == '\t' || c == '\U{000B}' || c == '\U{000C}' || c == ' ' || c == '\U{00A0}' || c == '\U{FEFF}'
    || c == '\U{1680}' || ('\U{2000}' <= c <= '\U{200A}') || c == '\U{202F}' || c == '\U{205F}'
    || c == '\U{3000}'
    || c == '\n' || c == '\r' || c == '\U{2028}' || c == '\U{2029}'
  }

  /** `s` consists of white space only. */
  ghost predicate AllWhiteSpace(s: string)
  {
    forall k :: 0 <= k < |s| ==> IsWhiteSpace(s[k])
  }

  /** Neither end of `s` is white space. */
  predicate Unpadded(s: string)
  {
    s == [] || (!IsWhiteSpace(s[0]) && !IsWhiteSpace(s[|s| - 1]))
  }

  /** `r` is `s` from index `i` on, and everything before `i` is white space. */
  ghost predicate StrippedStart(s: string, r: string)
  {
    |r| <= |s| && r == s[|s| - |r|..] && AllWhiteSpace(s[..|s| - |r|])
  }

  /** `r` is `s` up to index |r|, and everything after it is white space. */
  ghost predicate StrippedEnd(s: string, r: string)
  {
    |r| <= |s| && r == s[..|r|] && AllWhiteSpace(s[|r|..])
  }

  /** Removes the leading white space. */
  function TrimStart(s: string): (r: string)
    ensures StrippedStart(s, r)
    ensures r == [] || !IsWhiteSpace(r[0])
  {
    if s != [] && IsWhiteSpace(s[0]) then TrimStart(s[1..]) else s
  }

  /** Removes the trailing white space. */
  function TrimEnd(s: string): (r: string)
    ensures StrippedEnd(s, r)
    ensures r == [] || !IsWhiteSpace(r[|r| - 1])
  {
    if s != [] && IsWhiteSpace(s[|s| - 1]) then TrimEnd(s[..|s| - 1]) else s
  }

  /** String.prototype.trim: the infix of `s` left after stripping white space at both ends. */
  function Trim(s: string): (r: string)
    ensures Unpadded(r)
    ensures exists w :: StrippedStart(s, w) && StrippedEnd(w, r)
  {
    var w := TrimStart(s);
    var r := TrimEnd(w);
    assert r != [] ==> r[0] == w[0];
    r
  }

  lemma {:induction false} TrimStartAllWhiteSpace(s: string)
    ensures TrimStart(s) == [] <==> AllWhiteSpace(s)
  {
    if s != [] && IsWhiteSpace(s[0]) {
      TrimStartAllWhiteSpace(s[1..]);
      if AllWhiteSpace(s[1..]) {
        forall k | 0 <= k < |s| ensures IsWhiteSpace(s[k]) {
          if k > 0 { assert s[k] == s[1..][k - 1]; }
        }
      } else {
        var k :| 0 <= k < |s[1..]| && !IsWhiteSpace(s[1..][k]);
        assert s[k + 1] == s[1..][k];
      }
    }
  }

  /** A payload trims to the empty string exactly when it is all white space. */
  lemma TrimEmptyIff(s: string)
    ensures Trim(s) == [] <==> AllWhiteSpace(s)
  {
    TrimStartAllWhiteSpace(s);
    var w := TrimStart(s);
    assert w == [] || !IsWhiteSpace(w[0]);
  }

  /** A string without white space at its ends trims to itself. */
  lemma TrimUnpadded(t: string)
    requires Unpadded(t)
    ensures Trim(t) == t
  {
  }

  lemma {:induction false} TrimStartPadded(w: string, t: string)
    requires AllWhiteSpace(w)
    requires t == [] || !IsWhiteSpace(t[0])
    ensures TrimStart(w + t) == t
    decreases |w|
  {
    if w != [] {
      assert (w + t)[1..] == w[1..] + t;
      TrimStartPadded(w[1..], t);
    }
  }

  lemma {:induction false} TrimEndPadded(t: string, w: string)
    requires AllWhiteSpace(w)
    requires t == [] || !IsWhiteSpace(t[|t| - 1])
    ensures TrimEnd(t + w) == t
    decreases |w|
  {
    if w != [] {
      assert (t + w)[..|t + w| - 1] == t + w[..|w| - 1];
      TrimEndPadded(t, w[..|w| - 1]);
    }
  }

  /** White space around a non-empty unpadded string is exactly what trim removes. */
  lemma TrimPadded(w1: string, t: string, w2: string)
    requires AllWhiteSpace(w1) && AllWhiteSpace(w2)
    requires t != [] && Unpadded(t)
    ensures Trim(w1 + t + w2) == t
  {
    assert w1 + t + w2 == w1 + (t + w2);
    TrimStartPadded(w1, t + w2);
    TrimEndPadded(t, w2);
  }

  /** Trimming twice is trimming once. */
  lemma TrimIdempotent(s: string)
    ensures Trim(Trim(s)) == Trim(s)
  {
    TrimUnpadded(Trim(s));
  }
}
