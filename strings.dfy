/**
 * `String.prototype.trim` and `toLowerCase` as far as the source relies on them:
 * trimming course and habit names and recognising the course name "clad".
 */
module Strings {

  /** The characters ECMAScript's `trim` removes: WhiteSpace and LineTerminator code points. */
  predicate IsJsWhitespace(c: char) {
    c == ' ' || c == '\t' || c == '\n' || c == '\r' || c == '\U{B}' || c == '\U{C}'
    || c == '\U{A0}' || c == '\U{1680}' || ('\U{2000}' <= c <= '\U{200A}')
    || c == '\U{2028}' || c == '\U{2029}' || c == '\U{202F}' || c == '\U{205F}'
    || c == '\U{3000}' || c == '\U{FEFF}'
  }

  /** Every character is whitespace (true of ""). */
  predicate Blank(s: string) {
    forall k :: 0 <= k < |s| ==> IsJsWhitespace(s[k])
  }

  /** Drops leading whitespace: the result is the longest suffix that does not start with whitespace. */
  function TrimStart(s: string): (r: string)
    ensures |r| <= |s| && r == s[|s| - |r|..]
    ensures r == [] || !IsJsWhitespace(r[0])
    ensures forall k :: 0 <= k < |s| - |r| ==> IsJsWhitespace(s[k])
  {
    if s != [] && IsJsWhitespace(s[0]) then TrimStart(s[1..]) else s
  }

  /** Drops trailing whitespace: the result is the longest prefix that does not end with whitespace. */
  function TrimEnd(s: string): (r: string)
    ensures |r| <= |s| && r == s[..|r|]
    ensures r == [] || !IsJsWhitespace(r[|r| - 1])
    ensures forall k :: |r| <= k < |s| ==> IsJsWhitespace(s[k])
  {
    if s != [] && IsJsWhitespace(s[|s| - 1]) then TrimEnd(s[..|s| - 1]) else s
  }

  /**
   * `s.trim()`: the slice `s[i..j]` left once the whitespace before `i` and from `j` on is
   * dropped, and it neither starts nor ends with whitespace.
   */
  function Trim(s: string): (r: string)
    ensures r == [] || (!IsJsWhitespace(r[0]) && !IsJsWhitespace(r[|r| - 1]))
    ensures exists i, j :: 0 <= i <= j <= |s| && r == s[i..j] && Blank(s[..i]) && Blank(s[j..])
  {
    var t := TrimStart(s);
    var r := TrimEnd(t);
    TrimSlice(s, t, r);
    r
  }

  /** What `Trim` keeps of `s`: the middle, between two blank stretches. */
  lemma TrimSlice(s: string, t: string, r: string)
    requires |t| <= |s| && t == s[|s| - |t|..] && forall k :: 0 <= k < |s| - |t| ==> IsJsWhitespace(s[k])
    requires |r| <= |t| && r == t[..|r|] && forall k :: |r| <= k < |t| ==> IsJsWhitespace(t[k])
    ensures var i := |s| - |t|;
      i + |r| <= |s| && r == s[i..i + |r|] && Blank(s[..i]) && Blank(s[i + |r|..])
  {
    var i := |s| - |t|;
    forall k | 0 <= k < |r| ensures r[k] == s[i + k] {
      assert r[k] == t[k];
    }
    assert r == s[i..i + |r|];
    var p := s[..i];
    forall k | 0 <= k < |p| ensures IsJsWhitespace(p[k]) {
      assert p[k] == s[k];
    }
    var q := s[i + |r|..];
    forall k | 0 <= k < |q| ensures IsJsWhitespace(q[k]) {
      assert q[k] == t[|r| + k];
    }
  }

  /** A string trims to "" exactly when every character of it is whitespace. */
  lemma {:induction false} TrimEmptyIffBlank(s: string)
    ensures Trim(s) == [] <==> forall k :: 0 <= k < |s| ==> IsJsWhitespace(s[k])
  {
    var t := TrimStart(s);
    if Trim(s) == [] {
      assert t == [];
    } else {
      assert t != [] && !IsJsWhitespace(t[0]);
      assert s[|s| - |t|] == t[0];
    }
  }

  /** Trimming is idempotent: a trimmed name is stored as it will be compared. */
  lemma TrimIdempotent(s: string)
    ensures Trim(Trim(s)) == Trim(s)
  {
    var t := Trim(s);
    assert TrimStart(t) == t;
    assert TrimEnd(t) == t;
  }

  /** Nothing to drop at the front. */
  lemma TrimStartStops(s: string)
    requires s != [] && !IsJsWhitespace(s[0])
    ensures TrimStart(s) == s
  {
  }

  /** Nothing to drop at the back. */
  lemma TrimEndStops(s: string)
    requires s != [] && !IsJsWhitespace(s[|s| - 1])
    ensures TrimEnd(s) == s
  {
  }

  /** A leading blank is dropped. */
  lemma TrimStartDropsBlank(s: string)
    requires s != [] && s[0] == ' '
    ensures TrimStart(s) == TrimStart(s[1..])
  {
  }

  /** The leading blanks of "  Clad " go. */
  lemma TrimStartExample()
    ensures TrimStart("  Clad ") == "Clad "
  {
    var s2 := ['C', 'l', 'a', 'd', ' '];
    var s1 := [' '] + s2;
    var s0 := [' '] + s1;
    assert s1[1..] == s2;
    assert s0[1..] == s1;
    TrimStartDropsBlank(s0);
    TrimStartDropsBlank(s1);
    TrimStartStops(s2);
    assert s0 == "  Clad ";
  }

  /** The trailing blank of "Clad " goes. */
  lemma TrimEndExample()
    ensures TrimEnd("Clad ") == "Clad"
  {
    var s := "Clad ";
    var e := s[..4];
    assert s[4] == ' ' && TrimEnd(s) == TrimEnd(e);
    assert e == "Clad";
    TrimEndStops(e);
  }

  /** Leading and trailing blanks go. */
  lemma TrimExample()
    ensures Trim("  Clad ") == "Clad"
  {
    TrimStartExample();
    TrimEndExample();
  }

  /** `toLowerCase` on the Basic Latin letters; every other character is kept. */
  function LowerAscii(c: char): (r: char)
    ensures 'A' <= c <= 'Z' ==> 'a' <= r <= 'z'
    ensures !('A' <= c <= 'Z') ==> r == c
  {
    if 'A' <= c <= 'Z' then (c as int + 32) as char else c
  }

  function LowerAsciiAll(s: string): (r: string)
    ensures |r| == |s|
    ensures forall k :: 0 <= k < |s| ==> r[k] == LowerAscii(s[k])
  {
    if s == [] then [] else [LowerAscii(s[0])] + LowerAsciiAll(s[1..])
  }
}
