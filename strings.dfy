/** The JavaScript string primitives the service and the view rely on. */
module Strings {

  /**
   * The characters `String.prototype.trim` removes: ECMAScript WhiteSpace
   * (tab, vertical tab, form feed, space, no-break space, the byte order mark
   * and every Zs space separator) and LineTerminator (LF, CR, U+2028, U+2029).
   */
  predicate IsWhitespace(c: char) {
    c == '\t' || c == '\n' || c == '\U{B}' || c == '\U{C}' || c == '\r' || c == ' '
    || c == '\U{A0}' || c == '\U{1680}' || ('\U{2000}' <= c <= '\U{200A}')
    || c == '\U{2028}' || c == '\U{2029}' || c == '\U{202F}' || c == '\U{205F}'
    || c == '\U{3000}' || c == '\U{FEFF}'
  }

  ghost predicate AllWhitespace(s: string) {
    forall i :: 0 <= i < |s| ==> IsWhitespace(s[i])
  }

  /** Neither end of `s` is whitespace. */
  ghost predicate Trimmed(s: string) {
    s == [] || (!IsWhitespace(s[0]) && !IsWhitespace(s[|s| - 1]))
  }

  /** `s` with its leading whitespace removed: a suffix of `s`. */
  function TrimStart(s: string): (r: string)
    ensures |r| <= |s| && r == s[|s| - |r|..]
    ensures AllWhitespace(s[..|s| - |r|])
    ensures r == [] || !IsWhitespace(r[0])
  {
    if s == [] || !IsWhitespace(s[0]) then s else TrimStart(s[1..])
  }

  /** `s` with its trailing whitespace removed: a prefix of `s`. */
  function TrimEnd(s: string): (r: string)
    ensures |r| <= |s| && r == s[..|r|]
    ensures AllWhitespace(s[|r|..])
    ensures r == [] || !IsWhitespace(r[|r| - 1])
  {
    if s == [] || !IsWhitespace(s[|s| - 1]) then s
    else
      var r := TrimEnd(s[..|s| - 1]);
      assert s[|r|..] == s[..|s| - 1][|r|..] + [s[|s| - 1]];
      r
  }

  /** `r` is `s` with a run of whitespace cut from each end, `r` starting at offset `i`. */
  ghost predicate SliceBetweenWhitespace(s: string, r: string, i: int) {
    0 <= i <= |s| - |r| && r == s[i..i + |r|]
    && AllWhitespace(s[..i]) && AllWhitespace(s[i + |r|..])
  }

  /**
   * `s.trim()`: the slice of `s` left after both whitespace runs are cut. It is
   * empty exactly when `s` is all whitespace.
   */
  function Trim(s: string): (r: string)
    ensures Trimmed(r)
    ensures exists i :: SliceBetweenWhitespace(s, r, i)
    ensures r == [] <==> AllWhitespace(s)
  {
    var t := TrimStart(s);
    var r := TrimEnd(t);
    TrimSlice(s, t, r);
    r
  }

  /** The facts `TrimStart` and `TrimEnd` promise, put together. */
  lemma TrimSlice(s: string, t: string, r: string)
    requires |t| <= |s| && t == s[|s| - |t|..] && AllWhitespace(s[..|s| - |t|])
    requires t == [] || !IsWhitespace(t[0])
    requires |r| <= |t| && r == t[..|r|] && AllWhitespace(t[|r|..])
    ensures SliceBetweenWhitespace(s, r, |s| - |t|)
    ensures r == [] <==> AllWhitespace(s)
  {
    var i := |s| - |t|;
    assert r == s[i..i + |r|] && s[i + |r|..] == t[|r|..];
    if r == [] {
      assert s == s[..i] + t[|r|..];
      AllWhitespaceConcat(s[..i], t[|r|..]);
    }
  }

  lemma AllWhitespaceConcat(a: string, b: string)
    requires AllWhitespace(a) && AllWhitespace(b)
    ensures AllWhitespace(a + b)
  {
    forall k | 0 <= k < |a + b| ensures IsWhitespace((a + b)[k]) {
      if k >= |a| { assert (a + b)[k] == b[k - |a|]; }
    }
  }

  /** Trimming a string whose ends are not whitespace leaves it as it is. */
  lemma TrimOfTrimmed(s: string)
    requires Trimmed(s)
    ensures Trim(s) == s
  {
  }

  /** Trimming is idempotent. */
  lemma TrimIdempotent(s: string)
    ensures Trim(Trim(s)) == Trim(s)
  {
    TrimOfTrimmed(Trim(s));
  }

  /**
   * `xs.join(sep)`: no parts give "", one part gives that part, and every part
   * occurs in the result.
   */
  function Join(xs: seq<string>, sep: string): (r: string)
    ensures xs == [] ==> r == ""
    ensures |xs| == 1 ==> r == xs[0]
    ensures forall x :: x in xs ==> Contains(r, x)
  {
    if xs == [] then ""
    else if |xs| == 1 then
      ContainsItself(xs[0]);
      xs[0]
    else
      var rest := Join(xs[1..], sep);
      JoinStep(xs[0], sep, rest, xs[1..]);
      assert xs == [xs[0]] + xs[1..];
      xs[0] + sep + rest
  }

  /** The parts inside `rest` and the new head all occur in `x0 + sep + rest`. */
  lemma JoinStep(x0: string, sep: string, rest: string, tail: seq<string>)
    requires forall x :: x in tail ==> Contains(rest, x)
    ensures forall x :: x in [x0] + tail ==> Contains(x0 + sep + rest, x)
  {
    forall x | x in [x0] + tail ensures Contains(x0 + sep + rest, x) {
      if x == x0 {
        assert (x0 + sep + rest)[..|x0|] == x0;
        assert OccursAt(x0 + sep + rest, x, 0);
      } else {
        assert x in tail;
        var i :| OccursAt(rest, x, i);
        var pre := x0 + sep;
        assert x0 + sep + rest == pre + rest;
        var whole := pre + rest;
        assert whole[|pre|..] == rest;
        assert whole[|pre| + i..|pre| + i + |x|] == whole[|pre|..][i..i + |x|];
        assert OccursAt(x0 + sep + rest, x, |pre| + i);
      }
    }
  }

  lemma ContainsItself(s: string)
    ensures Contains(s, s)
  {
    assert OccursAt(s, s, 0);
  }

  /** A join of non-empty parts is empty exactly when there are no parts. */
  lemma {:induction false} JoinEmptyIff(xs: seq<string>, sep: string)
    requires forall i :: 0 <= i < |xs| ==> xs[i] != ""
    ensures Join(xs, sep) == "" <==> xs == []
  {
    if |xs| > 1 {
      assert |Join(xs, sep)| >= |xs[0]|;
    }
  }

  /** `t` occurs in `s` as a contiguous substring (`s.includes(t)`). */
  ghost predicate Contains(s: string, t: string) {
    exists i :: OccursAt(s, t, i)
  }

  ghost predicate OccursAt(s: string, t: string, i: int) {
    0 <= i <= |s| - |t| && s[i..i + |t|] == t
  }

  lemma ContainsSplice(a: string, t: string, b: string)
    ensures Contains(a + (t + b), t)
  {
    assert (a + (t + b))[|a|..|a| + |t|] == t;
    assert OccursAt(a + (t + b), t, |a|);
  }
}
