/** The textarea value check of the start action: JavaScript's
    `String.prototype.trim` and the blank test applied to its result. */
module TextInput {

  /** The characters `trim` removes: ECMAScript's WhiteSpace (tab, vertical tab,
      form feed, space, no-break space, byte-order mark and the Unicode space
      separators) and LineTerminator (line feed, carriage return, line and
      paragraph separators). */
  predicate IsWhitespace(c: char) {
    c == '\t' || c == '\n' || c == '\U{B}' || c == '\U{C}' || c == '\r' || c == ' '
    || c == '\U{A0}' || c == '\U{1680}' || ('\U{2000}' <= c <= '\U{200A}')
    || c == '\U{2028}' || c == '\U{2029}' || c == '\U{202F}' || c == '\U{205F}'
    || c == '\U{3000}' || c == '\U{FEFF}'
  }

  /** Every character of `s` at a position in [lo, hi) is whitespace. */
  ghost predicate WhitespaceBetween(s: string, lo: int, hi: int) {
    forall k :: lo <= k < hi && 0 <= k < |s| ==> IsWhitespace(s[k])
  }

  ghost predicate AllWhitespace(s: string) {
    WhitespaceBetween(s, 0, |s|)
  }

  /** `r` is the slice of `s` that starts at `i`, with only whitespace on either side of it. */
  ghost predicate SliceAt(s: string, r: string, i: int) {
    0 <= i && i + |r| <= |s| && r == s[i..i + |r|]
    && WhitespaceBetween(s, 0, i) && WhitespaceBetween(s, i + |r|, |s|)
  }

  /** Neither end of `r` is whitespace (vacuous for the empty string). */
  ghost predicate TightEnds(r: string) {
    r != [] ==> !IsWhitespace(r[0]) && !IsWhitespace(r[|r| - 1])
  }

  /** `trimStart`: drops the leading whitespace. */
  function TrimStart(s: string): string
    decreases |s|
  {
    if s != [] && IsWhitespace(s[0]) then TrimStart(s[1..]) else s
  }

  /** `trimEnd`: drops the trailing whitespace. */
  function TrimEnd(s: string): string
    decreases |s|
  {
    if s != [] && IsWhitespace(s[|s| - 1]) then TrimEnd(s[..|s| - 1]) else s
  }

  /** `TrimStart` keeps the suffix that follows the leading whitespace, and that
      suffix does not start with whitespace. */
  lemma {:induction false} TrimStartSpec(s: string)
    ensures var r := TrimStart(s);
      |r| <= |s| && r == s[|s| - |r|..]
      && WhitespaceBetween(s, 0, |s| - |r|)
      && (r != [] ==> !IsWhitespace(r[0]))
    decreases |s|
  {
    if s != [] && IsWhitespace(s[0]) {
      TrimStartSpec(s[1..]);
    }
  }

  /** `TrimEnd` keeps the prefix before the trailing whitespace, and that prefix
      does not end with whitespace. */
  lemma {:induction false} TrimEndSpec(s: string)
    ensures var r := TrimEnd(s);
      |r| <= |s| && r == s[..|r|]
      && WhitespaceBetween(s, |r|, |s|)
      && (r != [] ==> !IsWhitespace(r[|r| - 1]))
    decreases |s|
  {
    if s != [] && IsWhitespace(s[|s| - 1]) {
      TrimEndSpec(s[..|s| - 1]);
    }
  }

  /** `trim`: the input with whitespace removed from both ends. */
  function Trim(s: string): string {
    TrimEnd(TrimStart(s))
  }

  /** What `trim` promises: the result is a slice of the input with only
      whitespace around it, and it neither starts nor ends with whitespace. */
  lemma TrimSpec(s: string)
    ensures TightEnds(Trim(s))
    ensures exists i :: SliceAt(s, Trim(s), i)
  {
    var front := TrimStart(s);
    var r := TrimEnd(front);
    var i := |s| - |front|;
    TrimStartSpec(s);
    TrimEndSpec(front);
    assert r == s[i..i + |r|];
    assert s[i + |r|..] == front[|r|..];
    assert SliceAt(s, r, i);
  }

  /** The test `!value` on the trimmed value: the empty string is the only falsy string. */
  predicate IsBlank(s: string) {
    Trim(s) == []
  }

  /** An input is blank exactly when every character of it is whitespace, the
      empty input included. */
  lemma BlankIffAllWhitespace(s: string)
    ensures IsBlank(s) <==> AllWhitespace(s)
  {
    var r := Trim(s);
    TrimSpec(s);
    var i :| SliceAt(s, r, i);
    if r != [] {
      assert r[0] == s[i];
    }
  }

  /** Every character outside the slice is whitespace. */
  lemma OutsideSlice(s: string, r: string, i: int, k: int)
    requires SliceAt(s, r, i) && 0 <= k < |s| && (k < i || i + |r| <= k)
    ensures IsWhitespace(s[k])
  {
  }

  /** The first and the last character of a non-empty slice. */
  lemma SliceEnds(s: string, r: string, i: int)
    requires SliceAt(s, r, i) && r != []
    ensures s[i] == r[0] && s[i + |r| - 1] == r[|r| - 1]
  {
  }

  /** The contract of `Trim` determines its result: any slice with whitespace
      around it and no whitespace at its ends is the trimmed input. */
  lemma TrimUnique(s: string, r: string, i: int)
    requires SliceAt(s, r, i) && TightEnds(r)
    ensures r == Trim(s)
  {
    var t := Trim(s);
    TrimSpec(s);
    var j :| SliceAt(s, t, j) && TightEnds(t);
    if r != [] && t == [] {
      SliceEnds(s, r, i);
      OutsideSlice(s, t, j, i);
      assert false;
    } else if r == [] && t != [] {
      SliceEnds(s, t, j);
      OutsideSlice(s, r, i, j);
      assert false;
    } else if r != [] {
      SliceEnds(s, r, i);
      SliceEnds(s, t, j);
      if i != j {
        if i < j { OutsideSlice(s, t, j, i); } else { OutsideSlice(s, r, i, j); }
        assert false;
      }
      if |r| != |t| {
        if |r| < |t| { OutsideSlice(s, r, i, j + |t| - 1); } else { OutsideSlice(s, t, j, i + |r| - 1); }
        assert false;
      }
    }
  }

  /** Trimming twice gives the same value as trimming once. */
  lemma TrimIdempotent(s: string)
    ensures Trim(Trim(s)) == Trim(s)
  {
    var r := Trim(s);
    TrimSpec(s);
    assert SliceAt(r, r, 0) by {
      assert r == r[0..|r|];
    }
    TrimUnique(r, r, 0);
  }
}
