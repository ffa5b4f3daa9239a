/** `strings.TrimSpace`, which every query parameter of the handlers passes through. */
module Strings {

  /**
   * `unicode.IsSpace`: the ASCII blanks tab, line feed, vertical tab, form feed,
   * carriage return and space, then NEL and no-break space, then the other
   * characters Unicode gives the White_Space property.
   */
  predicate IsSpace(c: char): (b: bool)
    ensures c <= '\U{00FF}' ==>
      (b <==> c == '\t' || c == '\n' || c == '\U{000B}' || c == '\U{000C}' || c == '\r' || c == ' '
              || c == '\U{0085}' || c == '\U{00A0}')
  {
    || c == ' '
    || ('\t' <= c <= '\r')
    || c == '\U{0085}' || c == '\U{00A0}' || c == '\U{1680}'
    || ('\U{2000}' <= c <= '\U{200A}')
    || c == '\U{2028}' || c == '\U{2029}' || c == '\U{202F}' || c == '\U{205F}' || c == '\U{3000}'
  }

  predicate AllSpace(s: string) { forall i :: 0 <= i < |s| ==> IsSpace(s[i]) }

  /** A string that starts with white space is all white space exactly when the rest is. */
  lemma AllSpaceDropFirst(s: string)
    requires s != [] && IsSpace(s[0])
    ensures AllSpace(s) <==> AllSpace(s[1..])
  {
    if AllSpace(s[1..]) {
      forall i | 1 <= i < |s|
        ensures IsSpace(s[i])
      {
        assert s[i] == s[1..][i - 1];
      }
    }
  }

  /** A string that ends with white space is all white space exactly when the rest is. */
  lemma AllSpaceDropLast(s: string)
    requires s != [] && IsSpace(s[|s| - 1])
    ensures AllSpace(s) <==> AllSpace(s[..|s| - 1])
  {
    if AllSpace(s[..|s| - 1]) {
      forall i | 0 <= i < |s| - 1
        ensures IsSpace(s[i])
      {
        assert s[i] == s[..|s| - 1][i];
      }
    }
  }

  /**
   * `strings.TrimSpace`: white space is dropped from both ends. Peeling a
   * leading blank first or a trailing one first makes no difference to the
   * result, so it is defined by peeling one at a time. The result is empty
   * exactly when the input is all white space, and otherwise neither starts nor
   * ends with white space.
   */
  function TrimSpace(s: string): (r: string)
    ensures |r| <= |s|
    ensures r == [] <==> AllSpace(s)
    ensures r == [] || (!IsSpace(r[0]) && !IsSpace(r[|r| - 1]))
  {
    if s != [] && IsSpace(s[0]) then
      AllSpaceDropFirst(s);
      TrimSpace(s[1..])
    else if s != [] && IsSpace(s[|s| - 1]) then
      AllSpaceDropLast(s);
      TrimSpace(s[..|s| - 1])
    else
      s
  }

  /** `r` is `s[i..j]`, and only white space lies outside that piece. */
  predicate CutFrom(r: string, s: string, i: int, j: int)
  {
    0 <= i <= j <= |s| && r == s[i..j] && AllSpace(s[..i]) && AllSpace(s[j..])
  }

  /** Putting a blank back in front of the input moves the piece one place on. */
  lemma CutAfterBlank(r: string, s: string, i: int, j: int)
    requires s != [] && IsSpace(s[0]) && CutFrom(r, s[1..], i, j)
    ensures CutFrom(r, s, i + 1, j + 1)
  {
    assert s[1..][i..j] == s[i + 1..j + 1];
    assert s[1..][j..] == s[j + 1..];
    assert s[..i + 1][1..] == s[1..][..i];
    AllSpaceDropFirst(s[..i + 1]);
  }

  /** Putting a blank back at the end of the input leaves the piece where it was. */
  lemma CutBeforeBlank(r: string, s: string, i: int, j: int)
    requires s != [] && IsSpace(s[|s| - 1]) && CutFrom(r, s[..|s| - 1], i, j)
    ensures CutFrom(r, s, i, j)
  {
    var t := s[..|s| - 1];
    assert t[i..j] == s[i..j] && t[..i] == s[..i];
    assert s[j..][..|s[j..]| - 1] == t[j..];
    AllSpaceDropLast(s[j..]);
  }

  /** What `TrimSpace` keeps is one piece of its input, with only white space cut off either side. */
  lemma {:induction false} TrimSpaceSlice(s: string)
    ensures exists i, j :: CutFrom(TrimSpace(s), s, i, j)
  {
    if s != [] && IsSpace(s[0]) {
      TrimSpaceSlice(s[1..]);
      var i, j :| CutFrom(TrimSpace(s[1..]), s[1..], i, j);
      CutAfterBlank(TrimSpace(s), s, i, j);
    } else if s != [] && IsSpace(s[|s| - 1]) {
      TrimSpaceSlice(s[..|s| - 1]);
      var i, j :| CutFrom(TrimSpace(s[..|s| - 1]), s[..|s| - 1], i, j);
      CutBeforeBlank(TrimSpace(s), s, i, j);
    } else {
      assert CutFrom(TrimSpace(s), s, 0, |s|);
    }
  }

  /** A string that neither starts nor ends with white space is its own trim. */
  lemma TrimSpaceUnchanged(s: string)
    requires s == [] || (!IsSpace(s[0]) && !IsSpace(s[|s| - 1]))
    ensures TrimSpace(s) == s
  {
  }

  /** `s` is `w` with the white space `a` in front and the white space `b` behind. */
  predicate Padded(s: string, w: string, a: string, b: string)
  {
    AllSpace(a) && AllSpace(b) && s == a + w + b
  }

  /** `s` is `w` with some white space around it. */
  ghost predicate PaddedWord(s: string, w: string)
  {
    exists a, b :: Padded(s, w, a, b)
  }

  /** The piece `CutFrom` describes is its input with white space around it. */
  lemma CutIsPadded(r: string, s: string, i: int, j: int)
    requires CutFrom(r, s, i, j)
    ensures Padded(s, r, s[..i], s[j..])
  {
    assert s[..j] == s[..i] + s[i..j];
    assert s == s[..j] + s[j..];
  }

  /**
   * For a `w` that neither starts nor ends with white space, `s` trims to `w`
   * exactly when `s` is `w` with white space around it.
   */
  lemma TrimsTo(s: string, w: string)
    requires w == [] || (!IsSpace(w[0]) && !IsSpace(w[|w| - 1]))
    ensures TrimSpace(s) == w <==> PaddedWord(s, w)
  {
    TrimSpaceUnchanged(w);
    if TrimSpace(s) == w {
      TrimSpaceSlice(s);
      var i, j :| CutFrom(w, s, i, j);
      CutIsPadded(w, s, i, j);
    }
    if PaddedWord(s, w) {
      var a, b :| Padded(s, w, a, b);
      TrimSpacePadding(a, w, b);
    }
  }

  lemma {:induction false} TrimLeadingPadding(a: string, x: string)
    requires AllSpace(a)
    ensures TrimSpace(a + x) == TrimSpace(x)
  {
    if a != [] {
      assert IsSpace(a[0]) && (a + x)[0] == a[0] && (a + x)[1..] == a[1..] + x;
      TrimLeadingPadding(a[1..], x);
    } else {
      assert a + x == x;
    }
  }

  lemma {:induction false} TrimTrailingPadding(x: string, b: string)
    requires AllSpace(b)
    ensures TrimSpace(x + b) == TrimSpace(x)
    decreases |x| + |b|
  {
    var xb := x + b;
    if b == [] {
      assert xb == x;
    } else if x == [] {
      assert xb == b;
    } else if IsSpace(x[0]) {
      assert xb[0] == x[0] && xb[1..] == x[1..] + b;
      TrimTrailingPadding(x[1..], b);
      assert TrimSpace(xb) == TrimSpace(x[1..] + b);
    } else {
      var b' := b[..|b| - 1];
      assert IsSpace(b[|b| - 1]) && AllSpace(b');
      assert xb[0] == x[0] && xb[|xb| - 1] == b[|b| - 1] && xb[..|xb| - 1] == x + b';
      TrimTrailingPadding(x, b');
      assert TrimSpace(xb) == TrimSpace(x + b');
    }
  }

  /** White space added around a string does not change its trim. */
  lemma TrimSpacePadding(a: string, s: string, b: string)
    requires AllSpace(a) && AllSpace(b)
    ensures TrimSpace(a + s + b) == TrimSpace(s)
  {
    assert a + s + b == a + (s + b);
    TrimLeadingPadding(a, s + b);
    TrimTrailingPadding(s, b);
  }
}
