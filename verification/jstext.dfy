/** The JavaScript notion of white space shared by the regular-expression
    class `\s` and `String.prototype.trim`, and `trim` itself. */
module JsText {

  /** True of the characters JavaScript counts as WhiteSpace or
      LineTerminator: TAB, LF, VT, FF, CR, SPACE, NBSP, OGHAM SPACE MARK,
      U+2000..U+200A, LS, PS, NNBSP, MMSP, IDEOGRAPHIC SPACE and BOM. */
  predicate IsWs(c: char)
  {
    var n := c as int;
    n == 0x09 || n == 0x0A || n == 0x0B || n == 0x0C || n == 0x0D || n == 0x20
    || n == 0xA0 || n == 0x1680 || (0x2000 <= n <= 0x200A)
    || n == 0x2028 || n == 0x2029 || n == 0x202F || n == 0x205F
    || n == 0x3000 || n == 0xFEFF
  }

  /** Every character of `s` is white space (`\s*` matches all of `s`). */
  predicate AllWs(s: string)
  {
    forall i :: 0 <= i < |s| ==> IsWs(s[i])
  }

  /** `s` neither begins nor ends with white space. */
  predicate Trimmed(s: string)
  {
    |s| == 0 || (!IsWs(s[0]) && !IsWs(s[|s| - 1]))
  }

  /** Removes the leading white space of `s`: the result is the suffix of
      `s` left after the longest all-white-space prefix. */
  function TrimStart(s: string): (r: string)
    ensures |r| <= |s| && r == s[|s| - |r|..]
    ensures AllWs(s[..|s| - |r|])
    ensures |r| == 0 || !IsWs(r[0])
  {
    if |s| > 0 && IsWs(s[0]) then TrimStart(s[1..]) else s
  }

  /** Removes the trailing white space of `s`: the result is the prefix of
      `s` left before the longest all-white-space suffix. */
  function TrimEnd(s: string): (r: string)
    ensures |r| <= |s| && r == s[..|r|]
    ensures AllWs(s[|r|..])
    ensures |r| == 0 || !IsWs(r[|r| - 1])
  {
    if |s| > 0 && IsWs(s[|s| - 1]) then TrimEnd(s[..|s| - 1]) else s
  }

  /** `String.prototype.trim`: a contiguous piece of `s`, surrounded in `s`
      only by white space, and itself trimmed. */
  function Trim(s: string): (r: string)
    ensures Trimmed(r)
    ensures exists a :: TrimsTo(s, a, r)
  {
    var t := TrimStart(s);
    var r := TrimEnd(t);
    var a := |s| - |t|;
    assert t == s[a..];
    assert r == s[a..a + |r|];
    assert s[a + |r|..] == t[|r|..];
    assert TrimsTo(s, a, r);
    r
  }

  /** `r` sits at offset `a` of `s` with only white space around it. */
  predicate TrimsTo(s: string, a: int, r: string)
  {
    0 <= a <= |s| - |r| && r == s[a..a + |r|] && AllWs(s[..a]) && AllWs(s[a + |r|..])
  }

  /** Trimming leaves a string that has no surrounding white space as it is. */
  lemma {:induction false} TrimIdentity(s: string)
    requires Trimmed(s)
    ensures Trim(s) == s
  {
  }

  /** Trimming ignores white space added on either side. */
  lemma {:induction false} TrimPadding(w1: string, s: string, w2: string)
    requires AllWs(w1) && AllWs(w2)
    ensures Trim(w1 + s + w2) == Trim(s)
  {
    assert w1 + s + w2 == w1 + (s + w2);
    TrimStartPadding(w1, s + w2);
    assert TrimStart(w1 + s + w2) == TrimStart(s + w2);
    TrimIgnoresTrailingSpace(s, w2);
  }

  lemma {:induction false} TrimStartPadding(w: string, s: string)
    requires AllWs(w)
    ensures TrimStart(w + s) == TrimStart(s)
  {
    if |w| > 0 {
      assert (w + s)[1..] == w[1..] + s;
      TrimStartPadding(w[1..], s);
    } else {
      assert w + s == s;
    }
  }

  /** Trimming both ends ignores white space appended to the string. */
  lemma {:induction false} TrimIgnoresTrailingSpace(s: string, w: string)
    requires AllWs(w)
    ensures TrimEnd(TrimStart(s + w)) == TrimEnd(TrimStart(s))
  {
    if |s| > 0 && IsWs(s[0]) {
      assert (s + w)[1..] == s[1..] + w;
      TrimIgnoresTrailingSpace(s[1..], w);
    } else if |s| > 0 {
      assert TrimStart(s + w) == s + w;
      TrimEndPadding(s, w);
    } else {
      assert s + w == w;
      TrimStartPadding(w, []);
      assert w + [] == w;
    }
  }

  lemma {:induction false} TrimEndPadding(s: string, w: string)
    requires AllWs(w)
    ensures TrimEnd(s + w) == TrimEnd(s)
  {
    if |w| > 0 {
      assert (s + w)[..|s + w| - 1] == s + w[..|w| - 1];
      TrimEndPadding(s, w[..|w| - 1]);
    } else {
      assert s + w == s;
    }
  }
}
