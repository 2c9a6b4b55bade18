/** Python's `str.strip()` with no arguments, as applied to each sampled problem. */
module Text {

  /** The characters Python's `str.isspace()` accepts; `str.strip()` removes exactly these. */
  predicate IsSpace(c: char)
  {
    || ('\t' <= c <= '\r')
    || ('\U{1C}' <= c <= '\U{1F}')
    || c == ' '
    || c == '\U{85}'
    || c == '\U{A0}'
    || c == '\U{1680}'
    || ('\U{2000}' <= c <= '\U{200A}')
    || c == '\U{2028}'
    || c == '\U{2029}'
    || c == '\U{202F}'
    || c == '\U{205F}'
    || c == '\U{3000}'
  }

  /** Drops leading whitespace: the result is the longest suffix that does not start with whitespace. */
  function TrimLeft(s: string): (r: string)
    ensures |r| <= |s| && r == s[|s| - |r|..]
    ensures forall i :: 0 <= i < |s| - |r| ==> IsSpace(s[i])
    ensures r == [] || !IsSpace(r[0])
    decreases |s|
  {
    if s != [] && IsSpace(s[0]) then TrimLeft(s[1..]) else s
  }

  /** Drops trailing whitespace: the result is the longest prefix that does not end with whitespace. */
  function TrimRight(s: string): (r: string)
    ensures |r| <= |s| && r == s[..|r|]
    ensures forall i :: |r| <= i < |s| ==> IsSpace(s[i])
    ensures r == [] || !IsSpace(r[|r| - 1])
    decreases |s|
  {
    if s != [] && IsSpace(s[|s| - 1]) then TrimRight(s[..|s| - 1]) else s
  }

  /** Leading whitespace is all of `s` exactly when every character of `s` is whitespace. */
  lemma {:induction false} TrimLeftEmpty(s: string)
    ensures TrimLeft(s) == [] <==> forall i :: 0 <= i < |s| ==> IsSpace(s[i])
  {
    var l := TrimLeft(s);
    if l != [] {
      assert s[|s| - |l|] == l[0];
    }
  }

  /** Trailing whitespace cannot reach a first character that is not whitespace. */
  lemma {:induction false} TrimRightKeepsFirst(s: string)
    ensures s != [] && !IsSpace(s[0]) ==> TrimRight(s) != [] && TrimRight(s)[0] == s[0]
  {
  }

  /** `s.strip()`: empty exactly when `s` is all whitespace, otherwise bounded by non-whitespace. */
  function Strip(s: string): (r: string)
    ensures r == [] <==> forall i :: 0 <= i < |s| ==> IsSpace(s[i])
    ensures r != [] ==> !IsSpace(r[0]) && !IsSpace(r[|r| - 1])
    ensures |r| <= |s|
  {
    TrimLeftEmpty(s);
    TrimRightKeepsFirst(TrimLeft(s));
    TrimRight(TrimLeft(s))
  }

  /** `s.strip()` is the slice of `s` left between its leading and its trailing whitespace. */
  lemma {:induction false} StripSlice(s: string)
    ensures var r, a := Strip(s), |s| - |TrimLeft(s)|;
      && a + |r| <= |s| && r <= s[a..]
      && (forall i :: 0 <= i < a ==> IsSpace(s[i]))
      && (forall i :: a + |r| <= i < |s| ==> IsSpace(s[i]))
  {
    var l := TrimLeft(s);
    InnerSlice(s, l, TrimRight(l), |s| - |l|, IsSpace);
  }

  /**
   * When `l` is `s` without its first `a` elements and `r` is a prefix of `l` with `p` holding on the rest
   * of `l`, `r` is the slice of `s` from `a` on, and `p` holds on everything in `s` after it.
   */
  lemma {:induction false} InnerSlice<T>(s: seq<T>, l: seq<T>, r: seq<T>, a: nat, p: T -> bool)
    requires a <= |s| && l == s[a..] && |r| <= |l| && r == l[..|r|]
    requires forall i :: |r| <= i < |l| ==> p(l[i])
    ensures a + |r| <= |s| && r <= s[a..]
    ensures forall i :: a + |r| <= i < |s| ==> p(s[i])
  {
    forall i | a + |r| <= i < |s| ensures p(s[i]) {
      assert s[i] == l[i - a];
    }
  }

  /** Stripping twice removes nothing more than stripping once. */
  lemma {:induction false} StripIdempotent(s: string)
    ensures Strip(Strip(s)) == Strip(s)
  {
    var r := Strip(s);
    if r != [] {
      assert TrimLeft(r) == r;
      assert TrimRight(r) == r;
    }
  }
}
