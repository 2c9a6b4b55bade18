/** The positions a list comprehension `[... for x in s if p(x)]` keeps, in order. */
module Filter {

  /** The indices of the elements of `s` that satisfy `p`, in increasing order, none left out. */
  function Where<T>(s: seq<T>, p: T -> bool): (ix: seq<nat>)
    ensures forall k :: 0 <= k < |ix| ==> ix[k] < |s| && p(s[ix[k]])
    ensures forall k, l :: 0 <= k < l < |ix| ==> ix[k] < ix[l]
    ensures forall i :: 0 <= i < |s| && p(s[i]) ==> i in ix
    decreases |s|
  {
    if s == [] then []
    else
      var n := |s| - 1;
      Where(s[..n], p) + (if p(s[n]) then [n] else [])
  }

  /** The positions of the elements of `s` that satisfy `p`. */
  function Positions<T>(s: seq<T>, p: T -> bool): set<nat>
  {
    set i | 0 <= i < |s| && p(s[i])
  }

  /** The number of elements of `s` that satisfy `p`. */
  function Count<T>(s: seq<T>, p: T -> bool): nat
  {
    |Positions(s, p)|
  }

  /** The positions of `s` that satisfy `p` are those of all of `s` but its last element, plus possibly the last. */
  lemma {:induction false} PositionsSnoc<T>(s: seq<T>, p: T -> bool)
    requires s != []
    ensures Positions(s, p) == Positions(s[..|s| - 1], p) + (if p(s[|s| - 1]) then {|s| - 1} else {})
  {
    var n := |s| - 1;
    var s' := s[..n];
    var small, big := Positions(s', p), Positions(s, p);
    var rest := if p(s[n]) then {n} else {};
    forall i | i in big ensures i in small + rest {
      if i < n { assert s'[i] == s[i]; }
    }
    forall i | i in small + rest ensures i in big {
      if i < n { assert s'[i] == s[i]; }
    }
  }

  /** Counting over `s` is counting over all of `s` but its last element, plus that element. */
  lemma {:induction false} CountSnoc<T>(s: seq<T>, p: T -> bool)
    requires s != []
    ensures Count(s, p) == Count(s[..|s| - 1], p) + (if p(s[|s| - 1]) then 1 else 0)
  {
    var n := |s| - 1;
    PositionsSnoc(s, p);
    assert Positions(s[..n], p) !! (if p(s[n]) then {n} else {});
  }

  /** The number of kept positions is the number of elements that satisfy `p`. */
  lemma {:induction false} WhereCount<T>(s: seq<T>, p: T -> bool)
    ensures |Where(s, p)| == Count(s, p)
    decreases |s|
  {
    if s != [] {
      WhereCount(s[..|s| - 1], p);
      CountSnoc(s, p);
    }
  }

  /** When every element satisfies `p`, every position is kept. */
  lemma {:induction false} WhereAll<T>(s: seq<T>, p: T -> bool)
    requires forall i :: 0 <= i < |s| ==> p(s[i])
    ensures |Where(s, p)| == |s|
    decreases |s|
  {
    if s != [] {
      WhereAll(s[..|s| - 1], p);
    }
  }
}
