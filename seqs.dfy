/** Order-preserving row filters (pandas boolean indexing) and their properties. */
module Seqs {

  /** Keeps the elements satisfying `keep`, in their original order. */
  function Filter<T>(s: seq<T>, keep: T -> bool): (r: seq<T>)
    ensures |r| <= |s|
    ensures forall x :: x in r ==> x in s && keep(x)
    ensures forall x :: x in s && keep(x) ==> x in r
  {
    if s == [] then []
    else Filter(s[..|s| - 1], keep) + (if keep(s[|s| - 1]) then [s[|s| - 1]] else [])
  }

  ghost predicate StrictlyIncreasing(idx: seq<nat>) {
    forall k, l :: 0 <= k < l < |idx| ==> idx[k] < idx[l]
  }

  /** The positions of `s` whose element satisfies `keep`, in increasing order. */
  function Positions<T>(s: seq<T>, keep: T -> bool): seq<nat> {
    if s == [] then []
    else Positions(s[..|s| - 1], keep) + (if keep(s[|s| - 1]) then [|s| - 1] else [])
  }

  /**
   * `Filter` is an order-preserving selection: its k-th element is the element
   * of `s` at the k-th kept position, and the kept positions increase.
   */
  lemma {:induction false} FilterIsSelection<T>(s: seq<T>, keep: T -> bool)
    ensures |Positions(s, keep)| == |Filter(s, keep)|
    ensures StrictlyIncreasing(Positions(s, keep))
    ensures forall k :: 0 <= k < |Positions(s, keep)| ==>
      Positions(s, keep)[k] < |s| && Filter(s, keep)[k] == s[Positions(s, keep)[k]]
  {
    if s != [] {
      var n := |s| - 1;
      FilterIsSelection(s[..n], keep);
      var pre, fpre := Positions(s[..n], keep), Filter(s[..n], keep);
      var idx, f := Positions(s, keep), Filter(s, keep);
      assert idx == pre + (if keep(s[n]) then [n] else []);
      assert f == fpre + (if keep(s[n]) then [s[n]] else []);
      forall k | 0 <= k < |idx|
        ensures f[k] == s[idx[k]]
      {
        if k < |pre| {
          assert f[k] == fpre[k] == s[..n][pre[k]];
        }
      }
    }
  }

  /** A position is kept exactly when its element satisfies `keep`. */
  lemma {:induction false} PositionsExact<T>(s: seq<T>, keep: T -> bool)
    ensures forall k :: 0 <= k < |Positions(s, keep)| ==> Positions(s, keep)[k] < |s|
    ensures forall i :: 0 <= i < |s| ==> (keep(s[i]) <==> i in Positions(s, keep))
  {
    if s != [] {
      var n := |s| - 1;
      PositionsExact(s[..n], keep);
      var pre := Positions(s[..n], keep);
      var idx := Positions(s, keep);
      assert idx == pre + (if keep(s[n]) then [n] else []);
      forall i | 0 <= i < |s|
        ensures keep(s[i]) <==> i in idx
      {
        if i < n {
          assert s[..n][i] == s[i];
          assert n !in pre;
        }
      }
    }
  }

  lemma {:induction false} FilterAppend<T>(a: seq<T>, b: seq<T>, keep: T -> bool)
    ensures Filter(a + b, keep) == Filter(a, keep) + Filter(b, keep)
  {
    if b == [] {
      assert a + b == a;
    } else {
      var n := |b| - 1;
      var last := if keep(b[n]) then [b[n]] else [];
      assert (a + b)[..|a + b| - 1] == a + b[..n];
      assert (a + b)[|a + b| - 1] == b[n];
      FilterAppend(a, b[..n], keep);
      calc {
        Filter(a + b, keep);
        Filter(a + b[..n], keep) + last;
        (Filter(a, keep) + Filter(b[..n], keep)) + last;
        Filter(a, keep) + (Filter(b[..n], keep) + last);
      }
    }
  }

  /** Applies `f` to every element. */
  function Map<T, U>(s: seq<T>, f: T -> U): (r: seq<U>)
    ensures |r| == |s|
    ensures forall i :: 0 <= i < |s| ==> r[i] == f(s[i])
  {
    if s == [] then [] else Map(s[..|s| - 1], f) + [f(s[|s| - 1])]
  }

  /** Filtering mapped elements is mapping the elements whose image passes. */
  lemma {:induction false} FilterMap<T, U>(s: seq<T>, f: T -> U, keep: U -> bool, pre: T -> bool)
    requires forall x :: pre(x) == keep(f(x))
    ensures Filter(Map(s, f), keep) == Map(Filter(s, pre), f)
  {
    if s != [] {
      var n := |s| - 1;
      assert Map(s, f)[..n] == Map(s[..n], f);
      FilterMap(s[..n], f, keep, pre);
      var m := Map(Filter(s[..n], pre), f);
      if pre(s[n]) {
        var g := Filter(s[..n], pre) + [s[n]];
        assert g[..|g| - 1] == Filter(s[..n], pre);
      }
    }
  }

  /** Filtering twice is filtering once by both conditions. */
  lemma {:induction false} FilterFilter<T>(s: seq<T>, first: T -> bool, second: T -> bool, both: T -> bool)
    requires forall x :: both(x) == (first(x) && second(x))
    ensures Filter(Filter(s, first), second) == Filter(s, both)
  {
    if s != [] {
      var n := |s| - 1;
      FilterFilter(s[..n], first, second, both);
      var f1 := Filter(s[..n], first);
      if first(s[n]) {
        var g := f1 + [s[n]];
        assert Filter(s, first) == g;
        assert g[..|g| - 1] == f1;
        assert Filter(g, second) == Filter(f1, second) + (if second(s[n]) then [s[n]] else []);
      } else {
        assert Filter(s, first) == f1 + [] == f1;
        assert !both(s[n]);
        assert Filter(s, both) == Filter(s[..n], both) + [];
      }
    }
  }
}
