/**
 `Array.prototype.filter` followed by `map`, with the position every kept
 element takes in the result.
 */
module Sequences {

  /** `xs.filter(keep).length`. */
  function Count<T>(xs: seq<T>, keep: T -> bool): (n: nat)
    ensures n <= |xs|
  {
    if |xs| == 0 then 0
    else Count(xs[..|xs| - 1], keep) + (if keep(xs[|xs| - 1]) then 1 else 0)
  }

  /** `xs.filter(keep).map(f)`, built from the back. */
  function Select<T, U>(xs: seq<T>, keep: T -> bool, f: T -> U): (r: seq<U>)
    ensures |r| == Count(xs, keep)
  {
    if |xs| == 0 then []
    else Select(xs[..|xs| - 1], keep, f) + (if keep(xs[|xs| - 1]) then [f(xs[|xs| - 1])] else [])
  }

  /** Every kept element `xs[i]` contributes `f(xs[i])`, at the position given by the number of kept elements before it. */
  lemma {:induction false} SelectPlaces<T, U>(xs: seq<T>, keep: T -> bool, f: T -> U, i: int)
    requires 0 <= i < |xs| && keep(xs[i])
    ensures Count(xs[..i], keep) < |Select(xs, keep, f)|
    ensures Select(xs, keep, f)[Count(xs[..i], keep)] == f(xs[i])
  {
    var init := xs[..|xs| - 1];
    if i < |xs| - 1 {
      SelectPlaces(init, keep, f, i);
      assert init[..i] == xs[..i];
    } else {
      assert xs[..i] == init;
    }
  }

  /** Every element of the result comes from a kept element, at the position `SelectPlaces` gives it. */
  lemma {:induction false} SelectOnlyKept<T, U>(xs: seq<T>, keep: T -> bool, f: T -> U, k: int)
    requires 0 <= k < |Select(xs, keep, f)|
    ensures exists i :: 0 <= i < |xs| && keep(xs[i]) && Count(xs[..i], keep) == k && Select(xs, keep, f)[k] == f(xs[i])
  {
    var init := xs[..|xs| - 1];
    var front := Select(init, keep, f);
    if k < |front| {
      SelectOnlyKept(init, keep, f, k);
      var i :| 0 <= i < |init| && keep(init[i]) && Count(init[..i], keep) == k && front[k] == f(init[i]);
      assert init[..i] == xs[..i];
      assert xs[i] == init[i];
    } else {
      var i := |xs| - 1;
      assert xs[..i] == init;
      assert keep(xs[i]) && Count(xs[..i], keep) == k;
    }
  }

  /** No element is kept by both `p` and `q`, so the two filters together are no longer than `xs`. */
  lemma {:induction false} DisjointCounts<T>(xs: seq<T>, p: T -> bool, q: T -> bool)
    requires forall i :: 0 <= i < |xs| ==> !(p(xs[i]) && q(xs[i]))
    ensures Count(xs, p) + Count(xs, q) <= |xs|
  {
    if |xs| > 0 {
      DisjointCounts(xs[..|xs| - 1], p, q);
    }
  }

  /** When every element is kept, the filter keeps them all. */
  lemma {:induction false} CountAll<T>(xs: seq<T>, keep: T -> bool)
    requires forall i :: 0 <= i < |xs| ==> keep(xs[i])
    ensures Count(xs, keep) == |xs|
  {
    if |xs| > 0 {
      CountAll(xs[..|xs| - 1], keep);
    }
  }

  /** When no element is kept, the filter is empty. */
  lemma {:induction false} CountNone<T>(xs: seq<T>, keep: T -> bool)
    requires forall i :: 0 <= i < |xs| ==> !keep(xs[i])
    ensures Count(xs, keep) == 0
  {
    if |xs| > 0 {
      CountNone(xs[..|xs| - 1], keep);
    }
  }

  /** Filtering distributes over concatenation. */
  lemma {:induction false} CountConcat<T>(xs: seq<T>, ys: seq<T>, keep: T -> bool)
    ensures Count(xs + ys, keep) == Count(xs, keep) + Count(ys, keep)
  {
    if |ys| == 0 {
      assert xs + ys == xs;
    } else {
      var zs := xs + ys;
      assert zs[..|zs| - 1] == xs + ys[..|ys| - 1];
      CountConcat(xs, ys[..|ys| - 1], keep);
    }
  }

  /** When `p` holds of every image of a kept element, `p` keeps all of `Select(xs, keep, f)`. */
  lemma {:induction false} CountSelected<T, U>(xs: seq<T>, keep: T -> bool, f: T -> U, p: U -> bool)
    requires forall i :: 0 <= i < |xs| && keep(xs[i]) ==> p(f(xs[i]))
    ensures Count(Select(xs, keep, f), p) == Count(xs, keep)
  {
    if |xs| > 0 {
      var init := xs[..|xs| - 1];
      var last := xs[|xs| - 1];
      assert forall i :: 0 <= i < |init| ==> init[i] == xs[i];
      CountSelected(init, keep, f, p);
      var tail := if keep(last) then [f(last)] else [];
      CountConcat(Select(init, keep, f), tail, p);
      if keep(last) {
        assert tail[..0] == [];
      }
    }
  }

  /** When `p` holds of no image of a kept element, `p` keeps nothing of `Select(xs, keep, f)`. */
  lemma {:induction false} CountSelectedNone<T, U>(xs: seq<T>, keep: T -> bool, f: T -> U, p: U -> bool)
    requires forall i :: 0 <= i < |xs| && keep(xs[i]) ==> !p(f(xs[i]))
    ensures Count(Select(xs, keep, f), p) == 0
  {
    if |xs| > 0 {
      var init := xs[..|xs| - 1];
      var last := xs[|xs| - 1];
      assert forall i :: 0 <= i < |init| ==> init[i] == xs[i];
      CountSelectedNone(init, keep, f, p);
      var tail := if keep(last) then [f(last)] else [];
      CountConcat(Select(init, keep, f), tail, p);
      if keep(last) {
        assert tail[..0] == [];
      }
    }
  }

}
