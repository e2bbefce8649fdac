/**
  Sequence helpers that stand for the query-builder calls on a table held as a
  sequence of rows: where (filter), first match, uniqueness of a key, and sums.
 */
module Seqs {
  import opened Wrappers

  /** Index of the first element satisfying p. */
  function FirstWhere<T>(s: seq<T>, p: T -> bool): (r: Option<nat>)
    ensures r.Some? ==> r.value < |s| && p(s[r.value])
    ensures r.Some? ==> forall k :: 0 <= k < r.value ==> !p(s[k])
    ensures r.None? ==> forall k :: 0 <= k < |s| ==> !p(s[k])
    decreases |s|
  {
    if |s| == 0 then None
    else if p(s[0]) then Some(0)
    else match FirstWhere(s[1..], p)
      case None => None
      case Some(k) => Some(k + 1)
  }

  /** The elements satisfying p, in their original order. */
  function Filter<T>(s: seq<T>, p: T -> bool): (r: seq<T>)
    ensures |r| <= |s|
    ensures forall k :: 0 <= k < |r| ==> r[k] in s && p(r[k])
    ensures forall k :: 0 <= k < |s| && p(s[k]) ==> s[k] in r
    decreases |s|
  {
    if |s| == 0 then []
    else if p(s[0]) then [s[0]] + Filter(s[1..], p)
    else Filter(s[1..], p)
  }

  /** Filtering keeps everything exactly when every element satisfies the predicate. */
  lemma {:induction false} FilterAll<T>(s: seq<T>, p: T -> bool)
    requires forall k :: 0 <= k < |s| ==> p(s[k])
    ensures Filter(s, p) == s
    decreases |s|
  {
    if |s| > 0 {
      FilterAll(s[1..], p);
    }
  }

  lemma {:induction false} FilterAppend<T>(s: seq<T>, t: seq<T>, p: T -> bool)
    ensures Filter(s + t, p) == Filter(s, p) + Filter(t, p)
    decreases |s|
  {
    if |s| == 0 {
      assert s + t == t;
    } else {
      assert (s + t)[1..] == s[1..] + t;
      FilterAppend(s[1..], t, p);
    }
  }

  /** Number of elements satisfying p. */
  function Count<T>(s: seq<T>, p: T -> bool): (n: nat)
    ensures n <= |s|
    ensures n == |Filter(s, p)|
    decreases |s|
  {
    if |s| == 0 then 0 else (if p(s[0]) then 1 else 0) + Count(s[1..], p)
  }

  /** Two sequences whose elements satisfy their predicates position by position have equal counts. */
  lemma {:induction false} CountPointwise<A, B>(s: seq<A>, p: A -> bool, t: seq<B>, q: B -> bool)
    requires |s| == |t|
    requires forall k :: 0 <= k < |s| ==> (p(s[k]) <==> q(t[k]))
    ensures Count(s, p) == Count(t, q)
    decreases |s|
  {
    if |s| > 0 {
      CountPointwise(s[1..], p, t[1..], q);
    }
  }

  /**
    Filtering keeps the original order: two kept elements come from two
    positions of s in the same order, returned as a and b.
   */
  lemma {:induction false} FilterOrder<T>(s: seq<T>, p: T -> bool, i: nat, j: nat) returns (a: nat, b: nat)
    requires i < j < |Filter(s, p)|
    ensures a < b < |s| && s[a] == Filter(s, p)[i] && s[b] == Filter(s, p)[j]
    decreases |s|
  {
    var rest := Filter(s[1..], p);
    if p(s[0]) {
      assert Filter(s, p) == [s[0]] + rest;
      if i == 0 {
        var c := FilterIndex(s[1..], p, j - 1);
        a, b := 0, c + 1;
      } else {
        var a', b' := FilterOrder(s[1..], p, i - 1, j - 1);
        a, b := a' + 1, b' + 1;
      }
    } else {
      assert Filter(s, p) == rest;
      var a', b' := FilterOrder(s[1..], p, i, j);
      a, b := a' + 1, b' + 1;
    }
  }

  /** Every kept element sits at some position of s. */
  lemma {:induction false} FilterIndex<T>(s: seq<T>, p: T -> bool, i: nat) returns (a: nat)
    requires i < |Filter(s, p)|
    ensures a < |s| && s[a] == Filter(s, p)[i]
    decreases |s|
  {
    var rest := Filter(s[1..], p);
    if p(s[0]) && i == 0 {
      a := 0;
    } else {
      assert Filter(s, p) == if p(s[0]) then [s[0]] + rest else rest;
      var a' := FilterIndex(s[1..], p, if p(s[0]) then i - 1 else i);
      a := a' + 1;
    }
  }

  function Sum(s: seq<int>): int
    decreases |s|
  {
    if |s| == 0 then 0 else Sum(s[..|s| - 1]) + s[|s| - 1]
  }

  lemma {:induction false} SumAppend(s: seq<int>, t: seq<int>)
    ensures Sum(s + t) == Sum(s) + Sum(t)
    decreases |t|
  {
    if |t| == 0 {
      assert s + t == s;
    } else {
      assert (s + t)[..|s + t| - 1] == s + t[..|t| - 1];
      SumAppend(s, t[..|t| - 1]);
    }
  }

  /** A sum of non-negative numbers is non-negative. */
  lemma {:induction false} SumNonNegative(s: seq<int>)
    requires forall k :: 0 <= k < |s| ==> s[k] >= 0
    ensures Sum(s) >= 0
    decreases |s|
  {
    if |s| > 0 {
      SumNonNegative(s[..|s| - 1]);
    }
  }

  /** ys holds f applied to the first |ys| elements of xs. */
  ghost predicate MapsPrefix<A, B>(f: A -> B, xs: seq<A>, ys: seq<B>) {
    |ys| <= |xs| && forall j :: 0 <= j < |ys| ==> ys[j] == f(xs[j])
  }

  lemma MapsPrefixExtend<A, B>(f: A -> B, xs: seq<A>, ys: seq<B>, y: B)
    requires MapsPrefix(f, xs, ys) && |ys| < |xs| && y == f(xs[|ys|])
    ensures MapsPrefix(f, xs, ys + [y])
  {
    forall j | 0 <= j < |ys| + 1 ensures (ys + [y])[j] == f(xs[j]) {
      if j < |ys| {
        assert (ys + [y])[j] == ys[j];
      }
    }
  }
}
