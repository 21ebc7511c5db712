/** Sequence helpers that stand for the JavaScript array methods and the row filters of the
    relational store: `filter`, `find`, `reduce` and `length` of a filtered result. */
module Seqs {
  import opened Wrappers

  /** `xs.filter(p)`: the elements satisfying `p`, in their original order. */
  function Filter<T>(xs: seq<T>, p: T -> bool): (r: seq<T>)
    ensures |r| <= |xs|
    ensures forall i :: 0 <= i < |r| ==> p(r[i])
    decreases |xs|
  {
    if xs == [] then []
    else Filter(xs[..|xs| - 1], p) + (if p(xs[|xs| - 1]) then [xs[|xs| - 1]] else [])
  }

  lemma {:induction false} FilterMembership<T>(xs: seq<T>, p: T -> bool, x: T)
    ensures x in Filter(xs, p) <==> x in xs && p(x)
    decreases |xs|
  {
    if xs != [] {
      var init := xs[..|xs| - 1];
      FilterMembership(init, p, x);
      assert xs == init + [xs[|xs| - 1]];
    }
  }

  lemma {:induction false} FilterAppend<T>(xs: seq<T>, ys: seq<T>, p: T -> bool)
    ensures Filter(xs + ys, p) == Filter(xs, p) + Filter(ys, p)
    decreases |ys|
  {
    if ys != [] {
      var last := ys[|ys| - 1];
      var yinit := ys[..|ys| - 1];
      assert (xs + ys)[..|xs + ys| - 1] == xs + yinit;
      FilterAppend(xs, yinit, p);
    } else {
      assert xs + ys == xs;
    }
  }

  /** Every element of `xs` satisfies `p` exactly when filtering keeps all of them. */
  lemma {:induction false} FilterAll<T>(xs: seq<T>, p: T -> bool)
    requires forall i :: 0 <= i < |xs| ==> p(xs[i])
    ensures Filter(xs, p) == xs
    decreases |xs|
  {
    if xs != [] {
      FilterAll(xs[..|xs| - 1], p);
    }
  }

  /** Filtering keeps every element exactly when every element satisfies `p`. */
  lemma {:induction false} FilterKeepsAll<T>(xs: seq<T>, p: T -> bool)
    ensures |Filter(xs, p)| == |xs| <==> forall i :: 0 <= i < |xs| ==> p(xs[i])
    decreases |xs|
  {
    if xs != [] {
      var init := xs[..|xs| - 1];
      FilterKeepsAll(init, p);
      if forall i :: 0 <= i < |xs| ==> p(xs[i]) {
        assert forall i :: 0 <= i < |init| ==> p(init[i]) by {
          forall i | 0 <= i < |init| ensures p(init[i]) { assert init[i] == xs[i]; }
        }
      }
      if |Filter(xs, p)| == |xs| {
        assert |Filter(init, p)| == |init| && p(xs[|xs| - 1]);
        forall i | 0 <= i < |xs| ensures p(xs[i]) {
          if i < |init| { assert init[i] == xs[i]; }
        }
      }
    }
  }

  /** When exactly one element satisfies `p`, filtering keeps that element alone. */
  lemma {:induction false} FilterOne<T>(xs: seq<T>, p: T -> bool, i: nat)
    requires i < |xs| && p(xs[i])
    requires forall j :: 0 <= j < |xs| && j != i ==> !p(xs[j])
    ensures Filter(xs, p) == [xs[i]]
  {
    var init := xs[..i];
    var tail := xs[i + 1..];
    assert xs == init + [xs[i]] + tail;
    FilterAppend(init + [xs[i]], tail, p);
    FilterAppend(init, [xs[i]], p);
    assert Filter(init, p) == [] by {
      assert forall k :: 0 <= k < |init| ==> init[k] == xs[k];
      FilterEmpty(init, p);
    }
    assert Filter(tail, p) == [] by {
      assert forall k :: 0 <= k < |tail| ==> tail[k] == xs[i + 1 + k];
      FilterEmpty(tail, p);
    }
    assert [xs[i]][..0] == [];
  }

  /** Filtering keeps nothing exactly when no element satisfies `p`. */
  lemma {:induction false} FilterEmpty<T>(xs: seq<T>, p: T -> bool)
    ensures Filter(xs, p) == [] <==> forall i :: 0 <= i < |xs| ==> !p(xs[i])
  {
    if Filter(xs, p) != [] {
      FilterMembership(xs, p, Filter(xs, p)[0]);
    }
    if i :| 0 <= i < |xs| && p(xs[i]) {
      FilterMembership(xs, p, xs[i]);
    }
  }

  /** Filtering twice, the second time by a stronger condition, is filtering once by it. */
  lemma {:induction false} FilterFilter<T>(xs: seq<T>, p: T -> bool, q: T -> bool)
    requires forall x :: q(x) ==> p(x)
    ensures Filter(Filter(xs, p), q) == Filter(xs, q)
    decreases |xs|
  {
    if xs != [] {
      var init, last := xs[..|xs| - 1], xs[|xs| - 1];
      FilterFilter(init, p, q);
      FilterAppend(Filter(init, p), if p(last) then [last] else [], q);
    }
  }

  /** Filtering two permutations of each other gives permutations of each other. */
  lemma {:induction false} FilterPermutation<T>(xs: seq<T>, ys: seq<T>, p: T -> bool)
    requires multiset(xs) == multiset(ys)
    ensures multiset(Filter(xs, p)) == multiset(Filter(ys, p))
    ensures |Filter(xs, p)| == |Filter(ys, p)|
    decreases |xs|
  {
    if xs == [] {
      MultisetSize(ys);
    } else {
      var init, last := xs[..|xs| - 1], xs[|xs| - 1];
      var i := PickLast(xs, ys);
      var head, tail := ys[..i], ys[i + 1..];
      FilterPermutation(init, head + tail, p);
      assert ys == head + [last] + tail;
      FilterAppend(head + [last], tail, p);
      FilterAppend(head, [last], p);
      FilterAppend(head, tail, p);
      assert [last][..0] == [];
    }
    MultisetSize(Filter(xs, p));
    MultisetSize(Filter(ys, p));
  }

  /** The last element of `xs` sits at some index `i` of its permutation `ys`, and what is
      left of the two once it is taken out are again permutations of each other. */
  lemma PickLast<T>(xs: seq<T>, ys: seq<T>) returns (i: nat)
    requires xs != [] && multiset(xs) == multiset(ys)
    ensures i < |ys| && ys[i] == xs[|xs| - 1]
    ensures multiset(xs[..|xs| - 1]) == multiset(ys[..i] + ys[i + 1..])
  {
    var last := xs[|xs| - 1];
    MultisetRemove(xs, |xs| - 1);
    assert last in multiset(ys);
    i :| 0 <= i < |ys| && ys[i] == last;
    MultisetRemove(ys, i);
    MultisetCancel(multiset(xs[..|xs| - 1]), multiset(ys[..i] + ys[i + 1..]), last);
  }

  /** Taking out the element at `i` takes one copy of it out of the multiset. */
  lemma MultisetRemove<T>(xs: seq<T>, i: nat)
    requires i < |xs|
    ensures multiset(xs) == multiset(xs[..i] + xs[i + 1..]) + multiset{xs[i]}
  {
    assert xs == xs[..i] + [xs[i]] + xs[i + 1..];
  }

  lemma MultisetCancel<T>(a: multiset<T>, b: multiset<T>, x: T)
    requires a + multiset{x} == b + multiset{x}
    ensures a == b
  {
    assert a == a + multiset{x} - multiset{x};
    assert b == b + multiset{x} - multiset{x};
  }

  lemma {:induction false} MultisetSize<T>(s: seq<T>)
    ensures |multiset(s)| == |s|
    decreases |s|
  {
    if s != [] {
      MultisetSize(s[..|s| - 1]);
      assert s == s[..|s| - 1] + [s[|s| - 1]];
    }
  }

  /** The number of elements satisfying `p`: `xs.filter(p).length`. */
  function Count<T>(xs: seq<T>, p: T -> bool): (n: nat)
    ensures n <= |xs|
  {
    |Filter(xs, p)|
  }

  /** `xs.reduce((sum, x) => sum + f(x), 0)`, folded from the left as `reduce` does. */
  function Sum<T>(xs: seq<T>, f: T -> real): real
    decreases |xs|
  {
    if xs == [] then 0.0 else Sum(xs[..|xs| - 1], f) + f(xs[|xs| - 1])
  }

  lemma {:induction false} SumAppend<T>(xs: seq<T>, ys: seq<T>, f: T -> real)
    ensures Sum(xs + ys, f) == Sum(xs, f) + Sum(ys, f)
    decreases |ys|
  {
    if ys != [] {
      var yinit := ys[..|ys| - 1];
      assert (xs + ys)[..|xs + ys| - 1] == xs + yinit;
      SumAppend(xs, yinit, f);
    } else {
      assert xs + ys == xs;
    }
  }

  /** Summing two functions that agree on every element gives the same total. */
  lemma {:induction false} SumCongruent<T>(xs: seq<T>, f: T -> real, g: T -> real)
    requires forall i :: 0 <= i < |xs| ==> f(xs[i]) == g(xs[i])
    ensures Sum(xs, f) == Sum(xs, g)
    decreases |xs|
  {
    if xs != [] {
      SumCongruent(xs[..|xs| - 1], f, g);
    }
  }

  /** A sum of non-negative terms is non-negative. */
  lemma {:induction false} SumNonNegative<T>(xs: seq<T>, f: T -> real)
    requires forall i :: 0 <= i < |xs| ==> f(xs[i]) >= 0.0
    ensures Sum(xs, f) >= 0.0
    decreases |xs|
  {
    if xs != [] {
      SumNonNegative(xs[..|xs| - 1], f);
    }
  }

  /** `xs.findIndex(p)` as an option: the index of the first element satisfying `p`. */
  function FindIndex<T>(xs: seq<T>, p: T -> bool): (r: Option<nat>)
    ensures r.Some? ==> r.value < |xs| && p(xs[r.value])
                        && forall j :: 0 <= j < r.value ==> !p(xs[j])
    ensures r.None? ==> forall j :: 0 <= j < |xs| ==> !p(xs[j])
    decreases |xs|
  {
    if xs == [] then None
    else if p(xs[0]) then Some(0)
    else match FindIndex(xs[1..], p)
      case None => None
      case Some(k) => Some(k + 1)
  }

  /** The first index satisfying `p` is the one `FindIndex` reports. */
  lemma {:induction false} FindIndexIs<T>(xs: seq<T>, p: T -> bool, k: nat)
    requires k < |xs| && p(xs[k])
    requires forall j :: 0 <= j < k ==> !p(xs[j])
    ensures FindIndex(xs, p) == Some(k)
  {
  }

  /** `xs.find(p)`: the first element satisfying `p`, if any. */
  function Find<T>(xs: seq<T>, p: T -> bool): (r: Option<T>)
    ensures r.Some? ==> r.value in xs && p(r.value)
    ensures r.None? ==> forall j :: 0 <= j < |xs| ==> !p(xs[j])
  {
    match FindIndex(xs, p)
    case None => None
    case Some(k) => Some(xs[k])
  }

  /** A `.single()` / `.maybeSingle()` query: the row when exactly one row matches, otherwise
      no data (the store reports an error for zero or several rows, and `data` is null). */
  function Single<T>(rows: seq<T>, p: T -> bool): (r: Option<T>)
    ensures r.Some? ==> r.value in rows && p(r.value) && Count(rows, p) == 1
    ensures r.None? <==> Count(rows, p) != 1
  {
    var m := Filter(rows, p);
    if |m| == 1 then
      FilterMembership(rows, p, m[0]);
      Some(m[0])
    else None
  }

  /** Appending the only matching row makes a `.single()` query find it. */
  lemma {:induction false} SingleAppendFresh<T>(rows: seq<T>, p: T -> bool, x: T)
    requires p(x)
    requires forall i :: 0 <= i < |rows| ==> !p(rows[i])
    ensures Single(rows + [x], p) == Some(x)
  {
    FilterEmpty(rows, p);
    FilterAppend(rows, [x], p);
    assert [x][..0] == [];
  }

  /** Appending a second matching row makes a `.single()` query find nothing. */
  lemma {:induction false} SingleAppendDuplicate<T>(rows: seq<T>, p: T -> bool, x: T, i: nat)
    requires p(x) && i < |rows| && p(rows[i])
    ensures Single(rows + [x], p).None?
  {
    FilterMembership(rows, p, rows[i]);
    FilterAppend(rows, [x], p);
    assert [x][..0] == [];
  }

  /** Replacing one element changes the sum by the difference of the two values. */
  lemma {:induction false} SumUpdate<T>(xs: seq<T>, f: T -> real, i: nat, x: T)
    requires i < |xs|
    ensures Sum(xs[i := x], f) == Sum(xs, f) - f(xs[i]) + f(x)
  {
    var head, tail := xs[..i], xs[i + 1..];
    assert xs == head + [xs[i]] + tail;
    assert xs[i := x] == head + [x] + tail;
    SumAppend(head + [xs[i]], tail, f);
    SumAppend(head, [xs[i]], f);
    SumAppend(head + [x], tail, f);
    SumAppend(head, [x], f);
    assert [x][..0] == [] && [xs[i]][..0] == [];
  }

  /** A sum does not depend on the order of its terms. */
  lemma {:induction false} SumPermutation<T>(xs: seq<T>, ys: seq<T>, f: T -> real)
    requires multiset(xs) == multiset(ys)
    ensures Sum(xs, f) == Sum(ys, f)
    decreases |xs|
  {
    if xs == [] {
      MultisetSize(ys);
    } else {
      var i := PickLast(xs, ys);
      SumPermutation(xs[..|xs| - 1], ys[..i] + ys[i + 1..], f);
      SumRemove(ys, f, i);
    }
  }

  /** Removing one element lowers the sum by its value. */
  lemma {:induction false} SumRemove<T>(xs: seq<T>, f: T -> real, i: nat)
    requires i < |xs|
    ensures Sum(xs[..i] + xs[i + 1..], f) == Sum(xs, f) - f(xs[i])
  {
    var head, tail := xs[..i], xs[i + 1..];
    assert xs == head + [xs[i]] + tail;
    SumAppend(head + [xs[i]], tail, f);
    SumAppend(head, [xs[i]], f);
    SumAppend(head, tail, f);
    assert [xs[i]][..0] == [];
  }
}
