/** Order-preserving filters, sums and counts over sequences, the shapes the
    source writes as list comprehensions and `sum(...)` generators. */
module Seqs {

  /** The elements of `xs` satisfying `p`, in their original order. */
  function Filter<T>(xs: seq<T>, p: T -> bool): (r: seq<T>)
    ensures |r| <= |xs|
    ensures forall x :: x in r ==> x in xs && p(x)
    ensures forall x :: x in xs && p(x) ==> x in r
  {
    if xs == [] then []
    else
      assert xs == [xs[0]] + xs[1..];
      (if p(xs[0]) then [xs[0]] else []) + Filter(xs[1..], p)
  }

  /** Nothing passes a filter that no element satisfies. */
  lemma FilterNone<T>(xs: seq<T>, p: T -> bool)
    ensures (forall x :: x in xs ==> !p(x)) ==> Filter(xs, p) == []
  {
    var r := Filter(xs, p);
    if r != [] {
      assert r[0] in r;
    }
  }

  /** Filtering distributes over concatenation. */
  lemma {:induction false} FilterAppend<T>(xs: seq<T>, ys: seq<T>, p: T -> bool)
    ensures Filter(xs + ys, p) == Filter(xs, p) + Filter(ys, p)
  {
    if xs == [] {
      assert xs + ys == ys;
    } else {
      assert (xs + ys)[1..] == xs[1..] + ys;
      FilterAppend(xs[1..], ys, p);
    }
  }

  /** Filtering a sequence extended by one element. */
  lemma FilterSnoc<T>(xs: seq<T>, y: T, p: T -> bool)
    ensures Filter(xs + [y], p) == Filter(xs, p) + (if p(y) then [y] else [])
  {
    FilterAppend(xs, [y], p);
    assert [y][1..] == [];
  }

  /** A predicate and its negation split a sequence into two parts whose
      contents together are exactly the sequence's contents. */
  lemma {:induction false} FilterPartition<T>(xs: seq<T>, p: T -> bool, q: T -> bool)
    requires forall x :: q(x) == !p(x)
    ensures multiset(Filter(xs, p)) + multiset(Filter(xs, q)) == multiset(xs)
    ensures |Filter(xs, p)| + |Filter(xs, q)| == |xs|
  {
    if xs != [] {
      FilterPartition(xs[1..], p, q);
      assert xs == [xs[0]] + xs[1..];
    }
  }

  /** Sum of `f` over the elements of `xs`. */
  function SumOf<T>(xs: seq<T>, f: T -> real): real
  {
    if xs == [] then 0.0 else f(xs[0]) + SumOf(xs[1..], f)
  }

  /** A sum of non-negative terms is non-negative. */
  lemma {:induction false} SumOfNonNegative<T>(xs: seq<T>, f: T -> real)
    requires forall x :: x in xs ==> f(x) >= 0.0
    ensures SumOf(xs, f) >= 0.0
  {
    if xs != [] {
      SumOfNonNegative(xs[1..], f);
    }
  }

  /** Summing distributes over concatenation. */
  lemma {:induction false} SumOfAppend<T>(xs: seq<T>, ys: seq<T>, f: T -> real)
    ensures SumOf(xs + ys, f) == SumOf(xs, f) + SumOf(ys, f)
  {
    if xs == [] {
      assert xs + ys == ys;
    } else {
      assert (xs + ys)[1..] == xs[1..] + ys;
      SumOfAppend(xs[1..], ys, f);
    }
  }

  /** Number of elements of `xs` satisfying `p`. */
  function CountOf<T>(xs: seq<T>, p: T -> bool): (n: nat)
    ensures n <= |xs|
  {
    if xs == [] then 0 else (if p(xs[0]) then 1 else 0) + CountOf(xs[1..], p)
  }

  /** The count is the length of the filtered sequence. */
  lemma {:induction false} CountOfIsFilterLength<T>(xs: seq<T>, p: T -> bool)
    ensures CountOf(xs, p) == |Filter(xs, p)|
  {
    if xs != [] {
      CountOfIsFilterLength(xs[1..], p);
    }
  }

  /** Nothing is counted exactly when no element passes. */
  lemma CountOfZero<T>(xs: seq<T>, p: T -> bool)
    ensures CountOf(xs, p) == 0 <==> forall x :: x in xs ==> !p(x)
  {
    CountOfIsFilterLength(xs, p);
    FilterNone(xs, p);
    var r := Filter(xs, p);
    if r != [] {
      assert r[0] in r;
    }
  }

  /** Counting is additive over concatenation. */
  lemma CountOfAppend<T>(xs: seq<T>, ys: seq<T>, p: T -> bool)
    ensures CountOf(xs + ys, p) == CountOf(xs, p) + CountOf(ys, p)
  {
    FilterAppend(xs, ys, p);
    CountOfIsFilterLength(xs + ys, p);
    CountOfIsFilterLength(xs, p);
    CountOfIsFilterLength(ys, p);
  }

  /** Reordering does not change a count. */
  lemma {:induction false} CountOfPermutation<T>(xs: seq<T>, ys: seq<T>, p: T -> bool)
    requires multiset(xs) == multiset(ys)
    ensures CountOf(xs, p) == CountOf(ys, p)
    decreases |xs|
  {
    if xs == [] {
      assert |ys| == |multiset(ys)| == 0;
    } else {
      assert xs[0] in multiset(ys);
      var i :| 0 <= i < |ys| && ys[i] == xs[0];
      RemoveMatching(xs, ys, i);
      RemoveAt(ys, i, p);
      CountOfPermutation(xs[1..], ys[..i] + ys[i + 1..], p);
    }
  }

  /** Two permutations stay permutations once a common first element is
      taken out of each. */
  lemma RemoveMatching<T>(xs: seq<T>, ys: seq<T>, i: nat)
    requires multiset(xs) == multiset(ys) && xs != []
    requires i < |ys| && ys[i] == xs[0]
    ensures multiset(xs[1..]) == multiset(ys[..i] + ys[i + 1..])
  {
    var rest := ys[..i] + ys[i + 1..];
    assert ys == ys[..i] + [ys[i]] + ys[i + 1..];
    assert xs == [xs[0]] + xs[1..];
    assert multiset(ys) == multiset(rest) + multiset{ys[i]};
    assert multiset(xs) == multiset(xs[1..]) + multiset{xs[0]};
    forall y ensures multiset(rest)[y] == multiset(xs[1..])[y] {
      assert (multiset(rest) + multiset{ys[i]})[y] == (multiset(xs[1..]) + multiset{xs[0]})[y];
    }
  }

  /** Taking out the element at `i` takes one from the count when it
      passes. */
  lemma RemoveAt<T>(ys: seq<T>, i: nat, p: T -> bool)
    requires i < |ys|
    ensures CountOf(ys, p) == CountOf(ys[..i] + ys[i + 1..], p) + (if p(ys[i]) then 1 else 0)
  {
    var a, b := ys[..i], ys[i + 1..];
    SplitAt(ys, i);
    CountOfAppend(a, [ys[i]] + b, p);
    CountOfCons(ys[i], b, p);
    CountOfAppend(a, b, p);
  }

  lemma SplitAt<T>(ys: seq<T>, i: nat)
    requires i < |ys|
    ensures ys == ys[..i] + ([ys[i]] + ys[i + 1..])
  {
  }

  lemma CountOfCons<T>(x: T, b: seq<T>, p: T -> bool)
    ensures CountOf([x] + b, p) == (if p(x) then 1 else 0) + CountOf(b, p)
  {
    assert ([x] + b)[1..] == b;
  }

  /** `f` applied to every element, in order. */
  function MapSeq<T, U>(xs: seq<T>, f: T -> U): (r: seq<U>)
    ensures |r| == |xs|
    ensures forall i :: 0 <= i < |xs| ==> r[i] == f(xs[i])
  {
    seq(|xs|, i requires 0 <= i < |xs| => f(xs[i]))
  }

  /** No element occurs twice. */
  predicate Distinct<T(==)>(xs: seq<T>) {
    forall i, j :: 0 <= i < j < |xs| ==> xs[i] != xs[j]
  }

  /** The first `n` elements, or all of them when there are fewer
      (Python's `xs[:n]`). */
  function Take<T>(xs: seq<T>, n: nat): (r: seq<T>)
    ensures |r| <= n && |r| <= |xs|
    ensures |xs| <= n ==> r == xs
    ensures forall i :: 0 <= i < |r| ==> r[i] == xs[i]
  {
    if |xs| <= n then xs else xs[..n]
  }

  /** Holds of everything but `x`. */
  function Others<T(==)>(x: T): T -> bool {
    y => y != x
  }

  /** Filtering a duplicate-free sequence keeps it duplicate-free. */
  lemma {:induction false} FilterDistinct<T>(xs: seq<T>, p: T -> bool)
    requires Distinct(xs)
    ensures Distinct(Filter(xs, p))
  {
    if xs != [] {
      FilterDistinct(xs[1..], p);
      assert xs[0] !in xs[1..] by {
        forall i | 0 <= i < |xs[1..]| ensures xs[1..][i] != xs[0] {
          assert xs[1..][i] == xs[i + 1];
        }
      }
      var rest := Filter(xs[1..], p);
      var r := Filter(xs, p);
      if p(xs[0]) {
        assert r == [xs[0]] + rest;
        forall i, j | 0 <= i < j < |r| ensures r[i] != r[j] {
          if i == 0 {
            assert r[j] == rest[j - 1];
          } else {
            assert r[i] == rest[i - 1] && r[j] == rest[j - 1];
          }
        }
      }
    }
  }

  /** Removing one element that occurs exactly once shortens by one. */
  lemma {:induction false} DropOne<T>(xs: seq<T>, x: T)
    requires Distinct(xs) && x in xs
    ensures |Filter(xs, Others(x))| == |xs| - 1
  {
    DistinctTail(xs);
    if xs[0] == x {
      KeepAll(xs[1..], Others(x));
    } else {
      DropOne(xs[1..], x);
    }
  }

  /** A filter every element passes changes nothing. */
  lemma {:induction false} KeepAll<T>(xs: seq<T>, p: T -> bool)
    requires forall x :: x in xs ==> p(x)
    ensures Filter(xs, p) == xs
  {
    if xs != [] {
      assert xs[1..] == xs[1..];
      KeepAll(xs[1..], p);
    }
  }

  /** When every element passes, the filter keeps them all and counts them
      all. */
  lemma KeepEvery<T>(xs: seq<T>, p: T -> bool)
    requires forall i :: 0 <= i < |xs| ==> p(xs[i])
    ensures Filter(xs, p) == xs
    ensures CountOf(xs, p) == |xs|
  {
    forall x | x in xs ensures p(x) {
      var i :| 0 <= i < |xs| && xs[i] == x;
    }
    KeepAll(xs, p);
    CountOfIsFilterLength(xs, p);
  }

  /** The tail of a duplicate-free sequence is duplicate-free and lacks the
      head. */
  lemma DistinctTail<T>(xs: seq<T>)
    requires Distinct(xs) && xs != []
    ensures Distinct(xs[1..]) && xs[0] !in xs[1..]
  {
    var rest := xs[1..];
    forall i, j | 0 <= i < j < |rest| ensures rest[i] != rest[j] {
      assert rest[i] == xs[i + 1] && rest[j] == xs[j + 1];
    }
    forall i | 0 <= i < |rest| ensures rest[i] != xs[0] {
      assert rest[i] == xs[i + 1];
    }
  }

  /** A duplicate-free sequence has as many distinct elements as entries. */
  lemma {:induction false} DistinctCard<T>(xs: seq<T>)
    requires Distinct(xs)
    ensures |set x | x in xs| == |xs|
  {
    if xs != [] {
      var rest := xs[1..];
      assert Distinct(rest) by {
        forall i, j | 0 <= i < j < |rest| ensures rest[i] != rest[j] {
          assert rest[i] == xs[i + 1] && rest[j] == xs[j + 1];
        }
      }
      DistinctCard(rest);
      assert (set x | x in xs) == (set x | x in rest) + {xs[0]} by {
        assert xs == [xs[0]] + rest;
      }
      assert xs[0] !in rest by {
        forall i | 0 <= i < |rest| ensures rest[i] != xs[0] {
          assert rest[i] == xs[i + 1];
        }
      }
    }
  }

  /** Appending a new element keeps a sequence duplicate-free. */
  lemma DistinctSnoc<T>(xs: seq<T>, x: T)
    requires Distinct(xs) && x !in xs
    ensures Distinct(xs + [x])
  {
  }
}
