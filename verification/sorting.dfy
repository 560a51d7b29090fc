/** A stable sort by a real-valued key in non-increasing order (Python's
    `sorted(xs, key=k, reverse=True)`), and the median of `statistics.median`,
    which sorts ascending, i.e. by the negated value. */
module Sorting {
  import opened Seqs

  /** Keys never increase from left to right. */
  predicate SortedDesc<T>(xs: seq<T>, key: T -> real) {
    forall i, j :: 0 <= i < j < |xs| ==> key(xs[i]) >= key(xs[j])
  }

  /** Inserts `x` before the first element with a strictly smaller key, so that
      it lands after every element with an equal key (stability). */
  function Insert<T>(x: T, xs: seq<T>, key: T -> real): (r: seq<T>)
    requires SortedDesc(xs, key)
    ensures |r| == |xs| + 1
    ensures r[0] == x || (|xs| > 0 && r[0] == xs[0])
    ensures SortedDesc(r, key)
    ensures multiset(r) == multiset(xs) + multiset{x}
  {
    if xs == [] then [x]
    else if key(x) > key(xs[0]) then
      SortedCons(x, xs, key);
      [x] + xs
    else
      assert xs == [xs[0]] + xs[1..];
      var rest := Insert(x, xs[1..], key);
      SortedCons(xs[0], rest, key);
      [xs[0]] + rest
  }

  /** Prepending an element whose key is at least the head's keeps the order. */
  lemma SortedCons<T>(x: T, xs: seq<T>, key: T -> real)
    requires SortedDesc(xs, key)
    requires xs != [] ==> key(x) >= key(xs[0])
    ensures SortedDesc([x] + xs, key)
  {
    var r := [x] + xs;
    forall i, j | 0 <= i < j < |r| ensures key(r[i]) >= key(r[j]) {
      if i == 0 {
        assert r[j] == xs[j - 1];
        assert key(xs[0]) >= key(xs[j - 1]) || j - 1 == 0;
      } else {
        assert r[i] == xs[i - 1] && r[j] == xs[j - 1];
      }
    }
  }

  /** Sorts by non-increasing key, keeping equal keys in input order. */
  function SortDesc<T>(xs: seq<T>, key: T -> real): (r: seq<T>)
    ensures SortedDesc(r, key)
    ensures multiset(r) == multiset(xs)
    ensures |r| == |xs|
  {
    if xs == [] then []
    else
      var init := xs[..|xs| - 1];
      assert xs == init + [xs[|xs| - 1]];
      Insert(xs[|xs| - 1], SortDesc(init, key), key)
  }

  /** The elements whose key is `k`. */
  function WithKey<T>(key: T -> real, k: real): T -> bool {
    x => key(x) == k
  }

  /** Inserting `x` appends it to the elements that share its key and leaves
      every other key's elements alone. */
  lemma {:induction false} InsertStable<T>(x: T, xs: seq<T>, key: T -> real, k: real)
    requires SortedDesc(xs, key)
    ensures Filter(Insert(x, xs, key), WithKey(key, k))
      == Filter(xs, WithKey(key, k)) + (if key(x) == k then [x] else [])
  {
    var p := WithKey(key, k);
    if xs == [] {
      FilterCons(x, [], p);
    } else if key(x) > key(xs[0]) {
      FilterCons(x, xs, p);
      if key(x) == k {
        NoneAboveHead(xs, key, k);
      }
    } else {
      InsertStable(x, xs[1..], key, k);
      InsertBehind(x, xs, key, k);
    }
  }

  /** Filtering a sequence with a new first element. */
  lemma FilterCons<T>(y: T, ys: seq<T>, p: T -> bool)
    ensures Filter([y] + ys, p) == (if p(y) then [y] else []) + Filter(ys, p)
  {
    assert ([y] + ys)[1..] == ys;
  }

  /** No element of a sorted sequence has a key above its head's. */
  lemma NoneAboveHead<T>(xs: seq<T>, key: T -> real, k: real)
    requires SortedDesc(xs, key) && xs != [] && k > key(xs[0])
    ensures Filter(xs, WithKey(key, k)) == []
  {
    forall y | y in xs ensures !WithKey(key, k)(y) {
      var j :| 0 <= j < |xs| && xs[j] == y;
      assert key(xs[0]) >= key(xs[j]) || j == 0;
    }
    FilterNone(xs, WithKey(key, k));
  }

  /** The step of `InsertStable` where `x` goes behind the head. */
  lemma InsertBehind<T>(x: T, xs: seq<T>, key: T -> real, k: real)
    requires SortedDesc(xs, key) && xs != [] && key(x) <= key(xs[0])
    requires SortedDesc(xs[1..], key)
    requires Filter(Insert(x, xs[1..], key), WithKey(key, k))
      == Filter(xs[1..], WithKey(key, k)) + (if key(x) == k then [x] else [])
    ensures Filter(Insert(x, xs, key), WithKey(key, k))
      == Filter(xs, WithKey(key, k)) + (if key(x) == k then [x] else [])
  {
    var p := WithKey(key, k);
    var rest := Insert(x, xs[1..], key);
    var tail := if key(x) == k then [x] else [];
    InsertBehindHead(x, xs, key);
    FilterCons(xs[0], rest, p);
    FilterHead(xs, p);
    Regroup(Filter(Insert(x, xs, key), p), Filter(xs, p),
      if p(xs[0]) then [xs[0]] else [], Filter(xs[1..], p), Filter(rest, p), tail);
  }

  /** Behind a head at least as large, `Insert` leaves the head in front. */
  lemma InsertBehindHead<T>(x: T, xs: seq<T>, key: T -> real)
    requires SortedDesc(xs, key) && xs != [] && key(x) <= key(xs[0])
    requires SortedDesc(xs[1..], key)
    ensures Insert(x, xs, key) == [xs[0]] + Insert(x, xs[1..], key)
  {
  }

  /** `Filter` on a non-empty sequence, split at its head. */
  lemma FilterHead<T>(xs: seq<T>, p: T -> bool)
    requires xs != []
    ensures Filter(xs, p) == (if p(xs[0]) then [xs[0]] else []) + Filter(xs[1..], p)
  {
    assert xs == [xs[0]] + xs[1..];
    FilterCons(xs[0], xs[1..], p);
  }

  /** The regrouping of sequence pieces that closes `InsertBehind`. */
  lemma Regroup<T>(f: seq<T>, g: seq<T>, head: seq<T>, ft: seq<T>, fr: seq<T>, tail: seq<T>)
    requires f == head + fr && fr == ft + tail && g == head + ft
    ensures f == g + tail
  {
    ConcatAssoc(head, ft, tail);
  }

  lemma ConcatAssoc<T>(a: seq<T>, b: seq<T>, c: seq<T>)
    ensures a + (b + c) == (a + b) + c
  {
    var l := a + (b + c);
    var r := (a + b) + c;
    assert |l| == |r|;
    forall i | 0 <= i < |l| ensures l[i] == r[i] {
      if i < |a| {
      } else if i < |a| + |b| {
        assert l[i] == (b + c)[i - |a|] == b[i - |a|];
      } else {
        assert l[i] == (b + c)[i - |a|] == c[i - |a| - |b|];
      }
    }
  }

  /** The sort is stable: for every key, the elements with that key keep
      their input order. */
  lemma {:induction false} SortDescStable<T>(xs: seq<T>, key: T -> real, k: real)
    ensures Filter(SortDesc(xs, key), WithKey(key, k)) == Filter(xs, WithKey(key, k))
  {
    if xs != [] {
      var init := xs[..|xs| - 1];
      var last := xs[|xs| - 1];
      assert xs == init + [last];
      SortDescStable(init, key, k);
      InsertStable(last, SortDesc(init, key), key, k);
      FilterSnoc(init, last, WithKey(key, k));
    }
  }

  /** Every element of the sorted sequence comes from the input. */
  lemma SortDescMembers<T>(xs: seq<T>, key: T -> real)
    ensures forall y :: y in SortDesc(xs, key) <==> y in xs
  {
    var r := SortDesc(xs, key);
    forall y ensures y in r <==> y in xs {
      assert y in r <==> y in multiset(r);
      assert y in xs <==> y in multiset(xs);
    }
  }

  function Neg(x: real): real { -x }

  /** `statistics.median`: the middle of the ascending sort, or the mean of
      the two middle values when the length is even. */
  function Median(xs: seq<real>): real
    requires |xs| > 0
  {
    Middle(SortDesc(xs, Neg))
  }

  /** The middle element, or the mean of the two middle elements. */
  function Middle(a: seq<real>): real
    requires |a| > 0
  {
    var n := |a|;
    if n % 2 == 1 then a[n / 2] else (a[n / 2 - 1] + a[n / 2]) / 2.0
  }

  /** The smallest value. */
  function Lowest(xs: seq<real>): (m: real)
    requires |xs| > 0
    ensures m in xs
    ensures forall x :: x in xs ==> m <= x
  {
    if |xs| == 1 then xs[0]
    else
      var rest := Lowest(xs[1..]);
      assert forall x :: x in xs ==> x == xs[0] || x in xs[1..];
      if xs[0] <= rest then xs[0] else rest
  }

  /** The largest value. */
  function Highest(xs: seq<real>): (m: real)
    requires |xs| > 0
    ensures m in xs
    ensures forall x :: x in xs ==> x <= m
  {
    if |xs| == 1 then xs[0]
    else
      var rest := Highest(xs[1..]);
      assert forall x :: x in xs ==> x == xs[0] || x in xs[1..];
      if xs[0] >= rest then xs[0] else rest
  }

  /** The median lies between any lower and upper bound of the values. */
  lemma MedianBounds(xs: seq<real>, lo: real, hi: real)
    requires |xs| > 0
    requires forall x :: x in xs ==> lo <= x <= hi
    ensures lo <= Median(xs) <= hi
  {
    SortDescMembers(xs, Neg);
    var a := SortDesc(xs, Neg);
    var n := |a|;
    assert a[n / 2] in xs;
    if n % 2 == 0 {
      assert a[n / 2 - 1] in xs;
    }
  }

  /** The median is at least any lower bound of the values. */
  lemma MedianAtLeast(xs: seq<real>, lo: real)
    requires |xs| > 0
    requires forall x :: x in xs ==> lo <= x
    ensures lo <= Median(xs)
  {
    SortDescMembers(xs, Neg);
    var a := SortDesc(xs, Neg);
    var n := |a|;
    assert a[n / 2] in xs;
    if n % 2 == 0 {
      assert a[n / 2 - 1] in xs;
    }
  }

  /** The head of an ascending sequence is its least element. */
  lemma HeadIsLeast(a: seq<real>)
    requires SortedDesc(a, Neg) && a != []
    ensures forall x :: x in a ==> a[0] <= x
  {
    forall x | x in a ensures a[0] <= x {
      var i :| 0 <= i < |a| && a[i] == x;
      if i > 0 {
        assert Neg(a[0]) >= Neg(a[i]);
      }
    }
  }

  lemma SortedTail(a: seq<real>)
    requires SortedDesc(a, Neg) && a != []
    ensures SortedDesc(a[1..], Neg)
  {
    forall i, j | 0 <= i < j < |a[1..]| ensures Neg(a[1..][i]) >= Neg(a[1..][j]) {
      assert a[1..][i] == a[i + 1] && a[1..][j] == a[j + 1];
    }
  }

  lemma MultisetTail(a: seq<real>)
    requires a != []
    ensures multiset(a[1..]) == multiset(a) - multiset{a[0]}
  {
    assert a == [a[0]] + a[1..];
    assert multiset(a) == multiset{a[0]} + multiset(a[1..]);
  }

  /** Two ascending sequences with the same elements are the same sequence. */
  lemma {:induction false} AscendingUnique(a: seq<real>, b: seq<real>)
    requires SortedDesc(a, Neg) && SortedDesc(b, Neg)
    requires multiset(a) == multiset(b)
    ensures a == b
  {
    if a != [] {
      assert |b| == |a| by {
        assert |multiset(b)| == |multiset(a)|;
      }
      HeadIsLeast(a);
      HeadIsLeast(b);
      assert a[0] in b by {
        assert a[0] in multiset(b);
      }
      assert b[0] in a by {
        assert b[0] in multiset(a);
      }
      assert a[0] == b[0];
      assert a == [a[0]] + a[1..] && b == [b[0]] + b[1..];
      MultisetTail(a);
      MultisetTail(b);
      SortedTail(a);
      SortedTail(b);
      AscendingUnique(a[1..], b[1..]);
    }
  }

  /** `statistics.median` depends only on the values, not on their order. */
  lemma MedianPermutation(xs: seq<real>, ys: seq<real>)
    requires |xs| > 0 && |ys| > 0
    requires multiset(xs) == multiset(ys)
    ensures Median(xs) == Median(ys)
  {
    AscendingUnique(SortDesc(xs, Neg), SortDesc(ys, Neg));
  }

  /** The median of a constant sequence is that constant. */
  lemma MedianOfConstant(xs: seq<real>, c: real)
    requires |xs| > 0
    requires forall x :: x in xs ==> x == c
    ensures Median(xs) == c
  {
    MedianBounds(xs, c, c);
  }
}
