/** `Array.prototype.sort` with a comparator, as a stable insertion sort: the
    comparator returns a negative number when its first argument goes first,
    a positive one when it goes second, and zero when the two keep their
    relative order. */
module Sorting {
  import opened Collections

  /** Swapping the arguments of a positive comparison gives a negative one. */
  ghost predicate Antisymmetric<T(!new)>(cmp: (T, T) -> int)
  {
    forall a, b :: cmp(a, b) > 0 ==> cmp(b, a) < 0
  }

  /** "Goes no later than" is transitive. */
  ghost predicate Transitive<T(!new)>(cmp: (T, T) -> int)
  {
    forall a, b, c :: cmp(a, b) <= 0 && cmp(b, c) <= 0 ==> cmp(a, c) <= 0
  }

  /** Every element goes no later than the next one. */
  predicate Sorted<T>(xs: seq<T>, cmp: (T, T) -> int)
  {
    forall i :: 0 <= i < |xs| - 1 ==> cmp(xs[i], xs[i + 1]) <= 0
  }

  /** Inserts `x` behind every element that does not compare after it. */
  function Insert<T>(sorted: seq<T>, x: T, cmp: (T, T) -> int): (r: seq<T>)
    ensures multiset(r) == multiset(sorted) + multiset{x}
    ensures |r| == |sorted| + 1
    ensures r[|r| - 1] == x || (sorted != [] && r[|r| - 1] == sorted[|sorted| - 1])
  {
    if sorted == [] || cmp(sorted[|sorted| - 1], x) <= 0 then
      sorted + [x]
    else
      var init, last := sorted[..|sorted| - 1], sorted[|sorted| - 1];
      assert sorted == init + [last];
      Insert(init, x, cmp) + [last]
  }

  lemma {:induction false} InsertKeepsSorted<T(!new)>(sorted: seq<T>, x: T, cmp: (T, T) -> int)
    requires Antisymmetric(cmp) && Sorted(sorted, cmp)
    ensures Sorted(Insert(sorted, x, cmp), cmp)
  {
    if sorted != [] && cmp(sorted[|sorted| - 1], x) > 0 {
      var init, last := sorted[..|sorted| - 1], sorted[|sorted| - 1];
      assert Sorted(init, cmp) by {
        assert forall i :: 0 <= i < |init| ==> init[i] == sorted[i];
      }
      InsertKeepsSorted(init, x, cmp);
      var s := Insert(init, x, cmp);
      var r := s + [last];
      assert Insert(sorted, x, cmp) == r;
      assert cmp(s[|s| - 1], last) <= 0;
      assert forall i :: 0 <= i < |s| ==> r[i] == s[i];
    }
  }

  /** The sorted array, built by inserting the elements from the left. */
  function InsertionSort<T>(xs: seq<T>, cmp: (T, T) -> int): (r: seq<T>)
    ensures multiset(r) == multiset(xs)
  {
    if xs == [] then []
    else
      var init := xs[..|xs| - 1];
      assert xs == init + [xs[|xs| - 1]];
      Insert(InsertionSort(init, cmp), xs[|xs| - 1], cmp)
  }

  lemma {:induction false} InsertionSortSorted<T(!new)>(xs: seq<T>, cmp: (T, T) -> int)
    requires Antisymmetric(cmp)
    ensures Sorted(InsertionSort(xs, cmp), cmp)
  {
    if xs != [] {
      var init := xs[..|xs| - 1];
      InsertionSortSorted(init, cmp);
      InsertKeepsSorted(InsertionSort(init, cmp), xs[|xs| - 1], cmp);
    }
  }

  /** The comparator cannot tell apart any two elements that `p` selects. */
  ghost predicate TiedOn<T(!new)>(cmp: (T, T) -> int, p: T -> bool)
  {
    forall a, b :: p(a) && p(b) ==> cmp(a, b) == 0
  }

  /** Inserting `x` keeps the elements selected by a tied class in the order
      they have in `sorted + [x]`. */
  lemma {:induction false} InsertIsStable<T(!new)>(sorted: seq<T>, x: T, cmp: (T, T) -> int, p: T -> bool)
    requires TiedOn(cmp, p)
    ensures Filter(Insert(sorted, x, cmp), p) == Filter(sorted + [x], p)
  {
    if sorted != [] && cmp(sorted[|sorted| - 1], x) > 0 {
      var init, last := sorted[..|sorted| - 1], sorted[|sorted| - 1];
      assert sorted == init + [last];
      var front := Insert(init, x, cmp);
      assert Insert(sorted, x, cmp) == front + [last];
      InsertIsStable(init, x, cmp, p);
      // `last` compares after `x`, so the class holds at most one of them.
      assert !(p(last) && p(x));
      FilterPastLast(front, init, x, last, p);
    }
  }

  /** Moving `x` in front of a last element that the filter does not keep
      together with it leaves the filtered sequence unchanged. */
  lemma FilterPastLast<T>(front: seq<T>, init: seq<T>, x: T, last: T, p: T -> bool)
    requires Filter(front, p) == Filter(init + [x], p)
    requires !(p(last) && p(x))
    ensures Filter(front + [last], p) == Filter(init + [last] + [x], p)
  {
    var a, fx, fl := Filter(init, p), Filter([x], p), Filter([last], p);
    FilterAppend(front, [last], p);
    FilterAppend(init, [x], p);
    assert Filter(front + [last], p) == (a + fx) + fl;
    FilterAppend(init, [last], p);
    FilterAppend(init + [last], [x], p);
    assert Filter(init + [last] + [x], p) == (a + fl) + fx;
    FilterSingletonsCommute(x, last, p);
    AppendAssociative(a, fx, fl);
    AppendAssociative(a, fl, fx);
  }

  /** Two single elements that a filter does not both keep can be swapped under it. */
  lemma FilterSingletonsCommute<T>(a: T, b: T, p: T -> bool)
    requires !(p(a) && p(b))
    ensures Filter([a], p) + Filter([b], p) == Filter([b], p) + Filter([a], p)
  {
    FilterCons(a, [], p);
    FilterCons(b, [], p);
  }

  /** Stability: the sort keeps every tied class in its input order. */
  lemma {:induction false} InsertionSortIsStable<T(!new)>(xs: seq<T>, cmp: (T, T) -> int, p: T -> bool)
    requires TiedOn(cmp, p)
    ensures Filter(InsertionSort(xs, cmp), p) == Filter(xs, p)
  {
    if xs != [] {
      var init, last := xs[..|xs| - 1], xs[|xs| - 1];
      assert xs == init + [last];
      InsertionSortIsStable(init, cmp, p);
      InsertIsStable(InsertionSort(init, cmp), last, cmp, p);
      FilterAppend(InsertionSort(init, cmp), [last], p);
      FilterAppend(init, [last], p);
    }
  }

  /** Sortedness between neighbours gives it between any two positions. */
  lemma {:induction false} SortedPairwise<T(!new)>(xs: seq<T>, cmp: (T, T) -> int, i: nat, j: nat)
    requires Antisymmetric(cmp) && Transitive(cmp) && Sorted(xs, cmp)
    requires i <= j < |xs|
    ensures cmp(xs[i], xs[j]) <= 0
    decreases j - i
  {
    if i < j {
      SortedPairwise(xs, cmp, i + 1, j);
      assert cmp(xs[i], xs[i + 1]) <= 0;
    }
  }

  /** Where the shifting loop of the in-place sort stops, `Insert` puts `x`. */
  lemma {:induction false} InsertAt<T>(s: seq<T>, x: T, cmp: (T, T) -> int, j: nat)
    requires j <= |s|
    requires j == 0 || cmp(s[j - 1], x) <= 0
    requires forall k :: j <= k < |s| ==> cmp(s[k], x) > 0
    ensures Insert(s, x, cmp) == s[..j] + [x] + s[j..]
    decreases |s| - j
  {
    if j == |s| {
      assert j == 0 || s[|s| - 1] == s[j - 1];
      assert Insert(s, x, cmp) == s + [x];
      assert s[..j] == s && s[j..] == [];
    } else {
      var init, last := s[..|s| - 1], s[|s| - 1];
      assert cmp(last, x) > 0;
      assert Insert(s, x, cmp) == Insert(init, x, cmp) + [last];
      assert forall k :: j <= k < |init| ==> init[k] == s[k];
      assert j == 0 || init[j - 1] == s[j - 1];
      InsertAt(init, x, cmp, j);
      SplitBeforeLast(s, j);
      var front, back := init[..j] + [x], init[j..];
      calc {
        Insert(s, x, cmp);
        front + back + [last];
        { AppendAssociative(front, back, [last]); }
        front + (back + [last]);
      }
    }
  }

  lemma SplitBeforeLast<T>(s: seq<T>, j: nat)
    requires j < |s|
    ensures s[..|s| - 1][..j] == s[..j]
    ensures s[..|s| - 1][j..] + [s[|s| - 1]] == s[j..]
  {
    assert s[j..] == s[j..|s| - 1] + [s[|s| - 1]];
  }

  lemma AppendAssociative<T>(a: seq<T>, b: seq<T>, c: seq<T>)
    ensures a + b + c == a + (b + c)
  {
  }

  /** A sequence that agrees with `s` before `j`, holds `x` at `j` and
      agrees with `s` shifted by one after it is `s` with `x` spliced in. */
  lemma Spliced<T>(r: seq<T>, s: seq<T>, x: T, j: nat)
    requires j <= |s| && |r| == |s| + 1
    requires forall k :: 0 <= k < j ==> r[k] == s[k]
    requires r[j] == x
    requires forall k :: j < k < |r| ==> r[k] == s[k - 1]
    ensures r == s[..j] + [x] + s[j..]
  {
  }

  /** What the shifting loop leaves behind is `Insert`'s result. */
  lemma Placed<T>(r: seq<T>, s: seq<T>, x: T, cmp: (T, T) -> int, j: nat)
    requires j <= |s| && |r| == |s| + 1
    requires j == 0 || cmp(s[j - 1], x) <= 0
    requires forall k :: j <= k < |s| ==> cmp(s[k], x) > 0
    requires forall k :: 0 <= k < j ==> r[k] == s[k]
    requires r[j] == x
    requires forall k :: j < k < |r| ==> r[k] == s[k - 1]
    ensures r == Insert(s, x, cmp)
  {
    InsertAt(s, x, cmp, j);
    Spliced(r, s, x, j);
  }

  /** One pass of the in-place sort: `a[i]` moves left past every element
      that compares after it. */
  method InsertLast<T>(a: array<T>, i: nat, cmp: (T, T) -> int)
    requires i < a.Length
    modifies a
    ensures a[..i + 1] == Insert(old(a[..i]), old(a[i]), cmp)
    ensures forall k :: i < k < a.Length ==> a[k] == old(a[k])
  {
    ghost var s := a[..i];
    var x := a[i];
    var j := i;
    while j > 0 && cmp(a[j - 1], x) > 0
      invariant 0 <= j <= i
      invariant forall k :: 0 <= k < j ==> a[k] == s[k]
      invariant forall k :: j < k <= i ==> a[k] == s[k - 1]
      invariant forall k :: j <= k < i ==> cmp(s[k], x) > 0
      invariant forall k :: i < k < a.Length ==> a[k] == old(a[k])
    {
      a[j] := a[j - 1];
      j := j - 1;
    }
    a[j] := x;
    Placed(a[..i + 1], s, x, cmp, j);
  }

  /** Sorting one more element of `xs` inserts it into the sorted prefix. */
  lemma InsertionSortOfPrefix<T>(xs: seq<T>, i: nat, cmp: (T, T) -> int)
    requires i < |xs|
    ensures InsertionSort(xs[..i + 1], cmp) == Insert(InsertionSort(xs[..i], cmp), xs[i], cmp)
  {
    assert xs[..i + 1][..i] == xs[..i];
  }

  /** `a.sort(cmp)`: sorts the array in place. */
  method SortInPlace<T>(a: array<T>, cmp: (T, T) -> int)
    modifies a
    ensures a[..] == InsertionSort(old(a[..]), cmp)
  {
    ghost var orig := a[..];
    var i := 0;
    while i < a.Length
      invariant 0 <= i <= a.Length
      invariant a[..i] == InsertionSort(orig[..i], cmp)
      invariant forall k :: i <= k < a.Length ==> a[k] == orig[k]
    {
      ghost var before, x := a[..i], a[i];
      InsertLast(a, i, cmp);
      assert a[..i + 1] == Insert(before, x, cmp);
      InsertionSortOfPrefix(orig, i, cmp);
      i := i + 1;
    }
    assert a[..] == a[..a.Length];
    assert orig[..a.Length] == orig;
  }
}
