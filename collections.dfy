/** Sequence helpers shared by the admin pages: `Array.prototype.filter`,
    de-duplication through a `Set` (which keeps first-insertion order),
    the `indexOf`-based first-occurrence filter, and subsequences. */
module Collections {

  /** `xs.filter(p)`: the elements satisfying `p`, in their original order. */
  function Filter<T>(xs: seq<T>, p: T -> bool): (r: seq<T>)
    ensures |r| <= |xs|
    ensures forall x :: x in r ==> x in xs && p(x)
    ensures forall x :: x in xs && p(x) ==> x in r
  {
    if xs == [] then []
    else
      assert xs == [xs[0]] + xs[1..];
      (if p(xs[0]) then [xs[0]] else []) + Filter(xs[1..], p)
  }

  lemma FilterCons<T>(x: T, xs: seq<T>, p: T -> bool)
    ensures Filter([x] + xs, p) == (if p(x) then [x] else []) + Filter(xs, p)
  {
    assert ([x] + xs)[1..] == xs;
  }

  lemma {:induction false} FilterMultiset<T>(xs: seq<T>, p: T -> bool)
    ensures multiset(Filter(xs, p)) <= multiset(xs)
  {
    if xs != [] {
      FilterMultiset(xs[1..], p);
      assert xs == [xs[0]] + xs[1..];
    }
  }

  lemma FilterAppend<T>(xs: seq<T>, ys: seq<T>, p: T -> bool)
    ensures Filter(xs + ys, p) == Filter(xs, p) + Filter(ys, p)
  {
    if xs == [] {
      assert xs + ys == ys;
    } else {
      var head := if p(xs[0]) then [xs[0]] else [];
      assert (xs + ys)[0] == xs[0];
      assert (xs + ys)[1..] == xs[1..] + ys;
      FilterAppend(xs[1..], ys, p);
      calc {
        Filter(xs + ys, p);
        head + Filter(xs[1..] + ys, p);
        head + (Filter(xs[1..], p) + Filter(ys, p));
        (head + Filter(xs[1..], p)) + Filter(ys, p);
      }
    }
  }

  /** Two filters in a row are one filter by the conjunction of their tests. */
  lemma {:induction false} FilterFilter<T>(xs: seq<T>, p: T -> bool, q: T -> bool, pq: T -> bool)
    requires forall x :: pq(x) == (p(x) && q(x))
    ensures Filter(Filter(xs, p), q) == Filter(xs, pq)
  {
    if xs != [] {
      FilterFilter(xs[1..], p, q, pq);
      assert pq(xs[0]) == (p(xs[0]) && q(xs[0]));
      if p(xs[0]) {
        assert Filter(xs, p) == [xs[0]] + Filter(xs[1..], p);
        FilterCons(xs[0], Filter(xs[1..], p), q);
      } else {
        assert Filter(xs, p) == Filter(xs[1..], p);
        assert Filter(xs, pq) == Filter(xs[1..], pq);
      }
    }
  }

  /** A filter whose predicate holds everywhere returns its input unchanged. */
  lemma {:induction false} FilterAllTrue<T>(xs: seq<T>, p: T -> bool)
    requires forall x :: x in xs ==> p(x)
    ensures Filter(xs, p) == xs
  {
    if xs != [] {
      FilterAllTrue(xs[1..], p);
    }
  }

  /** `xs.map(f)`: `f` applied to each element, in order. */
  function Map<T, U>(xs: seq<T>, f: T -> U): (r: seq<U>)
    ensures |r| == |xs|
    ensures forall i :: 0 <= i < |xs| ==> r[i] == f(xs[i])
  {
    if xs == [] then [] else [f(xs[0])] + Map(xs[1..], f)
  }

  /** A value is in the mapped sequence iff it is the image of an element. */
  lemma MapMembership<T, U>(xs: seq<T>, f: T -> U)
    ensures forall y :: y in Map(xs, f) ==> exists x :: x in xs && f(x) == y
    ensures forall x :: x in xs ==> f(x) in Map(xs, f)
  {
    forall y | y in Map(xs, f)
      ensures exists x :: x in xs && f(x) == y
    {
      var i :| 0 <= i < |xs| && Map(xs, f)[i] == y;
      assert xs[i] in xs;
    }
    forall x | x in xs
      ensures f(x) in Map(xs, f)
    {
      var i :| 0 <= i < |xs| && xs[i] == x;
      assert Map(xs, f)[i] == f(x);
    }
  }

  /** Mapping one more element appends its image. */
  lemma MapSnoc<T, U>(xs: seq<T>, x: T, f: T -> U)
    ensures Map(xs + [x], f) == Map(xs, f) + [f(x)]
  {
  }

  /** `a` is obtained from `b` by deleting elements, without reordering. */
  predicate IsSubsequence<T(==)>(a: seq<T>, b: seq<T>)
  {
    if a == [] then true
    else if b == [] then false
    else if a[0] == b[0] then IsSubsequence(a[1..], b[1..])
    else IsSubsequence(a, b[1..])
  }

  lemma {:induction false} SubsequenceOfSelf<T>(b: seq<T>)
    ensures IsSubsequence(b, b)
  {
    if b != [] {
      SubsequenceOfSelf(b[1..]);
    }
  }

  lemma {:induction false} SubsequenceOfTail<T>(a: seq<T>, b: seq<T>, x: T)
    requires IsSubsequence(a, b)
    ensures IsSubsequence(a, [x] + b)
    decreases |b|, 1
  {
    assert ([x] + b)[1..] == b;
    if a != [] && a[0] == x {
      SubsequenceOfTailHead(a, b);
    }
  }

  lemma {:induction false} SubsequenceOfTailHead<T>(a: seq<T>, b: seq<T>)
    requires a != []
    requires IsSubsequence(a, b)
    ensures IsSubsequence(a[1..], b)
    decreases |b|, 0
  {
    if b != [] {
      if a[0] == b[0] {
        SubsequenceOfTail(a[1..], b[1..], b[0]);
        assert [b[0]] + b[1..] == b;
      } else {
        SubsequenceOfTailHead(a, b[1..]);
        SubsequenceOfTail(a[1..], b[1..], b[0]);
        assert [b[0]] + b[1..] == b;
      }
    }
  }

  /** The result of a filter is an order-preserving subsequence of its input. */
  lemma {:induction false} FilterIsSubsequence<T>(xs: seq<T>, p: T -> bool)
    ensures IsSubsequence(Filter(xs, p), xs)
  {
    if xs != [] {
      FilterIsSubsequence(xs[1..], p);
      if p(xs[0]) {
        assert Filter(xs, p) == [xs[0]] + Filter(xs[1..], p);
        assert Filter(xs, p)[1..] == Filter(xs[1..], p);
      } else {
        assert Filter(xs, p) == Filter(xs[1..], p);
        SubsequenceOfTail(Filter(xs[1..], p), xs[1..], xs[0]);
        assert [xs[0]] + xs[1..] == xs;
      }
    }
  }

  /** Position of the first occurrence of `x`, as `indexOf` returns it. */
  function IndexOf<T(==)>(xs: seq<T>, x: T): (k: nat)
    requires x in xs
    ensures k < |xs| && xs[k] == x
    ensures forall i :: 0 <= i < k ==> xs[i] != x
  {
    if xs[0] == x then 0 else 1 + IndexOf(xs[1..], x)
  }

  lemma IndexOfAppend<T>(xs: seq<T>, y: T, x: T)
    requires x in xs
    ensures IndexOf(xs + [y], x) == IndexOf(xs, x)
  {
    var k := IndexOf(xs, x);
    assert (xs + [y])[k] == x;
  }

  predicate NoDuplicates<T(==)>(xs: seq<T>)
  {
    forall i, j :: 0 <= i < j < |xs| ==> xs[i] != xs[j]
  }

  /** The entries of `xs` appear in `r` in the order of their first occurrence in `xs`. */
  predicate InFirstOccurrenceOrder<T(==)>(r: seq<T>, xs: seq<T>)
    requires forall x :: x in r ==> x in xs
  {
    forall i, j :: 0 <= i < j < |r| ==> IndexOf(xs, r[i]) < IndexOf(xs, r[j])
  }

  /** `[...new Set(xs)]`: each value once, in first-insertion order. Defined
      the way a `Set` is filled, one element at a time from the front. */
  function Dedup<T(==)>(xs: seq<T>): (r: seq<T>)
  {
    if xs == [] then []
    else
      var d := Dedup(xs[..|xs| - 1]);
      if xs[|xs| - 1] in d then d else d + [xs[|xs| - 1]]
  }

  /** The set holds each value of the input once and nothing else, in the
      order the values first appear. */
  lemma {:induction false} DedupProperties<T>(xs: seq<T>)
    ensures NoDuplicates(Dedup(xs))
    ensures forall x :: x in Dedup(xs) ==> x in xs
    ensures forall x :: x in xs ==> x in Dedup(xs)
    ensures InFirstOccurrenceOrder(Dedup(xs), xs)
  {
    if xs != [] {
      var init, last := xs[..|xs| - 1], xs[|xs| - 1];
      assert xs == init + [last];
      DedupProperties(init);
      var d := Dedup(init);
      assert Dedup(xs) == if last in d then d else d + [last];
      forall y | y in d
        ensures IndexOf(xs, y) == IndexOf(init, y)
      {
        assert y in init;
        IndexOfAppend(init, last, y);
      }
      if last !in d {
        assert last !in init;
        assert IndexOf(xs, last) == |init|;
      }
    }
  }

  /** Every value of the input is in the set. */
  lemma DedupCovers<T>(xs: seq<T>, x: T)
    requires x in xs
    ensures x in Dedup(xs)
  {
    DedupProperties(xs);
  }

  /** Adding a value to a set appends it unless it is already there. */
  lemma DedupSnoc<T>(xs: seq<T>, x: T)
    ensures Dedup(xs + [x]) == if x in Dedup(xs) then Dedup(xs) else Dedup(xs) + [x]
  {
    assert (xs + [x])[..|xs|] == xs;
  }

  /** The first value of the input is the first value of the set. */
  lemma {:induction false} DedupHead<T>(xs: seq<T>)
    requires xs != []
    ensures Dedup(xs) != [] && Dedup(xs)[0] == xs[0]
  {
    if |xs| > 1 {
      var init := xs[..|xs| - 1];
      DedupHead(init);
      assert init[0] == xs[0];
    }
  }

  /** `s.filter((v, i, self) => self.indexOf(v) === i)`: keep each value at its first index only. */
  function KeepFirstOccurrences<T(==)>(s: seq<T>): (r: seq<T>)
  {
    KeepFirstFrom(s, 0)
  }

  function KeepFirstFrom<T(==)>(s: seq<T>, i: nat): seq<T>
    requires i <= |s|
    decreases |s| - i
  {
    if i == |s| then []
    else (if IndexOf(s, s[i]) == i then [s[i]] else []) + KeepFirstFrom(s, i + 1)
  }

  /** On a duplicate-free sequence the first-occurrence filter changes nothing. */
  lemma KeepFirstOccurrencesOfDistinct<T>(s: seq<T>)
    requires NoDuplicates(s)
    ensures KeepFirstOccurrences(s) == s
  {
    KeepFirstFromDistinct(s, 0);
  }

  lemma {:induction false} KeepFirstFromDistinct<T>(s: seq<T>, i: nat)
    requires i <= |s|
    requires NoDuplicates(s)
    ensures KeepFirstFrom(s, i) == s[i..]
    decreases |s| - i
  {
    if i < |s| {
      KeepFirstFromDistinct(s, i + 1);
      assert IndexOf(s, s[i]) == i;
      assert s[i..] == [s[i]] + s[i + 1..];
    }
  }

  /** A prefix one longer is the prefix followed by the next element. */
  lemma TakeOneMore<T>(xs: seq<T>, i: nat)
    requires i < |xs|
    ensures xs[..i + 1] == xs[..i] + [xs[i]]
  {
  }

  /** Number of elements satisfying `p`. */
  function Count<T>(xs: seq<T>, p: T -> bool): (n: nat)
    ensures n <= |xs|
  {
    if xs == [] then 0 else (if p(xs[|xs| - 1]) then 1 else 0) + Count(xs[..|xs| - 1], p)
  }

  /** Counting one more element of `xs` adds one exactly when it satisfies `p`. */
  lemma CountPrefix<T>(xs: seq<T>, i: nat, p: T -> bool)
    requires i < |xs|
    ensures Count(xs[..i + 1], p) == Count(xs[..i], p) + (if p(xs[i]) then 1 else 0)
  {
    assert xs[..i + 1][..i] == xs[..i];
  }

  lemma CountIsFilterLength<T>(xs: seq<T>, p: T -> bool)
    ensures Count(xs, p) == |Filter(xs, p)|
  {
    if xs != [] {
      var init := xs[..|xs| - 1];
      assert xs == init + [xs[|xs| - 1]];
      FilterAppend(init, [xs[|xs| - 1]], p);
      CountIsFilterLength(init, p);
    }
  }
}
