/**
  Models of the JavaScript `Array.prototype` operations the trip builder relies on:
  `filter`, and the way `slice` and `splice` read an index argument.
  Arrays are copied before they are changed in the source, so each operation is a
  function from the old sequence to the new one.
*/
module JsArray {

  /** `s` can be obtained from `t` by deleting elements: `s` keeps `t`'s order. */
  ghost predicate IsSubsequence<T>(s: seq<T>, t: seq<T>)
    decreases |t|
  {
    s == [] || (t != [] && ((s[0] == t[0] && IsSubsequence(s[1..], t[1..])) || IsSubsequence(s, t[1..])))
  }

  /** `xs.filter(p)`: exactly the elements of `xs` that satisfy `p`, in their original order. */
  function Filter<T(==,!new)>(xs: seq<T>, p: T -> bool): (r: seq<T>)
    ensures |r| <= |xs|
    ensures forall x {:trigger x in r} :: x in r <==> x in xs && p(x)
    ensures IsSubsequence(r, xs)
    decreases |xs|
  {
    if xs == [] then []
    else
      var rest := Filter(xs[1..], p);
      if p(xs[0]) then
        assert ([xs[0]] + rest)[1..] == rest;
        [xs[0]] + rest
      else
        rest
  }

  lemma {:induction false} FilterAppend<T(!new)>(a: seq<T>, b: seq<T>, p: T -> bool)
    ensures Filter(a + b, p) == Filter(a, p) + Filter(b, p)
    decreases |a|
  {
    if a != [] {
      var x, rest := a[0], a[1..];
      var head := if p(x) then [x] else [];
      assert (a + b)[0] == x && (a + b)[1..] == rest + b;
      FilterAppend(rest, b, p);
      assert Filter(a + b, p) == head + Filter(rest + b, p);
      assert Filter(a, p) == head + Filter(rest, p);
      assert head + (Filter(rest, p) + Filter(b, p)) == (head + Filter(rest, p)) + Filter(b, p);
    } else {
      assert a + b == b;
    }
  }

  /** Filtering by a predicate every element satisfies gives the sequence back. */
  lemma {:induction false} FilterKeepsAll<T(!new)>(xs: seq<T>, p: T -> bool)
    requires forall x :: x in xs ==> p(x)
    ensures Filter(xs, p) == xs
    decreases |xs|
  {
    if xs != [] {
      assert forall x :: x in xs[1..] ==> x in xs;
      FilterKeepsAll(xs[1..], p);
      assert [xs[0]] + xs[1..] == xs;
    }
  }

  /** Two predicates that agree on the elements of `xs` filter it alike. */
  lemma {:induction false} FilterCongruent<T(!new)>(xs: seq<T>, p: T -> bool, q: T -> bool)
    requires forall x :: x in xs ==> p(x) == q(x)
    ensures Filter(xs, p) == Filter(xs, q)
    decreases |xs|
  {
    if xs != [] {
      assert forall x :: x in xs[1..] ==> x in xs;
      FilterCongruent(xs[1..], p, q);
    }
  }

  /** Filtering twice is filtering once by the conjunction. */
  lemma {:induction false} FilterOfFilter<T(!new)>(xs: seq<T>, p: T -> bool, q: T -> bool, pq: T -> bool)
    requires forall x :: pq(x) == (p(x) && q(x))
    ensures Filter(Filter(xs, p), q) == Filter(xs, pq)
    decreases |xs|
  {
    if xs != [] {
      var head := if p(xs[0]) then [xs[0]] else [];
      assert Filter(xs, p) == head + Filter(xs[1..], p);
      FilterAppend(head, Filter(xs[1..], p), q);
      FilterOfFilter(xs[1..], p, q, pq);
      if p(xs[0]) {
        assert Filter(head, q) == Filter(head[1..], q) + (if q(xs[0]) then [xs[0]] else []) by {
          assert head[1..] == [];
        }
      }
    }
  }

  /** The multiset of a filtered list: the head when it passes, plus the filtered tail. */
  lemma FilterHeadMultiset<T(!new)>(xs: seq<T>, p: T -> bool)
    requires xs != []
    ensures multiset(Filter(xs, p)) == (if p(xs[0]) then multiset{xs[0]} else multiset{}) + multiset(Filter(xs[1..], p))
  {
    if p(xs[0]) {
      assert Filter(xs, p) == [xs[0]] + Filter(xs[1..], p);
    }
  }

  /** A predicate and its negation split `xs` into two parts whose multisets add up to `xs`'s. */
  lemma {:induction false} FilterSplits<T(!new)>(xs: seq<T>, p: T -> bool, q: T -> bool)
    requires forall x :: q(x) == !p(x)
    ensures multiset(Filter(xs, p)) + multiset(Filter(xs, q)) == multiset(xs)
    decreases |xs|
  {
    if xs != [] {
      var x, rest := xs[0], xs[1..];
      FilterSplits(rest, p, q);
      FilterHeadMultiset(xs, p);
      FilterHeadMultiset(xs, q);
      assert xs == [x] + rest;
      var kept, dropped := multiset(Filter(rest, p)), multiset(Filter(rest, q));
      if p(x) {
        assert multiset(Filter(xs, p)) + multiset(Filter(xs, q)) == multiset{x} + (kept + dropped);
      } else {
        assert multiset(Filter(xs, p)) + multiset(Filter(xs, q)) == multiset{x} + (kept + dropped);
      }
    }
  }

  /**
    How `slice` and `splice` read an index argument for an array of length `len`:
    a negative index counts back from the end, and the result is clamped to `0..len`.
  */
  function RelativeIndex(k: int, len: nat): (r: nat)
    ensures r <= len
    ensures 0 <= k <= len ==> r == k
    ensures k < 0 && 0 <= len + k ==> r == len + k
    ensures len + k < 0 ==> r == 0
    ensures len < k ==> r == len
  {
    if k < 0 then (if len + k < 0 then 0 else len + k)
    else if k > len then len
    else k
  }

  /** `xs.slice(0, end)`. */
  function SliceTo<T>(xs: seq<T>, end: int): (r: seq<T>)
    ensures |r| == RelativeIndex(end, |xs|)
    ensures r <= xs
  {
    xs[..RelativeIndex(end, |xs|)]
  }

  /**
    A copy of `xs` after `xs.splice(k, 0, x)`: `x` now sits at position `RelativeIndex(k, |xs|)`,
    and deleting that position gives `xs` back.
  */
  function InsertAt<T(==,!new)>(xs: seq<T>, k: int, x: T): (r: seq<T>)
    ensures |r| == |xs| + 1
    ensures r[RelativeIndex(k, |xs|)] == x
    ensures r[..RelativeIndex(k, |xs|)] + r[RelativeIndex(k, |xs|) + 1..] == xs
    ensures multiset(r) == multiset(xs) + multiset{x}
  {
    var c := RelativeIndex(k, |xs|);
    var r := xs[..c] + [x] + xs[c..];
    assert r[..c] == xs[..c] && r[c + 1..] == xs[c..];
    assert xs == xs[..c] + xs[c..];
    r
  }
  /** Cancelling a common part from both sides of a multiset equation, in the shape a removal needs. */
  lemma MultisetRemovalCancel<T>(a: multiset<T>, b: multiset<T>, x: multiset<T>, y: multiset<T>, w: multiset<T>)
    requires a + x == b + y && y + w == x
    ensures a + w == b
  {
    forall e
      ensures (a + w)[e] == b[e]
    {
      assert (a + x)[e] == (b + y)[e];
    }
  }

  /** Cancelling a common part from both sides of a multiset equation, in the shape an insertion needs. */
  lemma MultisetInsertionCancel<T>(a: multiset<T>, b: multiset<T>, x: multiset<T>, y: multiset<T>, z: multiset<T>)
    requires a + x == b + y && y == x + z
    ensures a == b + z
  {
    forall e
      ensures a[e] == (b + z)[e]
    {
      assert (a + x)[e] == (b + y)[e];
    }
  }
  /** A removal of `w` followed by an insertion of `z`, accounted as one multiset equation. */
  lemma MultisetChain<T>(d: multiset<T>, r: multiset<T>, f: multiset<T>, w: multiset<T>, z: multiset<T>)
    requires r + w == d && f == r + z
    ensures f + w == d + z
  {
    forall e
      ensures (f + w)[e] == (d + z)[e]
    {
      assert (r + w)[e] == d[e];
    }
  }
  /** A common part cancels from both sides of a multiset equation. */
  lemma MultisetCancel<T>(l: multiset<T>, r: multiset<T>, c: multiset<T>)
    requires l + c == r + c
    ensures l == r
  {
    forall e
      ensures l[e] == r[e]
    {
      assert (l + c)[e] == (r + c)[e];
    }
  }
  /** Filtering out exactly one position shortens a sequence by one. */
  lemma FilterDropsOne<T(!new)>(xs: seq<T>, p: T -> bool, i: int)
    requires 0 <= i < |xs| && !p(xs[i])
    requires forall j :: 0 <= j < |xs| && j != i ==> p(xs[j])
    ensures |Filter(xs, p)| == |xs| - 1
  {
    var front, back := xs[..i], xs[i + 1..];
    assert xs == front + [xs[i]] + back;
    FilterAppend(front + [xs[i]], back, p);
    FilterAppend(front, [xs[i]], p);
    assert Filter([xs[i]], p) == [];
    forall x | x in front ensures p(x) {
      var q :| 0 <= q < |front| && front[q] == x;
      assert xs[q] == x;
    }
    forall x | x in back ensures p(x) {
      var q :| 0 <= q < |back| && back[q] == x;
      assert xs[i + 1 + q] == x;
    }
    FilterKeepsAll(front, p);
    FilterKeepsAll(back, p);
  }
}
