/** `Array.prototype.filter` and the subsequence relation it establishes. */
module Seqs {

  /** `a` is obtained from `b` by deleting elements, keeping the order. */
  predicate SubseqOf<T(==)>(a: seq<T>, b: seq<T>)
    decreases |b|
  {
    a == [] || (b != [] && ((a[0] == b[0] && SubseqOf(a[1..], b[1..])) || SubseqOf(a, b[1..])))
  }

  /** A subsequence keeps no more copies of any element than the original. */
  lemma {:induction false} SubseqOfMultiset<T>(a: seq<T>, b: seq<T>)
    requires SubseqOf(a, b)
    ensures multiset(a) <= multiset(b)
    decreases |b|
  {
    if a != [] {
      if a[0] == b[0] && SubseqOf(a[1..], b[1..]) {
        SubseqOfMultiset(a[1..], b[1..]);
        assert a == [a[0]] + a[1..];
        assert b == [b[0]] + b[1..];
      } else {
        SubseqOfMultiset(a, b[1..]);
        assert b == [b[0]] + b[1..];
      }
    }
  }

  /** `xs.filter(p)`: the elements satisfying `p`, in their original order. */
  function Filter<T>(xs: seq<T>, p: T -> bool): (r: seq<T>)
    ensures SubseqOf(r, xs)
    ensures forall x :: x in r ==> x in xs && p(x)
    ensures forall x :: x in xs && p(x) ==> x in r
    ensures forall x :: x in xs ==> multiset(r)[x] == if p(x) then multiset(xs)[x] else 0
    ensures (forall x :: x in xs ==> p(x)) ==> r == xs
    decreases |xs|
  {
    if xs == [] then []
    else
      var rest := Filter(xs[1..], p);
      assert forall x :: x in xs && x != xs[0] ==> x in xs[1..];
      assert xs == [xs[0]] + xs[1..];
      if p(xs[0]) then
        assert ([xs[0]] + rest)[1..] == rest;
        [xs[0]] + rest
      else rest
  }
}
