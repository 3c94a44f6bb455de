/** Facts about mapping a function over a sequence and permuting it. */
module Sequences {

  /** `f` applied to each element of `s`, in order. */
  function MapSeq<A, B>(f: A -> B, s: seq<A>): (r: seq<B>)
    ensures |r| == |s| && forall i :: 0 <= i < |s| ==> r[i] == f(s[i])
  {
    seq(|s|, i requires 0 <= i < |s| => f(s[i]))
  }

  /** The elements around `x`, and `x` itself. */
  lemma MultisetAround<A>(b1: seq<A>, x: A, b2: seq<A>)
    ensures multiset(b1 + [x] + b2) == multiset(b1 + b2) + multiset{x}
  {
    assert multiset(b1 + [x] + b2) == multiset(b1) + multiset{x} + multiset(b2);
    assert multiset(b1 + b2) == multiset(b1) + multiset(b2);
  }

  /** Splitting `b` around one occurrence of `x` leaves a permutation of what `x` was taken from. */
  lemma RemoveOne<A>(x: A, t: seq<A>, b: seq<A>) returns (b1: seq<A>, b2: seq<A>)
    requires multiset([x] + t) == multiset(b)
    ensures b == b1 + [x] + b2 && multiset(t) == multiset(b1 + b2)
  {
    assert x in b by {
      assert x in multiset([x] + t);
    }
    var j :| 0 <= j < |b| && b[j] == x;
    b1, b2 := b[..j], b[j + 1..];
    assert b == b1 + [x] + b2;
    MultisetAround(b1, x, b2);
    assert multiset([x] + t) == multiset(t) + multiset{x};
    forall y ensures multiset(t)[y] == multiset(b1 + b2)[y] {
      assert (multiset(t) + multiset{x})[y] == (multiset(b1 + b2) + multiset{x})[y];
    }
    assert multiset(t) == multiset(b1 + b2);
  }

  /** Mapping a permutation gives a permutation of the mapped elements. */
  lemma {:induction false} MapPermutation<A, B>(f: A -> B, a: seq<A>, b: seq<A>)
    requires multiset(a) == multiset(b)
    ensures multiset(MapSeq(f, a)) == multiset(MapSeq(f, b))
    decreases |a|
  {
    if a == [] {
      assert |b| == |multiset(b)| == 0;
    } else {
      var x := a[0];
      assert a == [x] + a[1..];
      var b1, b2 := RemoveOne(x, a[1..], b);
      MapPermutation(f, a[1..], b1 + b2);
      assert MapSeq(f, a) == [f(x)] + MapSeq(f, a[1..]);
      assert MapSeq(f, b) == MapSeq(f, b1) + [f(x)] + MapSeq(f, b2);
      assert MapSeq(f, b1 + b2) == MapSeq(f, b1) + MapSeq(f, b2);
    }
  }
}
