/** In-order subsequences. */
module Subsequences {

  /** `a` is what is left of `b` after leaving out some elements. */
  predicate Subseq<T(==)>(a: seq<T>, b: seq<T>)
  {
    a == [] ||
    (b != [] &&
     var b0 := b[..|b| - 1];
     Subseq(a, b0) || (a[|a| - 1] == b[|b| - 1] && Subseq(a[..|a| - 1], b0)))
  }

  lemma {:induction false} SubseqSelf<T>(a: seq<T>)
    ensures Subseq(a, a)
  {
    if a != [] {
      SubseqSelf(a[..|a| - 1]);
    }
  }

  lemma {:induction false} SubseqConcat<T>(a: seq<T>, b: seq<T>, c: seq<T>, d: seq<T>)
    requires Subseq(a, b) && Subseq(c, d)
    ensures Subseq(a + c, b + d)
    decreases |d|
  {
    if d == [] {
      assert a + c == a && b + d == b;
    } else {
      var d0 := d[..|d| - 1];
      assert (b + d)[..|b + d| - 1] == b + d0;
      if Subseq(c, d0) {
        SubseqConcat(a, b, c, d0);
      } else {
        var c0 := c[..|c| - 1];
        SubseqConcat(a, b, c0, d0);
        assert (a + c)[..|a + c| - 1] == a + c0;
      }
    }
  }

  lemma SubseqOfPrefix<T>(a: seq<T>, b: seq<T>, c: seq<T>)
    requires Subseq(a, b)
    ensures Subseq(a, b + c)
  {
    SubseqConcat(a, b, [], c);
    assert a + [] == a;
  }

  lemma PrefixIsSubseq<T>(a: seq<T>, b: seq<T>)
    requires a <= b
    ensures Subseq(a, b)
  {
  }

  lemma {:induction false} SubseqTrans<T>(a: seq<T>, b: seq<T>, c: seq<T>)
    requires Subseq(a, b) && Subseq(b, c)
    ensures Subseq(a, c)
    decreases |c|, |b|
  {
    if a != [] {
      var c0 := c[..|c| - 1];
      if Subseq(b, c0) {
        SubseqTrans(a, b, c0);
      } else {
        var b0 := b[..|b| - 1];
        if Subseq(a, b0) {
          SubseqTrans(a, b0, c0);
        } else {
          SubseqTrans(a[..|a| - 1], b0, c0);
        }
      }
    }
  }

  /** Elements that occur once in `b` occur at most once in a subsequence of it. */
  lemma {:induction false} SubseqCounts<T>(a: seq<T>, b: seq<T>)
    requires Subseq(a, b)
    ensures multiset(a) <= multiset(b)
  {
    if a != [] {
      var b0 := b[..|b| - 1];
      assert b == b0 + [b[|b| - 1]];
      if Subseq(a, b0) {
        SubseqCounts(a, b0);
      } else {
        var a0 := a[..|a| - 1];
        assert a == a0 + [a[|a| - 1]];
        SubseqCounts(a0, b0);
      }
    }
  }
}
