/** "a is an order-preserving subsequence of b": the property every query of the ledger keeps. */
module Subsequences {

  /** a can be obtained from b by deleting elements, keeping the order of the rest. */
  predicate SubseqOf<T(==)>(a: seq<T>, b: seq<T>)
    decreases |b|
  {
    a == [] ||
    (b != [] &&
     ((a[|a| - 1] == b[|b| - 1] && SubseqOf(a[..|a| - 1], b[..|b| - 1])) || SubseqOf(a, b[..|b| - 1])))
  }

  /** A non-empty sequence is its front followed by its last element. */
  lemma FrontLast<T>(s: seq<T>)
    requires s != []
    ensures s == s[..|s| - 1] + [s[|s| - 1]]
  {
  }

  lemma {:induction false} SubseqRefl<T>(a: seq<T>)
    ensures SubseqOf(a, a)
    decreases |a|
  {
    if a != [] {
      SubseqRefl(a[..|a| - 1]);
    }
  }

  lemma {:induction false} SubseqTrans<T>(a: seq<T>, b: seq<T>, c: seq<T>)
    requires SubseqOf(a, b) && SubseqOf(b, c)
    ensures SubseqOf(a, c)
    decreases |c|
  {
    if a != [] {
      assert b != [] && c != [];
      var c' := c[..|c| - 1];
      if SubseqOf(b, c') {
        SubseqTrans(a, b, c');
      } else {
        var b' := b[..|b| - 1];
        assert b[|b| - 1] == c[|c| - 1] && SubseqOf(b', c');
        if a[|a| - 1] == b[|b| - 1] && SubseqOf(a[..|a| - 1], b') {
          SubseqTrans(a[..|a| - 1], b', c');
        } else {
          SubseqTrans(a, b', c');
        }
      }
    }
  }

  /** Deleting the element at index i leaves an order-preserving subsequence. */
  lemma {:induction false} RemoveAtIsSubseq<T>(s: seq<T>, i: nat)
    requires i < |s|
    ensures SubseqOf(s[..i] + s[i + 1..], s)
    decreases |s|
  {
    var p := s[..|s| - 1];
    if i == |s| - 1 {
      assert s[..i] + s[i + 1..] == p;
      SubseqRefl(p);
    } else {
      RemoveAtIsSubseq(p, i);
      var r := s[..i] + s[i + 1..];
      assert r[..|r| - 1] == p[..i] + p[i + 1..];
    }
  }
}
