/** `Array.prototype.filter` and the facts about it that the pages' filter
    chains rely on: a filter keeps exactly the matching elements, in their
    original order, and successive filters are one filter on the conjunction. */
module Seqs {

  /** `s.filter(f)`. */
  function Filter<T>(s: seq<T>, f: T -> bool): (r: seq<T>)
    ensures |r| <= |s|
  {
    if s == [] then []
    else
      var init, last := s[..|s| - 1], s[|s| - 1];
      assert s == init + [last];
      Filter(init, f) + (if f(last) then [last] else [])
  }

  /** A filter keeps exactly the elements that pass. */
  lemma {:induction false} FilterMembers<T>(s: seq<T>, f: T -> bool)
    ensures forall x | x in Filter(s, f) :: x in s && f(x)
    ensures forall x | x in s && f(x) :: x in Filter(s, f)
  {
    if s != [] {
      var init, last := s[..|s| - 1], s[|s| - 1];
      FilterMembers(init, f);
      assert s == init + [last];
    }
  }

  /** A filter keeps every copy of a passing element and no copy of any other. */
  lemma {:induction false} FilterMultiset<T>(s: seq<T>, f: T -> bool)
    ensures forall x :: multiset(Filter(s, f))[x] == if f(x) then multiset(s)[x] else 0
  {
    if s != [] {
      var init, last := s[..|s| - 1], s[|s| - 1];
      FilterMultiset(init, f);
      assert s == init + [last];
      assert multiset(s) == multiset(init) + multiset{last};
    }
  }

  /** The predicate that holds where both `f` and `g` hold. */
  function Both<T>(f: T -> bool, g: T -> bool): T -> bool {
    x => f(x) && g(x)
  }

  /** `a` is `b` with some elements left out, the rest in their original order. */
  predicate IsSubseq<T(==)>(a: seq<T>, b: seq<T>)
    decreases |b|
  {
    a == [] || (b != [] &&
      ((a[|a| - 1] == b[|b| - 1] && IsSubseq(a[..|a| - 1], b[..|b| - 1]))
       || IsSubseq(a, b[..|b| - 1])))
  }

  lemma {:induction false} FilterIsSubseq<T>(s: seq<T>, f: T -> bool)
    ensures IsSubseq(Filter(s, f), s)
  {
    if s != [] {
      var init, last := s[..|s| - 1], s[|s| - 1];
      FilterIsSubseq(init, f);
      var a := Filter(init, f);
      if f(last) {
        var r := a + [last];
        assert r[..|r| - 1] == a && r[|r| - 1] == last;
        assert IsSubseq(r, s);
      } else {
        assert Filter(s, f) == a;
      }
    }
  }

  lemma {:induction false} SubseqOfItself<T>(s: seq<T>)
    ensures IsSubseq(s, s)
  {
    if s != [] {
      SubseqOfItself(s[..|s| - 1]);
    }
  }

  /** A prefix leaves out the elements after it. */
  lemma {:induction false} PrefixIsSubseq<T>(s: seq<T>, k: nat)
    requires k <= |s|
    ensures IsSubseq(s[..k], s)
  {
    if k == |s| {
      assert s[..k] == s;
      SubseqOfItself(s);
    } else {
      var init := s[..|s| - 1];
      PrefixIsSubseq(init, k);
      assert init[..k] == s[..k];
    }
  }

  /** Filtering by `f` and then by `g` is filtering once by both. */
  lemma {:induction false} FilterFilter<T>(s: seq<T>, f: T -> bool, g: T -> bool)
    ensures Filter(Filter(s, f), g) == Filter(s, Both(f, g))
  {
    if s != [] {
      var init, last := s[..|s| - 1], s[|s| - 1];
      FilterFilter(init, f, g);
      var a := Filter(init, f);
      if f(last) {
        calc {
          Filter(Filter(s, f), g);
          Filter(a + [last], g);
          { FilterSnoc(a, last, g); }
          Filter(a, g) + (if g(last) then [last] else []);
          Filter(s, Both(f, g));
        }
      } else {
        assert Filter(s, f) == a;
        assert !Both(f, g)(last);
      }
    }
  }

  /** A filter that every element passes is a no-op. */
  lemma {:induction false} FilterAllPass<T>(s: seq<T>, f: T -> bool)
    requires forall i :: 0 <= i < |s| ==> f(s[i])
    ensures Filter(s, f) == s
  {
    if s != [] {
      var init, last := s[..|s| - 1], s[|s| - 1];
      forall i | 0 <= i < |init| ensures f(init[i]) {
        assert init[i] == s[i];
      }
      FilterAllPass(init, f);
      assert f(last);
    }
  }

  /** Filtering `s + [x]` filters `s` and then considers `x`. */
  lemma FilterSnoc<T>(s: seq<T>, x: T, f: T -> bool)
    ensures Filter(s + [x], f) == Filter(s, f) + (if f(x) then [x] else [])
  {
    assert (s + [x])[..|s|] == s;
  }

  /** Filtering a concatenation filters each part. */
  lemma {:induction false} FilterConcat<T>(a: seq<T>, b: seq<T>, f: T -> bool)
    ensures Filter(a + b, f) == Filter(a, f) + Filter(b, f)
    decreases |b|
  {
    if b == [] {
      assert a + b == a;
    } else {
      var init, last := b[..|b| - 1], b[|b| - 1];
      var ab := a + b;
      assert ab[..|ab| - 1] == a + init;
      assert ab[|ab| - 1] == last;
      FilterConcat(a, init, f);
      var tail := if f(last) then [last] else [];
      assert Filter(ab, f) == Filter(a + init, f) + tail;
      assert Filter(b, f) == Filter(init, f) + tail;
    }
  }
}
