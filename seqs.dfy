/** `filter` and list comprehensions with a condition, and what they keep. */
module Seqs {

  /** `[x for x in s if p(x)]`: the elements of `s` that satisfy `p`, in their order in `s`. */
  function Filter<T>(s: seq<T>, p: T -> bool): (r: seq<T>)
    ensures |r| <= |s|
    ensures forall i :: 0 <= i < |r| ==> p(r[i])
  {
    if s == [] then []
    else (if p(s[0]) then [s[0]] else []) + Filter(s[1..], p)
  }

  /** What the filter keeps, both directions. */
  lemma {:induction false} FilterMembership<T>(s: seq<T>, p: T -> bool, x: T)
    ensures x in Filter(s, p) <==> x in s && p(x)
  {
    if s != [] {
      FilterMembership(s[1..], p, x);
      assert s == [s[0]] + s[1..];
    }
  }

  /** Filtering distributes over concatenation: survivors keep their relative order. */
  lemma {:induction false} FilterConcat<T>(a: seq<T>, b: seq<T>, p: T -> bool)
    ensures Filter(a + b, p) == Filter(a, p) + Filter(b, p)
  {
    if a == [] {
      assert a + b == b;
    } else {
      assert (a + b)[1..] == a[1..] + b;
      FilterConcat(a[1..], b, p);
    }
  }

  /** Filtering one element at the end of a sequence. */
  lemma FilterSnoc<T>(a: seq<T>, x: T, p: T -> bool)
    ensures Filter(a + [x], p) == Filter(a, p) + (if p(x) then [x] else [])
  {
    FilterConcat(a, [x], p);
    assert Filter([x], p) == (if p(x) then [x] else []) + Filter([x][1..], p);
  }

  /** Filtering keeps every occurrence of a surviving value and drops every other one. */
  lemma {:induction false} FilterMultiset<T>(s: seq<T>, p: T -> bool, x: T)
    ensures multiset(Filter(s, p))[x] == if p(x) then multiset(s)[x] else 0
  {
    if s != [] {
      FilterMultiset(s[1..], p, x);
      assert s == [s[0]] + s[1..];
      assert multiset(s) == multiset([s[0]]) + multiset(s[1..]);
    }
  }

  /** Filtering two permutations of each other gives two permutations of each other. */
  lemma FilterPermutation<T>(a: seq<T>, b: seq<T>, p: T -> bool)
    requires multiset(a) == multiset(b)
    ensures multiset(Filter(a, p)) == multiset(Filter(b, p))
  {
    var fa, fb := multiset(Filter(a, p)), multiset(Filter(b, p));
    forall x: T ensures fa[x] == fb[x] {
      FilterMultiset(a, p, x);
      FilterMultiset(b, p, x);
    }
    MultisetExtensionality(fa, fb);
  }

  lemma MultisetExtensionality<T>(a: multiset<T>, b: multiset<T>)
    requires forall x :: a[x] == b[x]
    ensures a == b
  {
  }

  /** A filter every element passes keeps the whole sequence. */
  lemma {:induction false} FilterKeepsAll<T>(s: seq<T>, p: T -> bool)
    requires forall i :: 0 <= i < |s| ==> p(s[i])
    ensures Filter(s, p) == s
  {
    if s != [] {
      FilterKeepsAll(s[1..], p);
    }
  }

  /** A filter no element passes keeps nothing. */
  lemma {:induction false} FilterKeepsNone<T>(s: seq<T>, p: T -> bool)
    requires forall i :: 0 <= i < |s| ==> !p(s[i])
    ensures Filter(s, p) == []
  {
    if s != [] {
      FilterKeepsNone(s[1..], p);
    }
  }

  lemma AppendAssociative<T>(a: seq<T>, b: seq<T>, c: seq<T>)
    ensures (a + b) + c == a + (b + c)
  {
  }

  /** The two halves of a concatenation are recovered by slicing at the seam. */
  lemma AppendHalves<T>(a: seq<T>, b: seq<T>)
    ensures (a + b)[..|a|] == a && (a + b)[|a|..] == b
  {
  }

  /** The elements of some sequences, one sequence after the other. */
  function Flatten<T>(ss: seq<seq<T>>): seq<T>
    decreases |ss|
  {
    if ss == [] then [] else ss[0] + Flatten(ss[1..])
  }
}
