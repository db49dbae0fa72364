/** Python's `list.sort(key=...)`: a stable sort by a key, modelled as insertion sort
    over a "less than or equal" relation on the elements. */
module Sorting {
  import opened Seqs

  /** `le` compares elements by a key with a total order on keys. */
  ghost predicate TotalPreorder<T(!new)>(le: (T, T) -> bool) {
    && (forall a, b :: le(a, b) || le(b, a))
    && (forall a, b, c :: le(a, b) && le(b, c) ==> le(a, c))
  }

  predicate SortedBy<T>(s: seq<T>, le: (T, T) -> bool) {
    forall i, j :: 0 <= i < j < |s| ==> le(s[i], s[j])
  }

  /** Inserts `x` before the first element it is not greater than. */
  function Insert<T>(x: T, s: seq<T>, le: (T, T) -> bool): seq<T> {
    if s == [] then [x]
    else if le(x, s[0]) then [x] + s
    else [s[0]] + Insert(x, s[1..], le)
  }

  /** Inserting adds `x` to the multiset of elements. */
  lemma {:induction false} InsertPermutation<T>(x: T, s: seq<T>, le: (T, T) -> bool)
    ensures multiset(Insert(x, s, le)) == multiset(s) + multiset{x}
  {
    if s != [] && !le(x, s[0]) {
      assert s == [s[0]] + s[1..];
      InsertPermutation(x, s[1..], le);
    }
  }

  /** The stable sort of `s`: elements with equal keys keep their input order. */
  function SortBy<T>(s: seq<T>, le: (T, T) -> bool): seq<T> {
    if s == [] then [] else Insert(s[0], SortBy(s[1..], le), le)
  }

  /** Sorting permutes its input. */
  lemma {:induction false} SortByPermutation<T>(s: seq<T>, le: (T, T) -> bool)
    ensures multiset(SortBy(s, le)) == multiset(s)
    ensures |SortBy(s, le)| == |s|
  {
    if s != [] {
      assert s == [s[0]] + s[1..];
      SortByPermutation(s[1..], le);
      InsertPermutation(s[0], SortBy(s[1..], le), le);
    }
  }

  lemma {:induction false} InsertSorted<T(!new)>(x: T, s: seq<T>, le: (T, T) -> bool)
    requires TotalPreorder(le)
    requires SortedBy(s, le)
    ensures SortedBy(Insert(x, s, le), le)
  {
    if s != [] && !le(x, s[0]) {
      var t := s[1..];
      assert SortedBy(t, le);
      InsertSorted(x, t, le);
      var r := Insert(x, t, le);
      InsertPermutation(x, t, le);
      assert le(s[0], x);
      forall k | 0 <= k < |r| ensures le(s[0], r[k]) {
        assert r[k] in multiset(r);
        assert r[k] == x || r[k] in multiset(t);
        if r[k] != x {
          var m :| 0 <= m < |t| && t[m] == r[k];
          assert t[m] == s[m + 1];
        }
      }
    }
  }

  /** Sorting by a total preorder yields a sorted permutation of the input. */
  lemma {:induction false} SortBySorted<T(!new)>(s: seq<T>, le: (T, T) -> bool)
    requires TotalPreorder(le)
    ensures SortedBy(SortBy(s, le), le)
  {
    if s != [] {
      SortBySorted(s[1..], le);
      InsertSorted(s[0], SortBy(s[1..], le), le);
    }
  }

  /** Python's string comparison: lexicographic on code points, a proper prefix first. */
  predicate LexLe(a: string, b: string) {
    if a == [] then true
    else if b == [] then false
    else if a[0] != b[0] then a[0] < b[0]
    else LexLe(a[1..], b[1..])
  }

  lemma {:induction false} LexLeTotal(a: string, b: string)
    ensures LexLe(a, b) || LexLe(b, a)
  {
    if a != [] && b != [] && a[0] == b[0] {
      LexLeTotal(a[1..], b[1..]);
    }
  }

  lemma {:induction false} LexLeTransitive(a: string, b: string, c: string)
    requires LexLe(a, b) && LexLe(b, c)
    ensures LexLe(a, c)
  {
    if a != [] && b != [] && c != [] && a[0] == b[0] && b[0] == c[0] {
      LexLeTransitive(a[1..], b[1..], c[1..]);
    }
  }

  /** Dropping elements from a sorted sequence leaves it sorted. */
  lemma {:induction false} FilterSorted<T>(s: seq<T>, p: T -> bool, le: (T, T) -> bool)
    requires SortedBy(s, le)
    ensures SortedBy(Filter(s, p), le)
  {
    if s != [] {
      var t := s[1..];
      assert SortedBy(t, le);
      FilterSorted(t, p, le);
      var r := Filter(t, p);
      forall k | 0 <= k < |r| ensures le(s[0], r[k]) {
        FilterMembership(t, p, r[k]);
        var m :| 0 <= m < |t| && t[m] == r[k];
        assert t[m] == s[m + 1];
      }
    }
  }
}
