/** A stable sort by a "comes before" relation, as JavaScript's
    `Array.prototype.sort` behaves with a comparator: an element moves in
    front of another only when the comparator says it comes strictly before. */
module Sorting {

  /** No later element comes strictly before an earlier one. */
  predicate SortedBy<T>(s: seq<T>, before: (T, T) -> bool) {
    forall i, j :: 0 <= i < j < |s| ==> !before(s[j], s[i])
  }

  /** `before` is a strict weak order: asymmetric, and "not before" is transitive. */
  ghost predicate StrictWeakOrder<T(!new)>(before: (T, T) -> bool) {
    && (forall a, b :: before(a, b) ==> !before(b, a))
    && (forall a, b, c :: !before(a, b) && !before(b, c) ==> !before(a, c))
  }

  /** Inserts `x` in front of the first element that does not come strictly before it. */
  function Insert<T>(x: T, s: seq<T>, before: (T, T) -> bool): (r: seq<T>)
    ensures |r| == |s| + 1
  {
    if s == [] || !before(s[0], x) then [x] + s
    else [s[0]] + Insert(x, s[1..], before)
  }

  /** Insertion sort: each element goes in front of the ones after it that
      do not come strictly before it, which keeps equal elements in input order. */
  function Sort<T>(s: seq<T>, before: (T, T) -> bool): (r: seq<T>)
    ensures |r| == |s|
  {
    if s == [] then [] else Insert(s[0], Sort(s[1..], before), before)
  }

  /** The elements of `s` satisfying `p`, in order. */
  function Filter<T>(s: seq<T>, p: T -> bool): (r: seq<T>)
    ensures |r| <= |s|
    ensures forall k :: 0 <= k < |r| ==> p(r[k])
  {
    if s == [] then [] else (if p(s[0]) then [s[0]] else []) + Filter(s[1..], p)
  }

  lemma {:induction false} InsertPermutes<T>(x: T, s: seq<T>, before: (T, T) -> bool)
    ensures multiset(Insert(x, s, before)) == multiset([x] + s)
  {
    if s != [] && before(s[0], x) {
      InsertPermutes(x, s[1..], before);
      assert s == [s[0]] + s[1..];
    }
  }

  /** The sort is a permutation of its input. */
  lemma {:induction false} SortPermutes<T>(s: seq<T>, before: (T, T) -> bool)
    ensures multiset(Sort(s, before)) == multiset(s)
  {
    if s != [] {
      SortPermutes(s[1..], before);
      InsertPermutes(s[0], Sort(s[1..], before), before);
      assert s == [s[0]] + s[1..];
    }
  }

  lemma {:induction false} InsertSorted<T(!new)>(x: T, s: seq<T>, before: (T, T) -> bool)
    requires StrictWeakOrder(before)
    requires SortedBy(s, before)
    ensures SortedBy(Insert(x, s, before), before)
  {
    if s == [] {
    } else if !before(s[0], x) {
      forall k | 0 <= k < |s|
        ensures !before(s[k], x)
      {
        if k > 0 {
          assert !before(s[k], s[0]);
        }
      }
      SortedCons(x, s, before);
    } else {
      assert SortedBy(s[1..], before) by {
        forall i, j | 0 <= i < j < |s[1..]|
          ensures !before(s[1..][j], s[1..][i])
        {
          assert s[1..][j] == s[j + 1] && s[1..][i] == s[i + 1];
        }
      }
      InsertSorted(x, s[1..], before);
      InsertPermutes(x, s[1..], before);
      var rest := Insert(x, s[1..], before);
      forall k | 0 <= k < |rest|
        ensures !before(rest[k], s[0])
      {
        assert rest[k] in multiset([x] + s[1..]);
        if rest[k] != x {
          var m :| 0 <= m < |s[1..]| && s[1..][m] == rest[k];
          assert !before(s[m + 1], s[0]);
        } else {
          assert before(s[0], x);
        }
      }
      SortedCons(s[0], rest, before);
    }
  }

  /** An element that nothing in a sorted list comes strictly before may go
      in front of it. */
  lemma SortedCons<T>(y: T, rest: seq<T>, before: (T, T) -> bool)
    requires SortedBy(rest, before)
    requires forall k :: 0 <= k < |rest| ==> !before(rest[k], y)
    ensures SortedBy([y] + rest, before)
  {
    var r := [y] + rest;
    forall i, j | 0 <= i < j < |r|
      ensures !before(r[j], r[i])
    {
      assert r[j] == rest[j - 1];
      if i > 0 {
        assert r[i] == rest[i - 1];
      }
    }
  }

  /** The sort orders its input when `before` is a strict weak order. */
  lemma {:induction false} SortSorted<T(!new)>(s: seq<T>, before: (T, T) -> bool)
    requires StrictWeakOrder(before)
    ensures SortedBy(Sort(s, before), before)
  {
    if s != [] {
      SortSorted(s[1..], before);
      InsertSorted(s[0], Sort(s[1..], before), before);
    }
  }

  /** Sorting an already sorted list changes nothing. */
  lemma {:induction false} SortOfSorted<T>(s: seq<T>, before: (T, T) -> bool)
    requires SortedBy(s, before)
    ensures Sort(s, before) == s
  {
    if s != [] {
      assert SortedBy(s[1..], before) by {
        forall i, j | 0 <= i < j < |s[1..]|
          ensures !before(s[1..][j], s[1..][i])
        {
          assert s[1..][j] == s[j + 1] && s[1..][i] == s[i + 1];
        }
      }
      SortOfSorted(s[1..], before);
      if |s| > 1 {
        assert !before(s[1], s[0]);
      }
      assert s == [s[0]] + s[1..];
    }
  }

  lemma {:induction false} InsertStable<T>(x: T, s: seq<T>, before: (T, T) -> bool, p: T -> bool)
    requires forall a, b :: p(a) && p(b) ==> !before(a, b)
    ensures Filter(Insert(x, s, before), p) == Filter([x] + s, p)
  {
    assert ([x] + s)[1..] == s;
    if s != [] && before(s[0], x) {
      InsertStable(x, s[1..], before, p);
      var rest := Filter(s[1..], p);
      assert ([x] + s[1..])[1..] == s[1..];
      assert Filter(s, p) == (if p(s[0]) then [s[0]] else []) + rest;
      if p(x) {
        assert !p(s[0]);
        assert Filter(Insert(x, s, before), p) == [x] + rest;
      } else {
        assert Filter(Insert(x, s, before), p) == Filter(s, p);
      }
    }
  }

  /** Stability: within any class of mutually unordered elements, the sort
      keeps the input order. */
  lemma {:induction false} SortStable<T>(s: seq<T>, before: (T, T) -> bool, p: T -> bool)
    requires forall a, b :: p(a) && p(b) ==> !before(a, b)
    ensures Filter(Sort(s, before), p) == Filter(s, p)
  {
    if s != [] {
      SortStable(s[1..], before, p);
      InsertStable(s[0], Sort(s[1..], before), before, p);
      assert ([s[0]] + Sort(s[1..], before))[1..] == Sort(s[1..], before);
    }
  }

  /** No two elements of `s` have the same key. */
  ghost predicate KeysDistinct<T, K>(s: seq<T>, key: T -> K) {
    forall i, j :: 0 <= i < j < |s| ==> key(s[i]) != key(s[j])
  }

  /** Keys that are pairwise distinct stay pairwise distinct after sorting. */
  lemma {:induction false} SortKeepsKeysDistinct<T, K>(s: seq<T>, before: (T, T) -> bool, key: T -> K)
    requires KeysDistinct(s, key)
    ensures KeysDistinct(Sort(s, before), key)
  {
    if s != [] {
      var t := Sort(s[1..], before);
      assert KeysDistinct(s[1..], key) by {
        forall i, j | 0 <= i < j < |s[1..]|
          ensures key(s[1..][i]) != key(s[1..][j])
        {
          assert s[1..][i] == s[i + 1] && s[1..][j] == s[j + 1];
        }
      }
      SortKeepsKeysDistinct(s[1..], before, key);
      SortPermutes(s[1..], before);
      forall k | 0 <= k < |t|
        ensures key(t[k]) != key(s[0])
      {
        assert t[k] in multiset(s[1..]);
        var m :| 0 <= m < |s[1..]| && s[1..][m] == t[k];
        assert s[1..][m] == s[m + 1];
      }
      InsertKeepsKeysDistinct(s[0], t, before, key);
    }
  }

  lemma {:induction false} InsertKeepsKeysDistinct<T, K>(x: T, s: seq<T>, before: (T, T) -> bool, key: T -> K)
    requires KeysDistinct(s, key)
    requires forall k :: 0 <= k < |s| ==> key(s[k]) != key(x)
    ensures KeysDistinct(Insert(x, s, before), key)
  {
    if s == [] || !before(s[0], x) {
      DistinctCons(x, s, key);
    } else {
      assert KeysDistinct(s[1..], key) by {
        forall i, j | 0 <= i < j < |s[1..]|
          ensures key(s[1..][i]) != key(s[1..][j])
        {
          assert s[1..][i] == s[i + 1] && s[1..][j] == s[j + 1];
        }
      }
      InsertKeepsKeysDistinct(x, s[1..], before, key);
      InsertPermutes(x, s[1..], before);
      var rest := Insert(x, s[1..], before);
      forall k | 0 <= k < |rest|
        ensures key(rest[k]) != key(s[0])
      {
        assert rest[k] in multiset([x] + s[1..]);
        if rest[k] != x {
          var m :| 0 <= m < |s[1..]| && s[1..][m] == rest[k];
          assert s[1..][m] == s[m + 1];
        }
      }
      DistinctCons(s[0], rest, key);
    }
  }

  /** An element whose key no element of the list has may go in front of it. */
  lemma DistinctCons<T, K>(y: T, rest: seq<T>, key: T -> K)
    requires KeysDistinct(rest, key)
    requires forall k :: 0 <= k < |rest| ==> key(rest[k]) != key(y)
    ensures KeysDistinct([y] + rest, key)
  {
    var r := [y] + rest;
    forall i, j | 0 <= i < j < |r|
      ensures key(r[i]) != key(r[j])
    {
      assert r[j] == rest[j - 1];
      if i > 0 {
        assert r[i] == rest[i - 1];
      }
    }
  }


  /** `Filter` keeps everything when every element satisfies `p`. */
  lemma {:induction false} FilterKeepsAll<T>(s: seq<T>, p: T -> bool)
    requires forall k :: 0 <= k < |s| ==> p(s[k])
    ensures Filter(s, p) == s
  {
    if s != [] {
      FilterKeepsAll(s[1..], p);
      assert s == [s[0]] + s[1..];
    }
  }

  /** `Filter` yields nothing exactly when no element satisfies `p`. */
  lemma {:induction false} FilterEmptyIff<T>(s: seq<T>, p: T -> bool)
    ensures Filter(s, p) == [] <==> forall k :: 0 <= k < |s| ==> !p(s[k])
  {
    if s != [] {
      FilterEmptyIff(s[1..], p);
      assert forall k :: 1 <= k < |s| ==> s[k] == s[1..][k - 1];
    }
  }

  /** Whether some element satisfies `p` does not depend on the order. */
  lemma PermutationKeepsSome<T>(s: seq<T>, t: seq<T>, p: T -> bool)
    requires multiset(s) == multiset(t)
    ensures (exists k :: 0 <= k < |s| && p(s[k])) <==> (exists k :: 0 <= k < |t| && p(t[k]))
  {
    if k :| 0 <= k < |s| && p(s[k]) {
      assert s[k] in multiset(t);
      var m :| 0 <= m < |t| && t[m] == s[k];
    }
    if k :| 0 <= k < |t| && p(t[k]) {
      assert t[k] in multiset(s);
      var m :| 0 <= m < |s| && s[m] == t[k];
    }
  }

  /** `Filter` only keeps elements of its input. */
  lemma {:induction false} FilterSubset<T>(s: seq<T>, p: T -> bool)
    ensures forall x :: x in Filter(s, p) ==> x in s
  {
    if s != [] {
      FilterSubset(s[1..], p);
    }
  }

  /** Filtering a list with one more element at the end. */
  lemma {:induction false} FilterSnoc<T>(s: seq<T>, x: T, p: T -> bool)
    ensures Filter(s + [x], p) == Filter(s, p) + (if p(x) then [x] else [])
  {
    if s == [] {
      assert [] + [x] == [x];
    } else {
      var head := if p(s[0]) then [s[0]] else [];
      var tail := if p(x) then [x] else [];
      calc {
        Filter(s + [x], p);
      == { assert s + [x] == [s[0]] + (s[1..] + [x]); FilterCons(s[0], s[1..] + [x], p); }
        head + Filter(s[1..] + [x], p);
      == { FilterSnoc(s[1..], x, p); }
        head + (Filter(s[1..], p) + tail);
      ==
        (head + Filter(s[1..], p)) + tail;
      == { assert s == [s[0]] + s[1..]; FilterCons(s[0], s[1..], p); }
        Filter(s, p) + tail;
      }
    }
  }

  /** Filtering a list with one more element at the front. */
  lemma FilterCons<T>(x: T, s: seq<T>, p: T -> bool)
    ensures Filter([x] + s, p) == (if p(x) then [x] else []) + Filter(s, p)
  {
    assert ([x] + s)[1..] == s;
  }
}
