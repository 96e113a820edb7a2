/**
 * The collection queries the handlers issue to the database, on sequences:
 * `find_one` is the first match in insertion order, `find` keeps the matches,
 * and `sort(key, -1)` orders them newest first.
 */
module Sequences {
  import opened Wrappers

  /** The elements satisfying `p`, in their original order (`find`, or a filtering comprehension). */
  function Select<T(!new)>(s: seq<T>, p: T -> bool): (r: seq<T>)
    ensures |r| <= |s|
    ensures forall x :: x in r <==> x in s && p(x)
    ensures multiset(r) <= multiset(s)
  {
    if s == [] then []
    else
      assert s == [s[0]] + s[1..];
      (if p(s[0]) then [s[0]] else []) + Select(s[1..], p)
  }

  /** Every copy of a satisfying element is kept, and no copy of any other. */
  lemma {:induction false} SelectCount<T(!new)>(s: seq<T>, p: T -> bool, x: T)
    ensures multiset(Select(s, p))[x] == if p(x) then multiset(s)[x] else 0
  {
    if s != [] {
      assert s == [s[0]] + s[1..];
      SelectCount(s[1..], p, x);
    }
  }

  /** Selections by two conditions that agree on every element are equal as multisets. */
  lemma SelectSame<T(!new)>(s: seq<T>, p: T -> bool, q: T -> bool)
    requires forall x :: x in s ==> p(x) == q(x)
    ensures multiset(Select(s, p)) == multiset(Select(s, q))
  {
    forall x ensures multiset(Select(s, p))[x] == multiset(Select(s, q))[x] {
      SelectCount(s, p, x);
      SelectCount(s, q, x);
    }
  }

  /** Changing one element changes the number selected by at most the two verdicts on it. */
  lemma {:induction false} SelectUpdate<T(!new)>(s: seq<T>, i: nat, y: T, p: T -> bool)
    requires i < |s|
    ensures |Select(s[i := y], p)| + (if p(s[i]) then 1 else 0)
         == |Select(s, p)| + (if p(y) then 1 else 0)
  {
    var t := s[i := y];
    if i == 0 {
      assert t[1..] == s[1..];
    } else {
      assert t[0] == s[0] && t[1..] == s[1..][i - 1 := y];
      SelectUpdate(s[1..], i - 1, y, p);
    }
  }

  /** Two selections with disjoint conditions together take at most every element once. */
  lemma {:induction false} SelectDisjoint<T(!new)>(s: seq<T>, p: T -> bool, q: T -> bool)
    requires forall x :: !(p(x) && q(x))
    ensures |Select(s, p)| + |Select(s, q)| <= |s|
  {
    if s != [] {
      SelectDisjoint(s[1..], p, q);
    }
  }

  /** The position of the first element satisfying `p` (`find_one`). */
  function FirstIndex<T>(s: seq<T>, p: T -> bool): (r: Option<nat>)
    ensures r.Some? ==> r.value < |s| && p(s[r.value])
    ensures r.Some? ==> forall j :: 0 <= j < r.value ==> !p(s[j])
    ensures r.None? <==> forall j :: 0 <= j < |s| ==> !p(s[j])
  {
    if s == [] then None
    else if p(s[0]) then Some(0)
    else
      match FirstIndex(s[1..], p)
      case None => None
      case Some(i) => Some(i + 1)
  }

  /** Keys do not increase from left to right. */
  predicate SortedDesc<T>(s: seq<T>, key: T -> int) {
    forall i, j :: 0 <= i < j < |s| ==> key(s[i]) >= key(s[j])
  }

  /** Splicing `x` in at the boundary between larger and not-larger keys keeps the order. */
  lemma SpliceSorted<T>(x: T, s: seq<T>, k: nat, key: T -> int)
    requires SortedDesc(s, key) && k <= |s|
    requires forall j :: 0 <= j < k ==> key(s[j]) >= key(x)
    requires forall j :: k <= j < |s| ==> key(s[j]) <= key(x)
    ensures SortedDesc(s[..k] + [x] + s[k..], key)
  {
  }

  /** The number of leading elements whose key is larger than `x`'s. */
  function InsertionPoint<T>(x: T, s: seq<T>, key: T -> int): (k: nat)
    requires SortedDesc(s, key)
    ensures k <= |s|
    ensures forall j :: 0 <= j < k ==> key(s[j]) > key(x)
    ensures forall j :: k <= j < |s| ==> key(s[j]) <= key(x)
  {
    if s == [] || key(s[0]) <= key(x) then 0
    else 1 + InsertionPoint(x, s[1..], key)
  }

  /** Places `x` in front of the first element whose key is not larger. */
  function InsertDesc<T>(x: T, s: seq<T>, key: T -> int): (r: seq<T>)
    requires SortedDesc(s, key)
    ensures SortedDesc(r, key)
    ensures multiset(r) == multiset(s) + multiset{x}
  {
    var k := InsertionPoint(x, s, key);
    SpliceSorted(x, s, k, key);
    assert s == s[..k] + s[k..];
    s[..k] + [x] + s[k..]
  }

  /** Insertion sort, newest (largest key) first. */
  function SortDesc<T>(s: seq<T>, key: T -> int): (r: seq<T>)
    ensures SortedDesc(r, key)
    ensures multiset(r) == multiset(s)
  {
    if s == [] then []
    else
      assert s == [s[0]] + s[1..];
      InsertDesc(s[0], SortDesc(s[1..], key), key)
  }

  /** `find(query).sort(key, -1)`: exactly the matching elements, largest key first. */
  function FindSorted<T(!new)>(s: seq<T>, p: T -> bool, key: T -> int): (r: seq<T>)
    ensures forall x :: x in r <==> x in s && p(x)
    ensures multiset(r) == multiset(Select(s, p))
    ensures multiset(r) <= multiset(s)
    ensures SortedDesc(r, key)
  {
    var selected := Select(s, p);
    var r := SortDesc(selected, key);
    assert forall x :: x in r <==> x in multiset(r);
    assert forall x :: x in selected <==> x in multiset(selected);
    r
  }
}
