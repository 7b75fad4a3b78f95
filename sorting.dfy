/**
 * `Array.prototype.sort` with a comparator, as the controllers use it
 * (latest renewal first, newest deletion first, statement rows by date,
 * report rows by day then date). The sort is stable, so it is modelled as
 * insertion sort by a lexicographically compared pair of integers: each
 * element goes after every earlier element whose key is not greater.
 */
module Sorting {

  /** Lexicographic order on pair keys. */
  predicate KeyLe(a: (int, int), b: (int, int))
  {
    a.0 < b.0 || (a.0 == b.0 && a.1 <= b.1)
  }

  predicate SortedBy<T>(s: seq<T>, key: T -> (int, int))
  {
    forall i, j | 0 <= i < j < |s| :: KeyLe(key(s[i]), key(s[j]))
  }

  /** Inserts `x` after the elements of the sorted `s` whose key is not greater. */
  function Insert<T>(x: T, s: seq<T>, key: T -> (int, int)): (r: seq<T>)
    requires SortedBy(s, key)
    ensures |r| == |s| + 1
    ensures SortedBy(r, key)
    ensures multiset(r) == multiset(s) + multiset{x}
    decreases |s|
  {
    if s == [] then [x]
    else if KeyLe(key(s[0]), key(x)) then
      var rest := Insert(x, s[1..], key);
      assert s == [s[0]] + s[1..];
      HeadBelow(s, x, rest, key);
      ConsSorted(s[0], rest, key);
      [s[0]] + rest
    else
      BelowHead(s, x, key);
      ConsSorted(x, s, key);
      [x] + s
  }

  /** An element whose key is below the head's is below all of a sorted sequence. */
  lemma BelowHead<T>(s: seq<T>, x: T, key: T -> (int, int))
    requires s != [] && SortedBy(s, key) && !KeyLe(key(s[0]), key(x))
    ensures forall i | 0 <= i < |s| :: KeyLe(key(x), key(s[i]))
  {
  }

  /** The head of a sorted sequence is below all of its tail and below `x` when it is below `x`. */
  lemma HeadBelow<T>(s: seq<T>, x: T, rest: seq<T>, key: T -> (int, int))
    requires s != [] && SortedBy(s, key) && KeyLe(key(s[0]), key(x))
    requires multiset(rest) == multiset(s[1..]) + multiset{x}
    ensures forall i | 0 <= i < |rest| :: KeyLe(key(s[0]), key(rest[i]))
  {
    forall i | 0 <= i < |rest|
      ensures KeyLe(key(s[0]), key(rest[i]))
    {
      assert rest[i] in multiset(rest);
      if rest[i] != x {
        assert rest[i] in s[1..];
      }
    }
  }

  /** An element below all of a sorted sequence can go in front of it. */
  lemma ConsSorted<T>(y: T, rest: seq<T>, key: T -> (int, int))
    requires SortedBy(rest, key)
    requires forall i | 0 <= i < |rest| :: KeyLe(key(y), key(rest[i]))
    ensures SortedBy([y] + rest, key)
  {
    var r := [y] + rest;
    forall i, j | 0 <= i < j < |r|
      ensures KeyLe(key(r[i]), key(r[j]))
    {
      assert r[j] == rest[j - 1];
      if i > 0 {
        assert r[i] == rest[i - 1];
      }
    }
  }

  /** Replacing an element by one of the same key keeps a sequence sorted. */
  lemma ReplaceSameKey<T>(s: seq<T>, i: int, y: T, key: T -> (int, int))
    requires SortedBy(s, key) && 0 <= i < |s| && key(y) == key(s[i])
    ensures SortedBy(s[i := y], key)
  {
    var r := s[i := y];
    assert forall k | 0 <= k < |s| :: key(r[k]) == key(s[k]);
  }

  /** The stable sort of `s` by `key`, ascending. */
  function SortBy<T>(s: seq<T>, key: T -> (int, int)): (r: seq<T>)
    ensures |r| == |s|
    ensures SortedBy(r, key)
    ensures multiset(r) == multiset(s)
    decreases |s|
  {
    if s == [] then []
    else
      assert s == s[..|s| - 1] + [s[|s| - 1]];
      Insert(s[|s| - 1], SortBy(s[..|s| - 1], key), key)
  }

  /** The first element after sorting has the least key of all. */
  lemma SortedFirstIsLeast<T>(s: seq<T>, key: T -> (int, int), x: T)
    requires x in s
    ensures |SortBy(s, key)| > 0 && KeyLe(key(SortBy(s, key)[0]), key(x))
  {
    var r := SortBy(s, key);
    assert x in multiset(s);
    assert x in multiset(r);
    var j :| 0 <= j < |r| && r[j] == x;
  }

  /** Sorting keeps exactly the elements it was given. */
  lemma SortByMembers<T>(s: seq<T>, key: T -> (int, int), x: T)
    ensures x in SortBy(s, key) <==> x in s
  {
    var r := SortBy(s, key);
    assert x in r <==> x in multiset(r);
    assert x in s <==> x in multiset(s);
  }
}
