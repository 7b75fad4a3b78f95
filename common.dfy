/**
 * Values and helpers shared by every module of the ledger model: optional
 * JSON fields, handler status codes, timestamps, and the sums and filters
 * the controllers compute with `reduce`, `forEach` and `filter`.
 */
module Common {

  /** A JSON field that may be absent (`undefined` or `null`). */
  datatype Option<T> = None | Some(value: T)
  {
    function GetOr(default: T): (r: T)
      ensures Some? ==> r == value
      ensures None? ==> r == default
    {
      if Some? then value else default
    }
  }

  /** The HTTP status a handler answers with. */
  datatype Status = Ok | Created | BadRequest | NotFound

  /**
   * A point in time in milliseconds since the epoch. A calendar date
   * `YYYY-MM-DD` is represented by the time of its midnight, so comparing
   * two date strings and comparing their times agree.
   */
  type Time = int

  /** Milliseconds in one day. */
  const DayMs: int := 86400000

  /** A string field read with JavaScript truthiness: absent and `''` are false. */
  predicate Truthy(s: Option<string>)
  {
    s.Some? && s.value != ""
  }

  /** `s || fallback` for a string field. */
  function OrElse(s: Option<string>, fallback: string): string
  {
    if Truthy(s) then s.value else fallback
  }

  /** A numeric field read with JavaScript truthiness: absent and `0` are false. */
  predicate NonZero(n: Option<int>)
  {
    n.Some? && n.value != 0
  }

  /** `parseFloat(x) || 0`: an absent or non-numeric field reads as 0. */
  function Num(n: Option<int>): int
  {
    n.GetOr(0)
  }

  /** A stored list read with `readJSON(path) || []`. */
  function Read<K, V>(m: map<K, seq<V>>, k: K): (r: seq<V>)
    ensures k in m ==> r == m[k]
    ensures k !in m ==> r == []
  {
    if k in m then m[k] else []
  }

  /**
   * The total of `f` over `s`, accumulated from the front as `reduce` does:
   * the sum of a list is the sum of all but its last element plus the last.
   */
  function Sum<T>(s: seq<T>, f: T -> int): int
    decreases |s|
  {
    if s == [] then 0 else Sum(s[..|s| - 1], f) + f(s[|s| - 1])
  }

  lemma {:induction false} SumConcat<T>(a: seq<T>, b: seq<T>, f: T -> int)
    ensures Sum(a + b, f) == Sum(a, f) + Sum(b, f)
    decreases |b|
  {
    if b == [] {
      assert a + b == a;
    } else {
      assert (a + b)[..|a + b| - 1] == a + b[..|b| - 1];
      SumConcat(a, b[..|b| - 1], f);
    }
  }

  /** Extending a prefix by one element adds that element to the sum. */
  lemma SumStep<T>(s: seq<T>, i: int, f: T -> int)
    requires 0 <= i < |s|
    ensures Sum(s[..i + 1], f) == Sum(s[..i], f) + f(s[i])
  {
    assert s[..i + 1][..i] == s[..i];
  }

  /** An element of a non-empty set, chosen once and for all. */
  ghost function Pick<K>(ks: set<K>): (k: K)
    requires ks != {}
    ensures k in ks
  {
    var k :| k in ks; k
  }

  /** The total of `f` over a set, whose order does not matter. */
  ghost function SumSet<K>(ks: set<K>, f: K -> int): int
    decreases |ks|
  {
    if ks == {} then 0 else f(Pick(ks)) + SumSet(ks - {Pick(ks)}, f)
  }

  /** Moving one element from the part still to visit to the part visited keeps the split. */
  lemma MoveOne<K>(todo: set<K>, done: set<K>, all: set<K>, k: K)
    requires k in todo && todo + done == all
    ensures (todo - {k}) + (done + {k}) == all
    ensures todo - {k} <= all && done + {k} <= all
    ensures |todo - {k}| < |todo|
  {
  }

  /** Any element can be taken out of a set sum first. */
  lemma {:induction false} SumSetRemove<K>(ks: set<K>, k: K, f: K -> int)
    requires k in ks
    ensures SumSet(ks, f) == f(k) + SumSet(ks - {k}, f)
    decreases |ks|
  {
    var j := Pick(ks);
    if j != k {
      SumSetRemove(ks - {j}, k, f);
      SumSetRemove(ks - {k}, j, f);
      assert ks - {j} - {k} == ks - {k} - {j};
    }
  }

  /** Set sums of two functions that agree on the set are equal. */
  lemma {:induction false} SumSetCongruent<K>(ks: set<K>, f: K -> int, g: K -> int)
    requires forall k :: k in ks ==> f(k) == g(k)
    ensures SumSet(ks, f) == SumSet(ks, g)
    decreases |ks|
  {
    if ks != {} {
      var j := Pick(ks);
      SumSetCongruent(ks - {j}, f, g);
    }
  }

  /**
   * Changing the summed function at one element of the set changes the
   * total by the difference there.
   */
  lemma SumSetUpdate<K>(ks: set<K>, k: K, f: K -> int, g: K -> int)
    requires k in ks
    requires forall j :: j in ks && j != k ==> f(j) == g(j)
    ensures SumSet(ks, g) == SumSet(ks, f) - f(k) + g(k)
  {
    SumSetRemove(ks, k, f);
    SumSetRemove(ks, k, g);
    SumSetCongruent(ks - {k}, f, g);
  }

  /** An element outside the set at which the function is 0 can be added without changing the total. */
  lemma SumSetAddZero<K>(ks: set<K>, k: K, f: K -> int)
    requires k !in ks && f(k) == 0
    ensures SumSet(ks + {k}, f) == SumSet(ks, f)
  {
    SumSetRemove(ks + {k}, k, f);
    assert ks + {k} - {k} == ks;
  }

  /** No element occurs twice. */
  predicate NoDup<T(==)>(s: seq<T>)
  {
    forall i, j | 0 <= i < j < |s| :: s[i] != s[j]
  }

  /** `s.filter(p)`: the elements satisfying `p`, in their order. */
  function Filter<T(==)>(s: seq<T>, p: T -> bool): (r: seq<T>)
    ensures |r| <= |s|
    ensures forall i :: 0 <= i < |r| ==> r[i] in s && p(r[i])
    ensures forall i :: 0 <= i < |s| && p(s[i]) ==> s[i] in r
    ensures multiset(r) <= multiset(s)
    decreases |s|
  {
    if s == [] then []
    else
      assert s == s[..|s| - 1] + [s[|s| - 1]];
      if p(s[|s| - 1]) then Filter(s[..|s| - 1], p) + [s[|s| - 1]]
      else Filter(s[..|s| - 1], p)
  }

  /** Appending one element extends the filtered list by it exactly when it passes. */
  lemma FilterAppend<T>(s: seq<T>, x: T, p: T -> bool)
    ensures Filter(s + [x], p) == if p(x) then Filter(s, p) + [x] else Filter(s, p)
  {
    assert (s + [x])[..|s + [x]| - 1] == s;
  }

  /** Appending one element adds its value to the sum. */
  lemma SumAppend<T>(s: seq<T>, x: T, f: T -> int)
    ensures Sum(s + [x], f) == Sum(s, f) + f(x)
  {
    assert (s + [x])[..|s + [x]| - 1] == s;
  }

  lemma {:induction false} FilterConcat<T>(a: seq<T>, b: seq<T>, p: T -> bool)
    ensures Filter(a + b, p) == Filter(a, p) + Filter(b, p)
    decreases |b|
  {
    if b == [] {
      assert a + b == a;
    } else {
      assert (a + b)[..|a + b| - 1] == a + b[..|b| - 1];
      FilterConcat(a, b[..|b| - 1], p);
    }
  }

  /** A filter keeps every copy of a value that passes and none of one that fails. */
  lemma {:induction false} FilterCount<T>(s: seq<T>, p: T -> bool, x: T)
    ensures multiset(Filter(s, p))[x] == if p(x) then multiset(s)[x] else 0
    decreases |s|
  {
    if s != [] {
      var init, last := s[..|s| - 1], s[|s| - 1];
      FilterCount(init, p, x);
      assert s == init + [last];
    }
  }

  /** Filtering out a value that was just appended gives back the old list. */
  lemma FilterAppendedOut<T>(s: seq<T>, x: T, p: T -> bool)
    requires forall i :: 0 <= i < |s| ==> p(s[i])
    requires !p(x)
    ensures Filter(s + [x], p) == s
  {
    FilterConcat(s, [x], p);
    FilterAll(s, p);
    assert [x][..0] == [];
  }

  lemma {:induction false} FilterAll<T>(s: seq<T>, p: T -> bool)
    requires forall i :: 0 <= i < |s| ==> p(s[i])
    ensures Filter(s, p) == s
    decreases |s|
  {
    if s != [] {
      FilterAll(s[..|s| - 1], p);
      assert s[..|s| - 1] + [s[|s| - 1]] == s;
    }
  }

  /** `s.map(f)`. */
  function Map<T, U>(s: seq<T>, f: T -> U): (r: seq<U>)
    ensures |r| == |s|
    ensures forall i :: 0 <= i < |s| ==> r[i] == f(s[i])
  {
    seq(|s|, i requires 0 <= i < |s| => f(s[i]))
  }

  /** The lists `f` gives for the elements of `s`, joined in order. */
  function Concat<T, U>(s: seq<T>, f: T -> seq<U>): seq<U>
    decreases |s|
  {
    if s == [] then [] else Concat(s[..|s| - 1], f) + f(s[|s| - 1])
  }

  /** Joins the lists `f` gives for the elements of `s`, one element at a time. */
  method ConcatEach<T, U>(s: seq<T>, f: T -> seq<U>) returns (r: seq<U>)
    ensures r == Concat(s, f)
  {
    r := [];
    var j := 0;
    while j < |s|
      invariant 0 <= j <= |s|
      invariant r == Concat(s[..j], f)
    {
      assert s[..j + 1][..j] == s[..j];
      r := r + f(s[j]);
      j := j + 1;
    }
    assert s[..j] == s;
  }

  /** An element is in the joined list exactly when `f` gives it for some element of `s`. */
  lemma {:induction false} ConcatExactly<T, U>(s: seq<T>, f: T -> seq<U>, u: U)
    ensures u in Concat(s, f) <==> exists x :: x in s && u in f(x)
    decreases |s|
  {
    if s != [] {
      var init, last := s[..|s| - 1], s[|s| - 1];
      ConcatExactly(init, f, u);
      assert s == init + [last];
      if exists x :: x in s && u in f(x) {
        var x :| x in s && u in f(x);
        if x != last {
          assert x in init;
        }
      }
    }
  }

  /**
   * When `f` gives at most one element for each element of `s`, and only
   * elements satisfying `p`, so does the joined list.
   */
  lemma {:induction false} ConcatBounded<T, U>(s: seq<T>, f: T -> seq<U>, p: U -> bool)
    requires forall x :: x in s ==> |f(x)| <= 1 && forall u :: u in f(x) ==> p(u)
    ensures |Concat(s, f)| <= |s|
    ensures forall u :: u in Concat(s, f) ==> p(u)
    decreases |s|
  {
    if s != [] {
      var init := s[..|s| - 1];
      assert forall x :: x in init ==> x in s;
      ConcatBounded(init, f, p);
      assert s[|s| - 1] in s;
    }
  }

  /** The index of the first element satisfying `p`, as `findIndex` returns it. */
  function FindIndex<T>(s: seq<T>, p: T -> bool): (r: int)
    ensures -1 <= r < |s|
    ensures r == -1 <==> forall i :: 0 <= i < |s| ==> !p(s[i])
    ensures r >= 0 ==> p(s[r]) && forall i :: 0 <= i < r ==> !p(s[i])
    decreases |s|
  {
    if s == [] then -1
    else if p(s[0]) then 0
    else
      var k := FindIndex(s[1..], p);
      if k == -1 then -1 else k + 1
  }
}
