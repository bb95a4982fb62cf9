/**
 The two orderings the library containers supply: ascending iteration of a set of ids,
 and a stable sort on a two-part integer key.
 */
module Ordering {

  // ----- ascending iteration of a finite set of ids

  ghost predicate Ascending(s: seq<nat>) {
    forall i, j :: 0 <= i < j < |s| ==> s[i] < s[j]
  }

  lemma {:induction false} LeastExists(ids: set<nat>) returns (least: nat)
    requires ids != {}
    ensures least in ids && forall x :: x in ids ==> least <= x
  {
    var y :| y in ids;
    var rest := ids - {y};
    if rest == {} {
      assert ids == {y};
      least := y;
    } else {
      var m := LeastExists(rest);
      least := if m < y then m else y;
      forall x | x in ids ensures least <= x {
        assert x == y || x in rest;
      }
    }
  }

  function Least(ids: set<nat>): (least: nat)
    requires ids != {}
    ensures least in ids && forall x :: x in ids ==> least <= x
  {
    assert exists m :: m in ids && forall x :: x in ids ==> m <= x by {
      var m := LeastExists(ids);
    }
    var least :| least in ids && forall x :: x in ids ==> least <= x;
    least
  }

  /** The ids of a set in the order a `BTreeSet` yields them. */
  function InOrder(ids: set<nat>): (s: seq<nat>)
    ensures Ascending(s)
    ensures forall x :: x in s <==> x in ids
    ensures |s| == |ids|
    decreases |ids|
  {
    if ids == {} then []
    else
      var least := Least(ids);
      [least] + InOrder(ids - {least})
  }

  lemma NothingIn<T>(s: seq<T>)
    requires forall x :: x !in s
    ensures s == []
  {
    assert forall x :: x in multiset(s) ==> x in s;
    assert multiset(s) == multiset{};
    assert |multiset(s)| == |s|;
  }

  lemma {:induction false} AscendingIsUnique(a: seq<nat>, b: seq<nat>)
    requires Ascending(a) && Ascending(b)
    requires forall x :: x in a <==> x in b
    ensures a == b
  {
    if a == [] {
      NothingIn(b);
    } else {
      assert a[0] in b;
      assert b != [];
      assert b[0] in a;
      var i :| 0 <= i < |a| && a[i] == b[0];
      var j :| 0 <= j < |b| && b[j] == a[0];
      assert a[0] == b[0];
      forall x ensures x in a[1..] <==> x in b[1..] {
        if x in a[1..] {
          var k :| 0 <= k < |a[1..]| && a[1..][k] == x;
          assert a[0] < a[k + 1];
          assert x in b;
          var l :| 0 <= l < |b| && b[l] == x;
          assert b[1..][l - 1] == x;
        }
        if x in b[1..] {
          var k :| 0 <= k < |b[1..]| && b[1..][k] == x;
          assert b[0] < b[k + 1];
          assert x in a;
          var l :| 0 <= l < |a| && a[l] == x;
          assert a[1..][l - 1] == x;
        }
      }
      AscendingIsUnique(a[1..], b[1..]);
      assert a == [a[0]] + a[1..] && b == [b[0]] + b[1..];
    }
  }

  /** Consecutive ids. */
  function Numbers(first: nat, n: nat): (qs: seq<nat>)
    ensures |qs| == n
    ensures forall i :: 0 <= i < n ==> qs[i] == first + i
    ensures forall q :: q in qs <==> first <= q < first + n
  {
    var qs := seq(n, i requires 0 <= i < n => first + i);
    assert forall q :: q in qs <==> first <= q < first + n by {
      forall q | first <= q < first + n ensures q in qs {
        assert qs[q - first] == q;
      }
    }
    qs
  }

  lemma SubsetOfSameSize<T>(a: set<T>, b: set<T>)
    requires a <= b && |a| == |b|
    ensures a == b
  {
    assert |b - a| == |b| - |a|;
  }

  function UpTo(n: nat): set<nat> {
    set i | i in Numbers(0, n)
  }

  lemma {:induction false} UpToSize(n: nat)
    ensures |UpTo(n)| == n
  {
    if n == 0 {
      assert UpTo(0) == {};
    } else {
      UpToSize(n - 1);
      assert UpTo(n) == UpTo(n - 1) + {n - 1};
    }
  }

  // ----- filtering

  function Filter<T(!new)>(keep: T -> bool, s: seq<T>): (r: seq<T>)
    ensures |r| <= |s|
    ensures forall x :: x in r <==> x in s && keep(x)
  {
    if s == [] then []
    else if keep(s[0]) then [s[0]] + Filter(keep, s[1..])
    else Filter(keep, s[1..])
  }

  lemma FilterFirst<T(!new)>(keep: T -> bool, s: seq<T>)
    requires s != []
    ensures Filter(keep, s) == (if keep(s[0]) then [s[0]] else []) + Filter(keep, s[1..])
  {
  }

  lemma ConcatAssociates<T>(a: seq<T>, b: seq<T>, c: seq<T>)
    ensures a + (b + c) == (a + b) + c
  {
  }

  lemma {:induction false} FilterAppend<T(!new)>(keep: T -> bool, a: seq<T>, b: seq<T>)
    ensures Filter(keep, a + b) == Filter(keep, a) + Filter(keep, b)
  {
    hide Filter;
    if a == [] {
      FilterNothing(keep);
      assert a + b == b;
    } else {
      assert (a + b)[0] == a[0];
      assert (a + b)[1..] == a[1..] + b;
      FilterAppend(keep, a[1..], b);
      var head := if keep(a[0]) then [a[0]] else [];
      calc {
        Filter(keep, a + b);
        { FilterFirst(keep, a + b); }
        head + Filter(keep, a[1..] + b);
        head + (Filter(keep, a[1..]) + Filter(keep, b));
        { ConcatAssociates(head, Filter(keep, a[1..]), Filter(keep, b)); }
        (head + Filter(keep, a[1..])) + Filter(keep, b);
        { FilterFirst(keep, a); }
        Filter(keep, a) + Filter(keep, b);
      }
    }
  }

  lemma FilterOneMore<T(!new)>(keep: T -> bool, s: seq<T>, x: T)
    ensures Filter(keep, s + [x]) == Filter(keep, s) + (if keep(x) then [x] else [])
  {
    FilterAppend(keep, s, [x]);
    assert [x][1..] == [];
  }

  lemma {:induction false} FilterNone<T(!new)>(keep: T -> bool, s: seq<T>)
    requires forall x :: x in s ==> !keep(x)
    ensures Filter(keep, s) == []
  {
    if s != [] {
      assert forall x :: x in s[1..] ==> x in s;
      FilterNone(keep, s[1..]);
    }
  }

  lemma {:induction false} FilterAll<T(!new)>(keep: T -> bool, s: seq<T>)
    requires forall x :: x in s ==> keep(x)
    ensures Filter(keep, s) == s
  {
    if s != [] {
      assert forall x :: x in s[1..] ==> x in s;
      FilterAll(keep, s[1..]);
    }
  }

  lemma {:induction false} FilterAscends(keep: nat -> bool, s: seq<nat>)
    requires Ascending(s)
    ensures Ascending(Filter(keep, s))
  {
    if s != [] {
      FilterAscends(keep, s[1..]);
      var rest := Filter(keep, s[1..]);
      forall k | 0 <= k < |rest| ensures s[0] < rest[k] {
        assert rest[k] in rest;
        var j :| 0 <= j < |s[1..]| && s[1..][j] == rest[k];
        assert s[0] < s[j + 1];
      }
    }
  }

  lemma FilterNothing<T(!new)>(keep: T -> bool)
    ensures Filter(keep, []) == []
  {
  }

  // ----- stable sort

  type Key = (int, int)

  predicate Precedes(a: Key, b: Key) {
    a.0 < b.0 || (a.0 == b.0 && a.1 < b.1)
  }

  predicate AtMost(a: Key, b: Key) {
    !Precedes(b, a)
  }

  /** `x` goes after everything whose key is at most its own, as a stable sort places it. */
  function InsertBy<T>(key: T -> Key, s: seq<T>, x: T): (r: seq<T>)
    ensures |r| == |s| + 1
    ensures multiset(r) == multiset(s) + multiset{x}
  {
    if s == [] then [x]
    else if Precedes(key(x), key(s[0])) then
      assert s == [s[0]] + s[1..];
      [x] + s
    else
      assert s == [s[0]] + s[1..];
      [s[0]] + InsertBy(key, s[1..], x)
  }

  /** `slice::sort_by_key`: stable, ascending. */
  function SortBy<T>(key: T -> Key, s: seq<T>): (r: seq<T>)
    ensures |r| == |s|
    ensures multiset(r) == multiset(s)
  {
    if s == [] then []
    else
      assert s == s[..|s| - 1] + [s[|s| - 1]];
      InsertBy(key, SortBy(key, s[..|s| - 1]), s[|s| - 1])
  }

  ghost predicate SortedBy<T>(key: T -> Key, s: seq<T>) {
    forall i, j :: 0 <= i < j < |s| ==> AtMost(key(s[i]), key(s[j]))
  }

  lemma MultisetMembers<T>(a: seq<T>, b: seq<T>)
    requires multiset(a) == multiset(b)
    ensures forall x :: x in a <==> x in b
  {
    forall x ensures x in a <==> x in b {
      assert x in a <==> x in multiset(a);
      assert x in b <==> x in multiset(b);
    }
  }

  lemma {:induction false} InsertKeepsSorted<T>(key: T -> Key, s: seq<T>, x: T)
    requires SortedBy(key, s)
    ensures SortedBy(key, InsertBy(key, s, x))
  {
    if s != [] && !Precedes(key(x), key(s[0])) {
      var rest := InsertBy(key, s[1..], x);
      InsertKeepsSorted(key, s[1..], x);
      assert s == [s[0]] + s[1..];
      forall y | y in rest ensures AtMost(key(s[0]), key(y)) {
        assert y in multiset(rest);
        if y != x {
          assert y in multiset(s[1..]);
          var k :| 0 <= k < |s[1..]| && s[1..][k] == y;
          assert s[k + 1] == y;
        }
      }
    }
  }

  lemma {:induction false} SortSorts<T>(key: T -> Key, s: seq<T>)
    ensures SortedBy(key, SortBy(key, s))
  {
    if s != [] {
      SortSorts(key, s[..|s| - 1]);
      InsertKeepsSorted(key, SortBy(key, s[..|s| - 1]), s[|s| - 1]);
    }
  }

  /** All elements a filter keeps carry one and the same key. */
  ghost predicate OneKey<T(!new)>(key: T -> Key, keep: T -> bool) {
    forall x, y :: keep(x) && keep(y) ==> key(x) == key(y)
  }

  lemma {:induction false} FilterOfInsert<T(!new)>(key: T -> Key, keep: T -> bool, s: seq<T>, x: T)
    requires SortedBy(key, s) && OneKey(key, keep)
    ensures Filter(keep, InsertBy(key, s, x)) == Filter(keep, s) + (if keep(x) then [x] else [])
  {
    if s == [] {
    } else if Precedes(key(x), key(s[0])) {
      assert ([x] + s)[1..] == s;
      if keep(x) {
        forall y | y in s ensures !keep(y) {
          var k :| 0 <= k < |s| && s[k] == y;
          if k > 0 { assert AtMost(key(s[0]), key(s[k])); }
        }
        FilterNone(keep, s);
      }
    } else {
      var rest := InsertBy(key, s[1..], x);
      FilterOfInsert(key, keep, s[1..], x);
      assert ([s[0]] + rest)[1..] == rest;
    }
  }

  /** Stability: among elements of one key, sorting changes nothing. */
  lemma {:induction false} SortIsStable<T(!new)>(key: T -> Key, keep: T -> bool, s: seq<T>)
    requires OneKey(key, keep)
    ensures Filter(keep, SortBy(key, s)) == Filter(keep, s)
  {
    if s != [] {
      var front, x := s[..|s| - 1], s[|s| - 1];
      calc {
        Filter(keep, SortBy(key, s));
        Filter(keep, InsertBy(key, SortBy(key, front), x));
        { SortSorts(key, front); FilterOfInsert(key, keep, SortBy(key, front), x); }
        Filter(keep, SortBy(key, front)) + (if keep(x) then [x] else []);
        { SortIsStable(key, keep, front); }
        Filter(keep, front) + (if keep(x) then [x] else []);
        { assert [x][1..] == []; }
        Filter(keep, front) + Filter(keep, [x]);
        { FilterAppend(keep, front, [x]); assert s == front + [x]; }
        Filter(keep, s);
      }
    }
  }
}
