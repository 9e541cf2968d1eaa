/**
 * Descending, stable insertion sort by a real-valued key. Go's `sort.Slice`
 * with a `>` comparator and JavaScript's `Array.prototype.sort` with
 * `(a, b) => b - a` both produce a non-increasing permutation; the JavaScript
 * sort is also stable, which `FilterStable` states.
 */
module Sorting {

  /** Keys never increase from left to right. */
  predicate NonIncreasing<T>(s: seq<T>, key: T -> real) {
    forall i, j :: 0 <= i < j < |s| ==> key(s[i]) >= key(s[j])
  }

  /** Inserts `x` after every element whose key is at least `key(x)`. */
  function Insert<T(==)>(x: T, s: seq<T>, key: T -> real): (r: seq<T>)
    ensures multiset(r) == multiset(s) + multiset{x}
    ensures |r| == |s| + 1
  {
    if s == [] then [x]
    else if key(s[0]) < key(x) then [x] + s
    else
      assert s == [s[0]] + s[1..];
      [s[0]] + Insert(x, s[1..], key)
  }

  /** A sorted sequence that starts with an element at least as large as every other stays sorted. */
  lemma ConsSorted<T>(h: T, s: seq<T>, key: T -> real)
    requires NonIncreasing(s, key)
    requires s != [] ==> key(h) >= key(s[0])
    ensures NonIncreasing([h] + s, key)
  {
    var r := [h] + s;
    forall i, j | 0 <= i < j < |r|
      ensures key(r[i]) >= key(r[j])
    {
      if i == 0 {
        assert r[j] == s[j - 1];
        if j > 1 {
          assert key(s[0]) >= key(s[j - 1]);
        }
      } else {
        assert r[i] == s[i - 1] && r[j] == s[j - 1];
      }
    }
  }

  lemma {:induction false} InsertSorted<T>(x: T, s: seq<T>, key: T -> real)
    requires NonIncreasing(s, key)
    ensures NonIncreasing(Insert(x, s, key), key)
    ensures Insert(x, s, key)[0] == (if s == [] || key(s[0]) < key(x) then x else s[0])
  {
    if s == [] {
    } else if key(s[0]) < key(x) {
      ConsSorted(x, s, key);
    } else {
      assert NonIncreasing(s[1..], key) by {
        forall i, j | 0 <= i < j < |s[1..]|
          ensures key(s[1..][i]) >= key(s[1..][j])
        {
          assert s[1..][i] == s[i + 1] && s[1..][j] == s[j + 1];
        }
      }
      InsertSorted(x, s[1..], key);
      if |s| > 1 {
        assert key(s[0]) >= key(s[1]);
      }
      ConsSorted(s[0], Insert(x, s[1..], key), key);
    }
  }

  /** A non-increasing permutation of `s`. */
  function SortDesc<T(==)>(s: seq<T>, key: T -> real): (r: seq<T>)
    ensures multiset(r) == multiset(s)
    ensures |r| == |s|
    ensures NonIncreasing(r, key)
  {
    if s == [] then []
    else
      assert s == s[..|s| - 1] + [s[|s| - 1]];
      var sorted := SortDesc(s[..|s| - 1], key);
      InsertSorted(s[|s| - 1], sorted, key);
      Insert(s[|s| - 1], sorted, key)
  }

  /** The elements of `s` whose key is `c`, in their order in `s`. */
  function WithKey<T>(s: seq<T>, key: T -> real, c: real): seq<T> {
    if s == [] then []
    else (if key(s[0]) == c then [s[0]] else []) + WithKey(s[1..], key, c)
  }

  lemma {:induction false} WithKeyAppend<T>(a: seq<T>, b: seq<T>, key: T -> real, c: real)
    ensures WithKey(a + b, key, c) == WithKey(a, key, c) + WithKey(b, key, c)
  {
    if a == [] {
      assert a + b == b;
    } else {
      var h := if key(a[0]) == c then [a[0]] else [];
      assert (a + b)[0] == a[0];
      assert (a + b)[1..] == a[1..] + b;
      assert WithKey(a + b, key, c) == h + WithKey(a[1..] + b, key, c);
      WithKeyAppend(a[1..], b, key, c);
      assert WithKey(a, key, c) == h + WithKey(a[1..], key, c);
      assert h + (WithKey(a[1..], key, c) + WithKey(b, key, c))
          == (h + WithKey(a[1..], key, c)) + WithKey(b, key, c);
    }
  }

  lemma {:induction false} WithKeyNone<T>(s: seq<T>, key: T -> real, c: real)
    requires forall i :: 0 <= i < |s| ==> key(s[i]) < c
    ensures WithKey(s, key, c) == []
  {
    if s != [] {
      WithKeyNone(s[1..], key, c);
    }
  }

  /** The tail of a sorted sequence is sorted. */
  lemma TailSorted<T>(s: seq<T>, key: T -> real)
    requires NonIncreasing(s, key) && s != []
    ensures NonIncreasing(s[1..], key)
  {
    forall i, j | 0 <= i < j < |s| - 1
      ensures key(s[1..][i]) >= key(s[1..][j])
    {
      assert s[1..][i] == s[i + 1] && s[1..][j] == s[j + 1];
    }
  }

  /** `WithKey` of a sequence with a given first element. */
  lemma WithKeyCons<T>(h: T, s: seq<T>, key: T -> real, c: real)
    ensures WithKey([h] + s, key, c) == (if key(h) == c then [h] else []) + WithKey(s, key, c)
  {
    assert ([h] + s)[0] == h && ([h] + s)[1..] == s;
  }

  /** Every key of a sorted sequence is at most its first. */
  lemma FirstIsLargest<T>(s: seq<T>, key: T -> real)
    requires NonIncreasing(s, key) && s != []
    ensures forall i :: 0 <= i < |s| ==> key(s[i]) <= key(s[0])
  {
  }

  /** Inserting an element larger than the first puts it in front, and no other element has its key. */
  lemma InsertInFront<T>(x: T, s: seq<T>, key: T -> real, c: real)
    requires NonIncreasing(s, key) && s != [] && key(s[0]) < key(x)
    ensures WithKey(Insert(x, s, key), key, c)
         == WithKey(s, key, c) + (if key(x) == c then [x] else [])
  {
    assert Insert(x, s, key) == [x] + s;
    WithKeyCons(x, s, key, c);
    if key(x) == c {
      FirstIsLargest(s, key);
      WithKeyNone(s, key, c);
    }
  }

  lemma HeadTail<T>(s: seq<T>)
    requires s != []
    ensures [s[0]] + s[1..] == s
  {
  }

  lemma Associative<T>(a: seq<T>, b: seq<T>, c: seq<T>)
    ensures a + (b + c) == (a + b) + c
  {
  }

  /** Inserting an element no larger than the first keeps the first in front, so stability carries over from the tail. */
  lemma InsertBehind<T>(x: T, s: seq<T>, key: T -> real, c: real)
    requires s != [] && key(s[0]) >= key(x)
    requires WithKey(Insert(x, s[1..], key), key, c)
          == WithKey(s[1..], key, c) + (if key(x) == c then [x] else [])
    ensures WithKey(Insert(x, s, key), key, c)
         == WithKey(s, key, c) + (if key(x) == c then [x] else [])
  {
    var rest := Insert(x, s[1..], key);
    var h := if key(s[0]) == c then [s[0]] else [];
    var t := if key(x) == c then [x] else [];
    assert Insert(x, s, key) == [s[0]] + rest;
    WithKeyCons(s[0], rest, key, c);
    WithKeyCons(s[0], s[1..], key, c);
    HeadTail(s);
    Associative(h, WithKey(s[1..], key, c), t);
  }

  /** Insertion into a sorted sequence keeps the relative order of equal keys, `x` last among them. */
  lemma {:induction false} InsertStable<T>(x: T, s: seq<T>, key: T -> real, c: real)
    requires NonIncreasing(s, key)
    ensures WithKey(Insert(x, s, key), key, c)
         == WithKey(s, key, c) + (if key(x) == c then [x] else [])
  {
    if s == [] {
      assert Insert(x, s, key) == [x] + [];
      WithKeyCons(x, [], key, c);
    } else if key(s[0]) < key(x) {
      InsertInFront(x, s, key, c);
    } else {
      TailSorted(s, key);
      InsertStable(x, s[1..], key, c);
      InsertBehind(x, s, key, c);
    }
  }

  /** Elements with equal keys leave the sort in the order they entered it. */
  lemma {:induction false} FilterStable<T>(s: seq<T>, key: T -> real, c: real)
    ensures WithKey(SortDesc(s, key), key, c) == WithKey(s, key, c)
  {
    if s != [] {
      var init := s[..|s| - 1];
      var last := s[|s| - 1];
      var sorted := SortDesc(init, key);
      var tail := if key(last) == c then [last] else [];
      assert s == init + [last];
      assert SortDesc(s, key) == Insert(last, sorted, key);
      FilterStable(init, key, c);
      InsertStable(last, sorted, key, c);
      assert WithKey(SortDesc(s, key), key, c) == WithKey(init, key, c) + tail;
      WithKeyAppend(init, [last], key, c);
      assert WithKey([last], key, c) == tail + WithKey([], key, c);
    }
  }

}
