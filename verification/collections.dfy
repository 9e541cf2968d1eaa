/**
 * Map and sequence facts the model leans on: Go and JavaScript iterate over
 * maps in an order the program does not control, so every fold the source
 * writes as a `range` loop is given here a canonical definition (keys in
 * ascending order) together with the facts that make any order give the same
 * answer.
 */
module Collections {

  /** No element occurs twice. */
  predicate Distinct<T(==)>(s: seq<T>) {
    forall i, j :: 0 <= i < j < |s| ==> s[i] != s[j]
  }

  /** `order` lists every element of `keys` exactly once: one possible iteration order. */
  predicate IsEnumeration<T(==)>(order: seq<T>, keys: set<T>) {
    && Distinct(order)
    && (forall i :: 0 <= i < |order| ==> order[i] in keys)
    && (forall k :: k in keys ==> k in order)
  }

  /** An enumeration has exactly one entry per key. */
  lemma {:induction false} EnumerationLength<T>(order: seq<T>, keys: set<T>)
    requires IsEnumeration(order, keys)
    ensures |order| == |keys|
  {
    if order == [] {
      assert forall k :: k !in keys;
      assert keys == {};
    } else {
      var rest := order[1..];
      var others := keys - {order[0]};
      assert forall i :: 0 <= i < |rest| ==> rest[i] == order[i + 1];
      forall k | k in others
        ensures k in rest
      {
        var j :| 0 <= j < |order| && order[j] == k;
        assert j > 0;
        assert rest[j - 1] == k;
      }
      assert IsEnumeration(rest, others);
      EnumerationLength(rest, others);
    }
  }

  /** A rearrangement of an enumeration mentions exactly the same keys. */
  lemma PermutationCoversKeys<T>(order: seq<T>, ids: seq<T>, keys: set<T>)
    requires IsEnumeration(order, keys)
    requires multiset(ids) == multiset(order)
    ensures forall k :: k in keys <==> k in ids
  {
    forall k
      ensures k in keys <==> k in ids
    {
      assert k in ids <==> k in multiset(ids);
      assert k in order <==> k in multiset(order);
      if k in order {
        var i :| 0 <= i < |order| && order[i] == k;
      }
    }
  }

  /** A non-empty set has an element. */
  lemma NonEmptyHasElement(s: set<int>)
    requires s != {}
    ensures exists x :: x in s
  {
    if forall x :: x !in s {
      assert false;
    }
  }

  lemma {:induction false} MinExists(s: set<int>)
    requires s != {}
    ensures exists m :: m in s && forall j :: j in s ==> m <= j
    decreases |s|
  {
    NonEmptyHasElement(s);
    var x :| x in s;
    if s != {x} {
      MinExists(s - {x});
      var m :| m in s - {x} && forall j :: j in s - {x} ==> m <= j;
      assert forall j :: j in s ==> j == x || j in s - {x};
      if x < m {
        assert forall j :: j in s ==> x <= j;
      } else {
        assert forall j :: j in s ==> m <= j;
      }
    } else {
      assert forall j :: j in s ==> x <= j;
    }
  }

  /** The least key of a non-empty map. */
  function MinKey<V>(m: map<int, V>): (k: int)
    requires |m| > 0
    ensures k in m && forall j :: j in m ==> k <= j
  {
    assert m.Keys != {} by {
      assert |m.Keys| == |m|;
    }
    MinExists(m.Keys);
    var k :| k in m.Keys && forall j :: j in m.Keys ==> k <= j;
    k
  }

  /** The sum of `f` over the entries of `m`, taken in ascending key order. */
  function SumMap<V>(m: map<int, V>, f: (int, V) -> real): real
    decreases |m|
  {
    if |m| == 0 then 0.0
    else
      var k := MinKey(m);
      assert |m - {k}| == |m| - 1 by {
        assert (m - {k}).Keys == m.Keys - {k};
      }
      f(k, m[k]) + SumMap(m - {k}, f)
  }

  /** Adding a new entry adds its term: the sum does not depend on which key is visited first. */
  lemma {:induction false} SumMapInsert<V>(m: map<int, V>, k: int, v: V, f: (int, V) -> real)
    requires k !in m
    ensures SumMap(m[k := v], f) == f(k, v) + SumMap(m, f)
    decreases |m|
  {
    var m' := m[k := v];
    assert (m' - {k}).Keys == m.Keys;
    assert |m'| == |m| + 1;
    var j := MinKey(m');
    if j == k {
      assert m' - {k} == m;
    } else {
      assert j in m;
      assert MinKey(m) == j;
      assert (m - {j}).Keys == m.Keys - {j};
      SumMapInsert(m - {j}, k, v, f);
      assert m' - {j} == (m - {j})[k := v];
    }
  }

  /** Non-negative terms give a non-negative sum. */
  lemma {:induction false} SumMapNonNegative<V>(m: map<int, V>, f: (int, V) -> real)
    requires forall k :: k in m ==> f(k, m[k]) >= 0.0
    ensures SumMap(m, f) >= 0.0
    decreases |m|
  {
    if |m| > 0 {
      var k := MinKey(m);
      assert (m - {k}).Keys == m.Keys - {k};
      SumMapNonNegative(m - {k}, f);
    }
  }

  /** Two maps over the same keys whose terms agree key by key have the same sum. */
  lemma {:induction false} SumMapCongruent<V>(m1: map<int, V>, m2: map<int, V>, f: (int, V) -> real, g: (int, V) -> real)
    requires m1.Keys == m2.Keys
    requires forall k :: k in m1 ==> f(k, m1[k]) == g(k, m2[k])
    ensures SumMap(m1, f) == SumMap(m2, g)
    decreases |m1|
  {
    if |m1| > 0 {
      assert |m2| == |m1| by {
        assert m1.Keys == m2.Keys;
      }
      var k := MinKey(m1);
      assert MinKey(m2) == k;
      assert (m1 - {k}).Keys == m1.Keys - {k};
      assert (m2 - {k}).Keys == m2.Keys - {k};
      SumMapCongruent(m1 - {k}, m2 - {k}, f, g);
    }
  }

  /** The entries of `m` whose keys occur in `ks`. */
  function Restrict<V>(m: map<int, V>, ks: seq<int>): (r: map<int, V>)
    ensures forall k :: k in r <==> k in m && k in ks
    ensures forall k :: k in r ==> r[k] == m[k]
  {
    map k | k in m && k in ks :: m[k]
  }

  /** Folding `f` over the keys of `m` in the order `order` gives the canonical sum. */
  lemma {:induction false} SumInAnyOrder<V>(m: map<int, V>, order: seq<int>, f: (int, V) -> real, i: nat)
    requires IsEnumeration(order, m.Keys)
    requires i < |order|
    ensures SumMap(Restrict(m, order[..i + 1]), f)
         == SumMap(Restrict(m, order[..i]), f) + f(order[i], m[order[i]])
  {
    var before := Restrict(m, order[..i]);
    var after := Restrict(m, order[..i + 1]);
    assert order[..i + 1] == order[..i] + [order[i]];
    assert order[i] !in order[..i] by {
      assert forall j :: 0 <= j < i ==> order[..i][j] != order[i];
    }
    assert after == before[order[i] := m[order[i]]];
    SumMapInsert(before, order[i], m[order[i]], f);
  }

  /** Restricting to a full enumeration of the keys keeps the whole map. */
  lemma RestrictAll<V>(m: map<int, V>, order: seq<int>)
    requires IsEnumeration(order, m.Keys)
    ensures Restrict(m, order[..|order|]) == m
  {
    assert order[..|order|] == order;
  }

  /**
   * One `range` loop over `m` in the order `order` that accumulates two sums
   * at once: whatever the order, each is the canonical sum.
   */
  method SumTwoInOrder<V>(m: map<int, V>, order: seq<int>, f: (int, V) -> real, g: (int, V) -> real)
    returns (sumF: real, sumG: real)
    requires IsEnumeration(order, m.Keys)
    ensures sumF == SumMap(m, f)
    ensures sumG == SumMap(m, g)
  {
    sumF := 0.0;
    sumG := 0.0;
    var i := 0;
    while i < |order|
      invariant 0 <= i <= |order|
      invariant sumF == SumMap(Restrict(m, order[..i]), f)
      invariant sumG == SumMap(Restrict(m, order[..i]), g)
    {
      SumInAnyOrder(m, order, f, i);
      SumInAnyOrder(m, order, g, i);
      sumF := sumF + f(order[i], m[order[i]]);
      sumG := sumG + g(order[i], m[order[i]]);
      i := i + 1;
    }
    RestrictAll(m, order);
  }
}
