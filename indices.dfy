/**
 * Integer keys of a map: their minimum, their ascending order (what
 * `Collections.sort` does to the survey's key list) and the sum of the
 * integers a map holds, which does not depend on the order it is taken in.
 */
module Indices {

  predicate StrictlyIncreasing(s: seq<int>)
  {
    forall i, j :: 0 <= i < j < |s| ==> s[i] < s[j]
  }

  /** Dropping the last key keeps the order, and that key exceeds all the others. */
  lemma IncreasingSplit(ks: seq<int>)
    requires ks != []
    ensures StrictlyIncreasing(ks) ==> StrictlyIncreasing(ks[..|ks| - 1])
    ensures StrictlyIncreasing(ks) ==> forall i :: 0 <= i < |ks| - 1 ==> ks[i] < ks[|ks| - 1]
  {
  }

  /** Appending a key above all the others keeps the order. */
  lemma IncreasingSnoc(s: seq<int>, x: int)
    ensures StrictlyIncreasing(s) && (forall k :: k in s ==> k < x) ==> StrictlyIncreasing(s + [x])
  {
    if StrictlyIncreasing(s) && (forall k :: k in s ==> k < x) {
      forall i, j | 0 <= i < j < |s| + 1
        ensures (s + [x])[i] < (s + [x])[j]
      {
        if j == |s| {
          assert s[i] in s;
        }
      }
    }
  }

  /** A non-empty set has an element (stated for the such-that statements that pick one). */
  lemma HasElement(s: set<int>)
    requires s != {}
    ensures exists x :: x in s
  {
    if forall x :: x !in s {
      assert false;
    }
  }

  /** The same for a set of names. */
  lemma HasName(s: set<string>)
    requires s != {}
    ensures exists x :: x in s
  {
    if forall x :: x !in s {
      assert false;
    }
  }

  /** A value of a map is held under some key. */
  lemma ValueHasKey<V>(m: map<int, V>, v: V)
    requires v in m.Values
    ensures exists k :: k in m && m[k] == v
  {
    if forall k :: k in m ==> m[k] != v {
      assert false;
    }
  }

  /** `m` is the least element of `ks`. */
  predicate IsMin(m: int, ks: set<int>)
  {
    m in ks && forall j :: j in ks ==> m <= j
  }

  /** Adding `x` to a set whose least element is `m`. */
  lemma MinOfInsert(x: int, rest: set<int>, m: int)
    requires IsMin(m, rest)
    ensures IsMin(if x < m then x else m, rest + {x})
  {
  }

  lemma {:induction false} MinExists(ks: set<int>)
    requires ks != {}
    ensures exists m :: IsMin(m, ks)
    decreases |ks|
  {
    HasElement(ks);
    var x :| x in ks;
    var rest := ks - {x};
    if rest == {} {
      assert ks == {x};
      assert IsMin(x, ks);
    } else {
      MinExists(rest);
      var m :| IsMin(m, rest);
      MinOfInsert(x, rest, m);
      assert rest + {x} == ks;
    }
  }

  /** The least element of a non-empty set of keys. */
  function MinKey(ks: set<int>): (k: int)
    requires ks != {}
    ensures k in ks && forall j :: j in ks ==> k <= j
  {
    MinExists(ks);
    var m :| IsMin(m, ks);
    m
  }

  /** The keys `ks` in ascending order (`Collections.sort` of the key list). */
  function SortedIndices(ks: set<int>): seq<int>
    decreases ks
  {
    if ks == {} then []
    else
      var k := MinKey(ks);
      [k] + SortedIndices(ks - {k})
  }

  /** The sorted key list holds every key of `ks` once, in strictly ascending order. */
  lemma {:induction false} SortedIndicesSpec(ks: set<int>)
    ensures StrictlyIncreasing(SortedIndices(ks))
    ensures forall k :: k in SortedIndices(ks) <==> k in ks
    ensures |SortedIndices(ks)| == |ks|
    decreases ks
  {
    if ks != {} {
      var k := MinKey(ks);
      var rest := SortedIndices(ks - {k});
      SortedIndicesSpec(ks - {k});
      assert SortedIndices(ks) == [k] + rest;
      forall i, j | 0 <= i < j < |rest| + 1
        ensures ([k] + rest)[i] < ([k] + rest)[j]
      {
        if i == 0 {
          assert rest[j - 1] in ks - {k};
        }
      }
    }
  }

  /** Two keys are sorted into ascending order. */
  lemma SortedPair(ks: set<int>, a: int, b: int)
    requires ks == {a, b} && a < b
    ensures SortedIndices(ks) == [a, b]
  {
    SortedIndicesSpec(ks);
    var r := SortedIndices(ks);
    assert |ks| == 2 by {
      assert ks == {a} + {b};
    }
    assert r[0] in ks && r[1] in ks && r[0] < r[1];
  }

  /** The sum of the values of `m`, taken in ascending key order. */
  function SumValues(m: map<int, int>): int
    decreases m
  {
    if m == map[] then 0
    else
      var k := MinKey(m.Keys);
      m[k] + SumValues(m - {k})
  }

  /** Any entry may be taken first: the sum does not depend on the order. */
  lemma {:induction false} SumValuesRemove(m: map<int, int>, k: int)
    requires k in m
    ensures SumValues(m) == m[k] + SumValues(m - {k})
    decreases |m|
  {
    var j := MinKey(m.Keys);
    if j != k {
      var rest := m - {j};
      assert k in rest;
      SumValuesRemove(rest, k);
      var without := m - {k};
      assert j in without.Keys;
      assert MinKey(without.Keys) == j;
      assert without - {j} == rest - {k};
    }
  }

  /** Adding a fresh entry adds its value to the sum. */
  lemma SumValuesInsert(m: map<int, int>, k: int, v: int)
    requires k !in m
    ensures SumValues(m[k := v]) == SumValues(m) + v
  {
    SumValuesRemove(m[k := v], k);
    assert m[k := v] - {k} == m;
  }

  /** The sum is monotone in every value. */
  lemma {:induction false} SumValuesMonotone(a: map<int, int>, b: map<int, int>)
    requires a.Keys == b.Keys
    requires forall k :: k in a ==> a[k] <= b[k]
    ensures SumValues(a) <= SumValues(b)
    decreases |a|
  {
    if a != map[] {
      var k := MinKey(a.Keys);
      SumValuesRemove(b, k);
      SumValuesMonotone(a - {k}, b - {k});
    }
  }

  /** A sum of non-negative values is non-negative. */
  lemma {:induction false} SumValuesNonNegative(m: map<int, int>)
    requires forall k :: k in m ==> 0 <= m[k]
    ensures 0 <= SumValues(m)
    decreases |m|
  {
    if m != map[] {
      SumValuesNonNegative(m - {MinKey(m.Keys)});
    }
  }
}
