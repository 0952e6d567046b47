/** Totals of rows picked by the set their key lies in; over disjoint sets they add up. */
module KeyedSums {
  import opened Aggregates

  /** The rows that satisfy a condition, in order. */
  function Filter<T>(rows: seq<T>, keep: T -> bool): seq<T> {
    if rows == [] then
      []
    else
      var front, last := Filter(rows[..|rows| - 1], keep), rows[|rows| - 1];
      if keep(last) then front + [last] else front
  }

  lemma {:induction false} FilterMembers<T>(rows: seq<T>, keep: T -> bool)
    ensures forall x :: x in Filter(rows, keep) <==> x in rows && keep(x)
  {
    if rows != [] {
      FilterMembers(rows[..|rows| - 1], keep);
      assert rows == rows[..|rows| - 1] + [rows[|rows| - 1]];
    }
  }

  function Within<T, K>(key: T -> K, keys: set<K>): T -> bool {
    x => key(x) in keys
  }

  lemma WithinIs<T, K>(key: T -> K, keys: set<K>, x: T)
    ensures Within(key, keys)(x) <==> key(x) in keys
  {
  }

  /** A total that may be split over cells: one number per set of keys. */
  function SumOver<T, K>(family: seq<set<K>>, rows: seq<T>, key: T -> K, value: T -> real): real {
    if family == [] then
      0.0
    else
      SumOver(family[..|family| - 1], rows, key, value)
      + Sum(Filter(rows, Within(key, family[|family| - 1])), value)
  }

  function CountOver<T, K>(family: seq<set<K>>, rows: seq<T>, key: T -> K, holds: T -> bool): nat {
    if family == [] then
      0
    else
      CountOver(family[..|family| - 1], rows, key, holds)
      + CountIf(Filter(rows, Within(key, family[|family| - 1])), holds)
  }

  function Union<K>(family: seq<set<K>>): set<K> {
    if family == [] then {} else Union(family[..|family| - 1]) + family[|family| - 1]
  }

  predicate Disjoint<K(==)>(family: seq<set<K>>) {
    forall i, j :: 0 <= i < j < |family| ==> family[i] !! family[j]
  }

  lemma {:induction false} UnionMembers<K>(family: seq<set<K>>)
    ensures forall k :: k in Union(family) <==> exists i :: 0 <= i < |family| && k in family[i]
  {
    if family != [] {
      var front, n := family[..|family| - 1], |family| - 1;
      UnionMembers(front);
      forall k ensures k in Union(family) <==> exists i :: 0 <= i < |family| && k in family[i] {
        if k in Union(front) {
          var i :| 0 <= i < |front| && k in front[i];
          assert k in family[i];
        }
        if i :| 0 <= i < |family| && k in family[i] {
          if i < n {
            assert k in front[i];
          }
        }
      }
    }
  }

  lemma {:induction false} OutsideUnion<K>(family: seq<set<K>>, other: set<K>)
    requires forall i :: 0 <= i < |family| ==> family[i] !! other
    ensures Union(family) !! other
  {
    if family != [] {
      OutsideUnion(family[..|family| - 1], other);
    }
  }

  lemma {:induction false} SplitSum<T, K>(rows: seq<T>, key: T -> K, a: set<K>, b: set<K>, value: T -> real)
    requires a !! b
    ensures Sum(Filter(rows, Within(key, a + b)), value)
         == Sum(Filter(rows, Within(key, a)), value) + Sum(Filter(rows, Within(key, b)), value)
  {
    if rows != [] {
      var front, last := rows[..|rows| - 1], rows[|rows| - 1];
      SplitSum(front, key, a, b, value);
      SumSnoc(Filter(front, Within(key, a + b)), last, value);
      SumSnoc(Filter(front, Within(key, a)), last, value);
      SumSnoc(Filter(front, Within(key, b)), last, value);
    }
  }

  lemma {:induction false} SplitCount<T, K>(rows: seq<T>, key: T -> K, a: set<K>, b: set<K>, holds: T -> bool)
    requires a !! b
    ensures CountIf(Filter(rows, Within(key, a + b)), holds)
         == CountIf(Filter(rows, Within(key, a)), holds) + CountIf(Filter(rows, Within(key, b)), holds)
  {
    if rows != [] {
      var front, last := rows[..|rows| - 1], rows[|rows| - 1];
      SplitCount(front, key, a, b, holds);
      CountSnoc(Filter(front, Within(key, a + b)), last, holds);
      CountSnoc(Filter(front, Within(key, a)), last, holds);
      CountSnoc(Filter(front, Within(key, b)), last, holds);
    }
  }

  lemma {:induction false} NothingKept<T, K>(rows: seq<T>, key: T -> K)
    ensures Filter(rows, Within(key, {})) == []
  {
    if rows != [] {
      NothingKept(rows[..|rows| - 1], key);
    }
  }

  /** Over disjoint sets of keys, totals add up to that of the union. */
  lemma {:induction false} SumsAddUp<T, K>(family: seq<set<K>>, rows: seq<T>, key: T -> K, value: T -> real)
    requires Disjoint(family)
    ensures SumOver(family, rows, key, value) == Sum(Filter(rows, Within(key, Union(family))), value)
  {
    hide Filter, Sum;
    if family == [] {
      NothingKept(rows, key);
      EmptySum(value);
    } else {
      var front, last := family[..|family| - 1], family[|family| - 1];
      SumsAddUp(front, rows, key, value);
      assert forall i :: 0 <= i < |front| ==> family[i] == front[i];
      OutsideUnion(front, last);
      SplitSum(rows, key, Union(front), last, value);
    }
  }

  /** So do counts. */
  lemma {:induction false} CountsAddUp<T, K>(family: seq<set<K>>, rows: seq<T>, key: T -> K, holds: T -> bool)
    requires Disjoint(family)
    ensures CountOver(family, rows, key, holds) == CountIf(Filter(rows, Within(key, Union(family))), holds)
  {
    hide Filter, CountIf;
    if family == [] {
      NothingKept(rows, key);
      EmptyCount(holds);
    } else {
      var front, last := family[..|family| - 1], family[|family| - 1];
      CountsAddUp(front, rows, key, holds);
      assert forall i :: 0 <= i < |front| ==> family[i] == front[i];
      OutsideUnion(front, last);
      SplitCount(rows, key, Union(front), last, holds);
    }
  }

  lemma EmptySum<T>(value: T -> real)
    ensures Sum([], value) == 0.0
  {
  }

  lemma EmptyCount<T>(holds: T -> bool)
    ensures CountIf([], holds) == 0
  {
  }

  function Any<T>(): T -> bool {
    x => true
  }

  lemma {:induction false} CountAny<T>(rows: seq<T>)
    ensures CountIf(rows, Any()) == |rows|
  {
    if rows != [] {
      CountAny(rows[..|rows| - 1]);
    }
  }

  lemma {:induction false} CountByKey<T, K>(rows: seq<T>, key: T -> K, ofKey: K -> bool, ofRow: T -> bool)
    requires forall i :: 0 <= i < |rows| ==> (ofRow(rows[i]) <==> ofKey(key(rows[i])))
    ensures CountIf(Column(rows, key), ofKey) == CountIf(rows, ofRow)
  {
    if rows == [] {
      assert Column(rows, key) == [];
    } else {
      var n := |rows| - 1;
      CountByKey(rows[..n], key, ofKey, ofRow);
      assert Column(rows, key) == Column(rows[..n], key) + [key(rows[n])];
      CountSnoc(Column(rows[..n], key), key(rows[n]), ofKey);
    }
  }

  lemma {:induction false} FilteredFrom<T>(rows: seq<T>, keep: T -> bool, i: nat) returns (k: nat)
    requires i < |Filter(rows, keep)|
    ensures k < |rows| && rows[k] == Filter(rows, keep)[i]
  {
    var front, n := rows[..|rows| - 1], |rows| - 1;
    if i < |Filter(front, keep)| {
      k := FilteredFrom(front, keep, i);
    } else {
      k := n;
    }
  }

  lemma {:induction false} FilterKeysDiffer<T, K>(rows: seq<T>, keep: T -> bool, key: T -> K)
    requires forall i, j :: 0 <= i < j < |rows| ==> key(rows[i]) != key(rows[j])
    ensures forall i, j :: 0 <= i < j < |Filter(rows, keep)| ==>
              key(Filter(rows, keep)[i]) != key(Filter(rows, keep)[j])
  {
    if rows != [] {
      var front, last := rows[..|rows| - 1], rows[|rows| - 1];
      FilterKeysDiffer(front, keep, key);
      forall i | 0 <= i < |Filter(front, keep)| ensures key(Filter(front, keep)[i]) != key(last) {
        var k := FilteredFrom(front, keep, i);
        assert rows[k] == front[k];
      }
    }
  }

  /** A count of filtered rows is the number of positions that are kept and counted. */
  lemma {:induction false} FilteredCount<T>(rows: seq<T>, keep: T -> bool, holds: T -> bool, positions: set<int>)
    requires forall i :: i in positions <==> 0 <= i < |rows| && keep(rows[i]) && holds(rows[i])
    ensures CountIf(Filter(rows, keep), holds) == |positions|
  {
    if rows == [] {
      EmptyPositions(positions);
    } else {
      var front, n := rows[..|rows| - 1], |rows| - 1;
      FilteredCount(front, keep, holds, positions - {n});
      CountSnoc(Filter(front, keep), rows[n], holds);
    }
  }

  lemma FilteredLength<T>(rows: seq<T>, keep: T -> bool, positions: set<int>)
    requires forall i :: i in positions <==> 0 <= i < |rows| && keep(rows[i])
    ensures |Filter(rows, keep)| == |positions|
  {
    FilteredCount(rows, keep, Any(), positions);
    CountAny(Filter(rows, keep));
  }

  lemma PickedPositions<T, K>(rows: seq<T>, key: T -> K, keys: set<K>, holds: T -> bool, positions: set<int>)
    requires forall i :: i in positions <==> 0 <= i < |rows| && key(rows[i]) in keys && holds(rows[i])
    ensures CountIf(Filter(rows, Within(key, keys)), holds) == |positions|
  {
    hide Filter, CountIf;
    forall i ensures i in positions <==> 0 <= i < |rows| && Within(key, keys)(rows[i]) && holds(rows[i]) {
      if 0 <= i < |rows| {
        WithinIs(key, keys, rows[i]);
      }
    }
    FilteredCount(rows, Within(key, keys), holds, positions);
  }

  lemma PickedLength<T, K>(rows: seq<T>, key: T -> K, keys: set<K>, positions: set<int>)
    requires forall i :: i in positions <==> 0 <= i < |rows| && key(rows[i]) in keys
    ensures |Filter(rows, Within(key, keys))| == |positions|
  {
    hide Filter, CountIf;
    PickedPositions(rows, key, keys, Any(), positions);
    CountAny(Filter(rows, Within(key, keys)));
  }

  /** The last of the filtered rows is the last row that is kept. */
  lemma {:induction false} FilteredLast<T>(rows: seq<T>, keep: T -> bool) returns (last: nat)
    requires Filter(rows, keep) != []
    ensures last < |rows| && keep(rows[last]) && Filter(rows, keep)[|Filter(rows, keep)| - 1] == rows[last]
    ensures forall j :: last < j < |rows| ==> !keep(rows[j])
  {
    last := |rows| - 1;
    if !keep(rows[last]) {
      last := FilteredLast(rows[..|rows| - 1], keep);
    }
  }
}
