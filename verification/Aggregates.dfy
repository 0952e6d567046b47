/** Totals and counts over rows, and the fact that the order of the rows does not matter. */
module Aggregates {

  function Sum<T>(rows: seq<T>, value: T -> real): real {
    if rows == [] then 0.0 else Sum(rows[..|rows| - 1], value) + value(rows[|rows| - 1])
  }

  function CountIf<T>(rows: seq<T>, holds: T -> bool): (n: nat)
    ensures n <= |rows|
  {
    if rows == [] then 0 else CountIf(rows[..|rows| - 1], holds) + (if holds(rows[|rows| - 1]) then 1 else 0)
  }

  function Column<T, V>(rows: seq<T>, value: T -> V): (r: seq<V>)
    ensures |r| == |rows| && forall i :: 0 <= i < |rows| ==> r[i] == value(rows[i])
  {
    seq(|rows|, i requires 0 <= i < |rows| => value(rows[i]))
  }

  function Least(values: seq<real>): (r: real)
    requires values != []
    ensures r in values && forall i :: 0 <= i < |values| ==> r <= values[i]
  {
    var last := values[|values| - 1];
    if |values| == 1 then
      last
    else
      var front := Least(values[..|values| - 1]);
      assert forall i :: 0 <= i < |values| - 1 ==> values[i] == values[..|values| - 1][i];
      if last < front then last else front
  }

  lemma SumSnoc<T>(rows: seq<T>, row: T, value: T -> real)
    ensures Sum(rows + [row], value) == Sum(rows, value) + value(row)
  {
    assert (rows + [row])[..|rows|] == rows;
  }

  lemma CountSnoc<T>(rows: seq<T>, row: T, holds: T -> bool)
    ensures CountIf(rows + [row], holds) == CountIf(rows, holds) + (if holds(row) then 1 else 0)
  {
    assert (rows + [row])[..|rows|] == rows;
  }

  lemma {:induction false} SumConcat<T>(a: seq<T>, b: seq<T>, value: T -> real)
    ensures Sum(a + b, value) == Sum(a, value) + Sum(b, value)
  {
    if b == [] {
      assert a + b == a;
    } else {
      var front, last := b[..|b| - 1], b[|b| - 1];
      SumConcat(a, front, value);
      assert a + b == (a + front) + [last];
      SumSnoc(a + front, last, value);
    }
  }

  lemma {:induction false} CountConcat<T>(a: seq<T>, b: seq<T>, holds: T -> bool)
    ensures CountIf(a + b, holds) == CountIf(a, holds) + CountIf(b, holds)
  {
    if b == [] {
      assert a + b == a;
    } else {
      var front, last := b[..|b| - 1], b[|b| - 1];
      CountConcat(a, front, holds);
      assert a + b == (a + front) + [last];
      CountSnoc(a + front, last, holds);
    }
  }

  function Without<T>(rows: seq<T>, i: nat): seq<T>
    requires i < |rows|
  {
    rows[..i] + rows[i + 1..]
  }

  /** Takes one occurrence of an element out of a sequence. */
  lemma TakeOut<T>(rows: seq<T>, i: nat)
    requires i < |rows|
    ensures rows == rows[..i] + ([rows[i]] + rows[i + 1..])
    ensures multiset(Without(rows, i)) == multiset(rows) - multiset{rows[i]}
  {
    assert rows == rows[..i] + ([rows[i]] + rows[i + 1..]);
    assert multiset(rows) == multiset(rows[..i]) + (multiset{rows[i]} + multiset(rows[i + 1..]));
  }

  /** The last element of one sequence stands somewhere in any rearrangement of it. */
  lemma LastElsewhere<T>(s: seq<T>, t: seq<T>) returns (i: nat)
    requires s != [] && multiset(s) == multiset(t)
    ensures i < |t| && t[i] == s[|s| - 1]
    ensures multiset(s[..|s| - 1]) == multiset(Without(t, i))
  {
    var n := |s| - 1;
    assert s == s[..n] + [s[n]];
    assert s[n] in multiset(t);
    i :| 0 <= i < |t| && t[i] == s[n];
    TakeOut(t, i);
  }

  lemma EmptyRearranged<T>(s: seq<T>, t: seq<T>)
    requires multiset(s) == multiset(t)
    ensures s == [] <==> t == []
  {
    assert |s| == |multiset(s)| && |t| == |multiset(t)|;
  }

  lemma SumTakeOut<T>(rows: seq<T>, i: nat, value: T -> real)
    requires i < |rows|
    ensures Sum(rows, value) == Sum(Without(rows, i), value) + value(rows[i])
  {
    TakeOut(rows, i);
    var before, x, after := rows[..i], [rows[i]], rows[i + 1..];
    assert x == [] + x;
    SumSnoc([], rows[i], value);
    SumConcat(before, x + after, value);
    SumConcat(x, after, value);
    SumConcat(before, after, value);
  }

  lemma CountTakeOut<T>(rows: seq<T>, i: nat, holds: T -> bool)
    requires i < |rows|
    ensures CountIf(rows, holds) == CountIf(Without(rows, i), holds) + (if holds(rows[i]) then 1 else 0)
  {
    TakeOut(rows, i);
    var before, x, after := rows[..i], [rows[i]], rows[i + 1..];
    assert x == [] + x;
    CountSnoc([], rows[i], holds);
    CountConcat(before, x + after, holds);
    CountConcat(x, after, holds);
    CountConcat(before, after, holds);
  }

  /** A total depends on the rows, not on their order. */
  lemma {:induction false} SumRearranged<T>(s: seq<T>, t: seq<T>, value: T -> real)
    requires multiset(s) == multiset(t)
    ensures Sum(s, value) == Sum(t, value)
    decreases |s|
  {
    hide Without;
    EmptyRearranged(s, t);
    if s != [] {
      var i := LastElsewhere(s, t);
      SumRearranged(s[..|s| - 1], Without(t, i), value);
      SumTakeOut(t, i, value);
    }
  }

  /** So does a count. */
  lemma {:induction false} CountRearranged<T>(s: seq<T>, t: seq<T>, holds: T -> bool)
    requires multiset(s) == multiset(t)
    ensures CountIf(s, holds) == CountIf(t, holds)
    decreases |s|
  {
    hide Without;
    EmptyRearranged(s, t);
    if s != [] {
      var i := LastElsewhere(s, t);
      CountRearranged(s[..|s| - 1], Without(t, i), holds);
      CountTakeOut(t, i, holds);
    }
  }

  lemma {:induction false} SumAdds<T>(rows: seq<T>, a: T -> real, b: T -> real, c: T -> real)
    requires forall i :: 0 <= i < |rows| ==> c(rows[i]) == a(rows[i]) + b(rows[i])
    ensures Sum(rows, c) == Sum(rows, a) + Sum(rows, b)
  {
    if rows != [] {
      SumAdds(rows[..|rows| - 1], a, b, c);
    }
  }

  lemma {:induction false} SumNonNegative<T>(rows: seq<T>, value: T -> real)
    requires forall i :: 0 <= i < |rows| ==> value(rows[i]) >= 0.0
    ensures Sum(rows, value) >= 0.0
  {
    if rows != [] {
      SumNonNegative(rows[..|rows| - 1], value);
    }
  }

  lemma SumPositive<T>(rows: seq<T>, value: T -> real)
    requires rows != [] && forall i :: 0 <= i < |rows| ==> value(rows[i]) > 0.0
    ensures Sum(rows, value) > 0.0
  {
    SumNonNegative(rows[..|rows| - 1], value);
  }

  lemma {:induction false} CountSplits<T>(rows: seq<T>, a: T -> bool, b: T -> bool)
    requires forall i :: 0 <= i < |rows| ==> (a(rows[i]) <==> !b(rows[i]))
    ensures CountIf(rows, a) + CountIf(rows, b) == |rows|
  {
    if rows != [] {
      CountSplits(rows[..|rows| - 1], a, b);
    }
  }

  lemma EmptyPositions(positions: set<int>)
    requires forall i :: i !in positions
    ensures positions == {}
  {
    assert forall i :: i in positions ==> i in {};
  }

  /** A count is the number of positions that hold. */
  lemma {:induction false} CountIsCardinality<T>(rows: seq<T>, holds: T -> bool, positions: set<int>)
    requires forall i :: i in positions <==> 0 <= i < |rows| && holds(rows[i])
    ensures CountIf(rows, holds) == |positions|
  {
    if rows == [] {
      EmptyPositions(positions);
    } else {
      CountIsCardinality(rows[..|rows| - 1], holds, positions - {|rows| - 1});
    }
  }

  /** Totals keep the proportion every row has. */
  lemma {:induction false} SumProportional<T>(rows: seq<T>, a: T -> real, b: T -> real, x: real, y: real)
    requires forall i :: 0 <= i < |rows| ==> a(rows[i]) * x == b(rows[i]) * y
    ensures Sum(rows, a) * x == Sum(rows, b) * y
  {
    if rows != [] {
      var front, last := rows[..|rows| - 1], rows[|rows| - 1];
      SumProportional(front, a, b, x, y);
      assert (Sum(front, a) + a(last)) * x == Sum(front, a) * x + a(last) * x;
      assert (Sum(front, b) + b(last)) * y == Sum(front, b) * y + b(last) * y;
    }
  }
}
