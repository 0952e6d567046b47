/** The median of a list of values. */
module Medians {
  import opened Aggregates

  predicate Ascending(s: seq<real>) {
    forall i, j :: 0 <= i < j < |s| ==> s[i] <= s[j]
  }

  function Insert(s: seq<real>, x: real): seq<real> {
    if s == [] || s[|s| - 1] <= x then s + [x] else Insert(s[..|s| - 1], x) + [s[|s| - 1]]
  }

  function Sorted(s: seq<real>): seq<real> {
    if s == [] then [] else Insert(Sorted(s[..|s| - 1]), s[|s| - 1])
  }

  /** The middle value in ascending order, or the mean of the two middle ones; zero for no values. */
  function Median(values: seq<real>): real {
    if values == [] then
      0.0
    else
      SortedFacts(values);
      var sorted, midpoint := Sorted(values), |values| / 2;
      if |values| % 2 == 1 then sorted[midpoint] else (sorted[midpoint - 1] + sorted[midpoint]) / 2.0
  }

  lemma {:induction false} InsertMembers(s: seq<real>, x: real)
    ensures |Insert(s, x)| == |s| + 1
    ensures multiset(Insert(s, x)) == multiset(s) + multiset{x}
  {
    if s != [] && s[|s| - 1] > x {
      assert s == s[..|s| - 1] + [s[|s| - 1]];
      InsertMembers(s[..|s| - 1], x);
    }
  }

  lemma {:induction false} InsertAscends(s: seq<real>, x: real)
    requires Ascending(s)
    ensures Ascending(Insert(s, x))
  {
    if s != [] && s[|s| - 1] > x {
      var front, last := s[..|s| - 1], s[|s| - 1];
      InsertAscends(front, x);
      InsertMembers(front, x);
      forall i | 0 <= i < |Insert(front, x)| ensures Insert(front, x)[i] <= last {
        assert Insert(front, x)[i] in multiset(front) + multiset{x};
      }
    }
  }

  lemma {:induction false} SortedFacts(s: seq<real>)
    ensures Ascending(Sorted(s)) && multiset(Sorted(s)) == multiset(s) && |Sorted(s)| == |s|
  {
    if s != [] {
      var front, last := s[..|s| - 1], s[|s| - 1];
      assert s == front + [last];
      SortedFacts(front);
      InsertMembers(Sorted(front), last);
      InsertAscends(Sorted(front), last);
    }
  }

  function Above(m: real): real -> bool { x => x > m }

  function Below(m: real): real -> bool { x => x < m }

  lemma {:induction false} CountNone(s: seq<real>, p: real -> bool)
    requires forall i :: 0 <= i < |s| ==> !p(s[i])
    ensures CountIf(s, p) == 0
  {
    if s != [] {
      CountNone(s[..|s| - 1], p);
    }
  }

  /** At most the entries from `low` up to `high` can satisfy a condition that fails elsewhere. */
  lemma CountPart(s: seq<real>, p: real -> bool, low: nat, high: nat)
    requires low <= high <= |s|
    requires forall i :: 0 <= i < low || high <= i < |s| ==> !p(s[i])
    ensures CountIf(s, p) <= high - low
  {
    hide CountIf;
    var a, b, c := s[..low], s[low..high], s[high..];
    assert s == (a + b) + c;
    CountConcat(a + b, c, p);
    CountConcat(a, b, p);
    CountNone(a, p);
    CountNone(c, p);
  }

  lemma MedianBetween(values: seq<real>)
    requires values != []
    ensures |Sorted(values)| == |values|
    ensures forall i :: 0 <= i < |values| - |values| / 2 ==> Sorted(values)[i] <= Median(values)
    ensures forall i :: |values| / 2 <= i < |values| ==> Median(values) <= Sorted(values)[i]
  {
    hide Sorted;
    SortedFacts(values);
  }

  /** At most half of the values lie above the median, and at most half below. */
  lemma MedianHalves(values: seq<real>)
    ensures CountIf(values, Above(Median(values))) <= |values| / 2
    ensures CountIf(values, Below(Median(values))) <= |values| / 2
  {
    hide Sorted, Median, CountIf;
    if values == [] {
      CountNone(values, Above(Median(values)));
      CountNone(values, Below(Median(values)));
    } else {
      var sorted, n, m := Sorted(values), |values|, Median(values);
      SortedFacts(values);
      MedianBetween(values);
      CountRearranged(values, sorted, Above(m));
      CountRearranged(values, sorted, Below(m));
      CountPart(sorted, Above(m), n - n / 2, n);
      CountPart(sorted, Below(m), 0, n / 2);
    }
  }

  /** The number midway between the two middle values in ascending order, which are one when the count is odd. */
  ghost predicate IsMedian(m: real, values: seq<real>) {
    if values == [] then
      m == 0.0
    else
      exists sorted :: && Ascending(sorted) && multiset(sorted) == multiset(values) && |sorted| == |values|
                       && 2.0 * m == sorted[(|values| - 1) / 2] + sorted[|values| / 2]
  }

  lemma MedianIsMiddle(values: seq<real>)
    ensures IsMedian(Median(values), values)
  {
    hide Sorted;
    SortedFacts(values);
    if values != [] {
      var sorted, n := Sorted(values), |values|;
      assert 2.0 * Median(values) == sorted[(n - 1) / 2] + sorted[n / 2];
    }
  }
}
