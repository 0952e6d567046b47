/**
 Data-frame columns: a missing number is None. Shifts and trailing windows look only backwards, so a column's
 first `n` entries depend only on the first `n` entries of the columns it is made from.
 */
module Columns {
  import opened Wrappers
  import opened Aggregates

  type Series = seq<Option<real>>

  /** The value `k` rows earlier. */
  function Shift(c: Series, k: nat): (r: Series)
    ensures |r| == |c|
  {
    seq(|c|, i requires 0 <= i < |c| => if i < k then None else c[i - k])
  }

  function Divide(a: Option<real>, b: Option<real>): Option<real> {
    if a.None? || b.None? || b.value == 0.0 then None else Some(a.value / b.value)
  }

  function Ratio(a: Series, b: Series): (r: Series)
    requires |a| == |b|
    ensures |r| == |a|
  {
    seq(|a|, i requires 0 <= i < |a| => Divide(a[i], b[i]))
  }

  function Difference(a: Series, b: Series): (r: Series)
    requires |a| == |b|
    ensures |r| == |a|
  {
    seq(|a|, i requires 0 <= i < |a| => if a[i].None? || b[i].None? then None else Some(a[i].value - b[i].value))
  }

  /** Applies a function to every known value. */
  function Mapped(c: Series, f: real -> real): (r: Series)
    ensures |r| == |c|
  {
    seq(|c|, i requires 0 <= i < |c| => if c[i].None? then None else Some(f(c[i].value)))
  }

  function LessOne(x: real): real {
    x - 1.0
  }

  function Complete(window: seq<Option<real>>): bool {
    forall i :: 0 <= i < |window| ==> window[i].Some?
  }

  function Values(window: seq<Option<real>>): (r: seq<real>)
    requires Complete(window)
    ensures |r| == |window|
  {
    seq(|window|, i requires 0 <= i < |window| => window[i].value)
  }

  function Identity(x: real): real {
    x
  }

  function Mean(values: seq<real>): real
    requires values != []
  {
    Sum(values, Identity) / (|values| as real)
  }

  function SquaredDeviation(mean: real): real -> real {
    x => (x - mean) * (x - mean)
  }

  /** Sum of squared deviations over the count less `ddof`. */
  function Variance(values: seq<real>, ddof: nat): real
    requires |values| > ddof
  {
    Sum(values, SquaredDeviation(Mean(values))) / ((|values| - ddof) as real)
  }

  /** A statistic of the last `w` values; unknown until there are `w` known ones. */
  function Rolling(c: Series, w: nat, statistic: seq<real> -> real): (r: Series)
    ensures |r| == |c|
  {
    seq(|c|, i requires 0 <= i < |c| =>
      if i + 1 < w || !Complete(c[i + 1 - w..i + 1]) then None else Some(statistic(Values(c[i + 1 - w..i + 1]))))
  }

  function MeanOrZero(values: seq<real>): real {
    if values == [] then 0.0 else Mean(values)
  }

  function RollingMean(c: Series, w: nat): (r: Series)
    ensures |r| == |c|
  {
    Rolling(c, w, MeanOrZero)
  }

  function Deviation(ddof: nat, sqrt: real -> real): seq<real> -> real {
    values => if |values| <= ddof then 0.0 else sqrt(Variance(values, ddof))
  }

  function RollingStd(c: Series, w: nat, ddof: nat, sqrt: real -> real): (r: Series)
    ensures |r| == |c|
  {
    Rolling(c, w, Deviation(ddof, sqrt))
  }

  // ---------------------------------------------------------------- looking only backwards

  ghost predicate Agree<T(!new)>(a: seq<T>, b: seq<T>, n: nat) {
    n <= |a| && n <= |b| && forall i :: 0 <= i < n ==> a[i] == b[i]
  }

  lemma ShiftAgrees(a: Series, b: Series, k: nat, n: nat)
    requires Agree(a, b, n)
    ensures Agree(Shift(a, k), Shift(b, k), n)
  {
  }

  lemma RatioAgrees(a: Series, b: Series, c: Series, d: Series, n: nat)
    requires |a| == |b| && |c| == |d| && Agree(a, c, n) && Agree(b, d, n)
    ensures Agree(Ratio(a, b), Ratio(c, d), n)
  {
  }

  lemma DifferenceAgrees(a: Series, b: Series, c: Series, d: Series, n: nat)
    requires |a| == |b| && |c| == |d| && Agree(a, c, n) && Agree(b, d, n)
    ensures Agree(Difference(a, b), Difference(c, d), n)
  {
  }

  lemma MappedAgrees(a: Series, b: Series, f: real -> real, n: nat)
    requires Agree(a, b, n)
    ensures Agree(Mapped(a, f), Mapped(b, f), n)
  {
  }

  lemma RollingAgrees(a: Series, b: Series, w: nat, statistic: seq<real> -> real, n: nat)
    requires Agree(a, b, n)
    ensures Agree(Rolling(a, w, statistic), Rolling(b, w, statistic), n)
  {
    forall i | 0 <= i < n ensures Rolling(a, w, statistic)[i] == Rolling(b, w, statistic)[i] {
      if w <= i + 1 {
        assert a[i + 1 - w..i + 1] == b[i + 1 - w..i + 1];
      }
    }
  }

  // ---------------------------------------------------------------- where columns are known

  ghost predicate KnownFrom(c: Series, start: nat) {
    forall i :: start <= i < |c| ==> c[i].Some?
  }

  lemma RollingKnown(c: Series, w: nat, statistic: seq<real> -> real, start: nat)
    requires w >= 1 && KnownFrom(c, start)
    ensures KnownFrom(Rolling(c, w, statistic), start + w - 1)
  {
    forall i | start + w - 1 <= i < |c| ensures Rolling(c, w, statistic)[i].Some? {
      var window := c[i + 1 - w..i + 1];
      assert forall k :: 0 <= k < w ==> window[k] == c[i + 1 - w + k];
      assert Complete(window);
    }
  }

  ghost predicate PositiveFrom(c: Series, start: nat) {
    forall i :: start <= i < |c| ==> c[i].Some? && c[i].value > 0.0
  }

  lemma MeanPositive(values: seq<real>)
    requires values != [] && forall i :: 0 <= i < |values| ==> values[i] > 0.0
    ensures Mean(values) > 0.0
  {
    SumPositive(values, Identity);
    var n := |values| as real;
    assert Mean(values) * n == Sum(values, Identity);
  }

  lemma RollingMeanPositive(c: Series, w: nat, start: nat)
    requires w >= 1 && PositiveFrom(c, start)
    ensures PositiveFrom(RollingMean(c, w), start + w - 1)
  {
    forall i | start + w - 1 <= i < |c| ensures RollingMean(c, w)[i].Some? && RollingMean(c, w)[i].value > 0.0 {
      var window := c[i + 1 - w..i + 1];
      assert forall k :: 0 <= k < w ==> window[k] == c[i + 1 - w + k];
      var values := Values(window);
      assert forall k :: 0 <= k < w ==> values[k] == c[i + 1 - w + k].value;
      MeanPositive(values);
      assert RollingMean(c, w)[i] == Some(MeanOrZero(values));
    }
  }

  // ---------------------------------------------------------------- row selection by mask

  /** Those of the first `n` rows whose mask entry is set, in order. */
  function Chosen<T>(rows: seq<T>, mask: seq<bool>, n: nat): seq<T>
    requires |rows| == |mask| && n <= |rows|
  {
    if n == 0 then
      []
    else if mask[n - 1] then
      Chosen(rows, mask, n - 1) + [rows[n - 1]]
    else
      Chosen(rows, mask, n - 1)
  }

  function Select<T>(rows: seq<T>, mask: seq<bool>): seq<T>
    requires |rows| == |mask|
  {
    Chosen(rows, mask, |rows|)
  }

  function CountSet(mask: seq<bool>): nat {
    |Select(mask, mask)|
  }

  /** The mask is set at positions `low` up to, not including, `high`, and nowhere else. */
  ghost predicate SetExactlyOn(mask: seq<bool>, low: nat, high: nat) {
    low <= high <= |mask| && forall i :: 0 <= i < |mask| ==> (mask[i] <==> low <= i < high)
  }

  lemma {:induction false} ChosenSlice<T>(rows: seq<T>, mask: seq<bool>, low: nat, high: nat, n: nat)
    requires |rows| == |mask| && SetExactlyOn(mask, low, high) && n <= |rows|
    ensures Chosen(rows, mask, n) == if n <= low then [] else rows[low..if n < high then n else high]
  {
    if n > 0 {
      ChosenSlice(rows, mask, low, high, n - 1);
      if low < n <= high {
        assert rows[low..n] == rows[low..n - 1] + [rows[n - 1]];
      }
    }
  }

  /** A mask set exactly on an interval of positions selects that slice. */
  lemma SelectSlice<T>(rows: seq<T>, mask: seq<bool>, low: nat, high: nat)
    requires |rows| == |mask| && SetExactlyOn(mask, low, high)
    ensures Select(rows, mask) == rows[low..high]
    ensures CountSet(mask) == high - low
  {
    ChosenSlice(rows, mask, low, high, |rows|);
    ChosenSlice(mask, mask, low, high, |mask|);
  }
}
