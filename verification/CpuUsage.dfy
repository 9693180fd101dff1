/** The arithmetic of linux.c on values, with reals for double: differences of two snapshots and
    the share of work in each row. Row 0 is the whole machine, the other rows are the cores. */
module CpuUsage {

  type Row = seq<real>
  type Grid = seq<Row>

  /** stat_layout_t: rows and numeric columns of the cpu section. */
  datatype Layout = Layout(rows: nat, columns: nat)

  predicate Fits(g: Grid, layout: Layout) {
    |g| == layout.rows && forall i | 0 <= i < |g| :: |g[i]| == layout.columns
  }

  function RowDelta(prev: Row, curr: Row): Row
    requires |prev| == |curr|
  {
    seq(|curr|, j requires 0 <= j < |curr| => curr[j] - prev[j])
  }

  function GridDelta(prev: Grid, curr: Grid, layout: Layout): (delta: Grid)
    requires Fits(prev, layout) && Fits(curr, layout)
    ensures Fits(delta, layout)
  {
    seq(|curr|, i requires 0 <= i < |curr| => RowDelta(prev[i], curr[i]))
  }

  /** user, nice, system, irq, softirq and steal. */
  function Work(d: Row): real
    requires |d| >= 8
  {
    d[0] + d[1] + d[2] + d[5] + d[6] + d[7]
  }

  /** Work, idle and iowait. */
  function Total(d: Row): real
    requires |d| >= 8
  {
    Work(d) + d[3] + d[4]
  }

  function Percentage(d: Row): real
    requires |d| >= 8
  {
    if Total(d) == 0.0 then 0.0 else Work(d) * 100.0 / Total(d)
  }

  function Percentages(delta: Grid, layout: Layout): (p: seq<real>)
    requires Fits(delta, layout) && (layout.rows == 0 || layout.columns >= 8)
    ensures |p| == layout.rows
  {
    seq(|delta|, i requires 0 <= i < |delta| => Percentage(delta[i]))
  }

  /** What one report is computed from: two consecutive snapshots. */
  function Usage(prev: Grid, curr: Grid, layout: Layout): (p: seq<real>)
    requires Fits(prev, layout) && Fits(curr, layout) && layout.columns >= 8
    ensures |p| == layout.rows
  {
    Percentages(GridDelta(prev, curr, layout), layout)
  }

  // ---------- bounds ----------

  predicate NonNegative(d: Row) {
    |d| >= 8 && forall j | 0 <= j < 8 :: d[j] >= 0.0
  }

  /** w is, in percent of t, between lo and hi. */
  predicate Between(w: real, t: real, lo: real, hi: real) {
    lo * t <= 100.0 * w <= hi * t
  }

  lemma QuotientBounds(w: real, t: real, lo: real, hi: real)
    requires t > 0.0
    ensures lo <= w * 100.0 / t <= hi <==> Between(w, t, lo, hi)
  {
    var q := w * 100.0 / t;
    assert q * t == w * 100.0;
    if lo <= q { assert lo * t <= q * t; } else { assert lo * t > q * t; }
    if q <= hi { assert q * t <= hi * t; } else { assert q * t > hi * t; }
  }

  lemma BetweenAddsUp(w: real, t: real, w': real, t': real, lo: real, hi: real)
    requires Between(w, t, lo, hi) && Between(w', t', lo, hi)
    ensures Between(w + w', t + t', lo, hi)
  {
    assert lo * (t + t') == lo * t + lo * t';
    assert hi * (t + t') == hi * t + hi * t';
  }

  /** A row's percentage lies between two bounds just when its work does, in percent of its total. */
  lemma PercentageBetween(d: Row, lo: real, hi: real)
    requires |d| >= 8 && Total(d) > 0.0
    ensures lo <= Percentage(d) <= hi <==> Between(Work(d), Total(d), lo, hi)
  {
    QuotientBounds(Work(d), Total(d), lo, hi);
  }

  /** All that a row counts in the eight columns. */
  function Counted(d: Row): real
    requires |d| >= 8
  {
    d[0] + d[1] + d[2] + d[3] + d[4] + d[5] + d[6] + d[7]
  }

  /** `x` is what is left of `all` without `idle` and `iowait`, in percent of it; and 0 if there is nothing. */
  predicate IsBusyShare(x: real, all: real, idle: real, iowait: real) {
    if all == 0.0 then x == 0.0 else x * all == 100.0 * (all - idle - iowait)
  }

  /** What the number is: of all that was counted in the eight columns, everything but idle and iowait. */
  lemma PercentageIsBusyShare(d: Row)
    requires |d| >= 8
    ensures IsBusyShare(Percentage(d), Counted(d), d[3], d[4])
  {
    assert Total(d) == Counted(d) && Work(d) == Counted(d) - d[3] - d[4];
    if Total(d) != 0.0 {
      assert Percentage(d) * Total(d) == Work(d) * 100.0;
    }
  }

  /** With non-negative differences every percentage lies between 0 and 100. */
  lemma PercentageInRange(d: Row)
    requires NonNegative(d)
    ensures 0.0 <= Percentage(d) <= 100.0
  {
    if Total(d) != 0.0 {
      PercentageBetween(d, 0.0, 100.0);
    }
  }

  function ColumnSum(cores: Grid, j: nat): real
    requires forall i | 0 <= i < |cores| :: j < |cores[i]|
  {
    if cores == [] then 0.0 else cores[0][j] + ColumnSum(cores[1..], j)
  }

  function SumOfWork(cores: Grid): real
    requires forall i | 0 <= i < |cores| :: |cores[i]| >= 8
  {
    if cores == [] then 0.0 else Work(cores[0]) + SumOfWork(cores[1..])
  }

  function SumOfTotals(cores: Grid): real
    requires forall i | 0 <= i < |cores| :: |cores[i]| >= 8
  {
    if cores == [] then 0.0 else Total(cores[0]) + SumOfTotals(cores[1..])
  }

  /** `whole` is, in the eight columns that count, the column-wise sum of the cores. */
  predicate IsWhole(whole: Row, cores: Grid) {
    && |whole| >= 8
    && (forall i | 0 <= i < |cores| :: |cores[i]| >= 8)
    && forall j | 0 <= j < 8 :: whole[j] == ColumnSum(cores, j)
  }

  lemma {:induction false} ColumnsAddUp(cores: Grid)
    requires forall i | 0 <= i < |cores| :: |cores[i]| >= 8
    ensures
      && SumOfWork(cores) == ColumnSum(cores, 0) + ColumnSum(cores, 1) + ColumnSum(cores, 2)
                             + ColumnSum(cores, 5) + ColumnSum(cores, 6) + ColumnSum(cores, 7)
      && SumOfTotals(cores) == SumOfWork(cores) + ColumnSum(cores, 3) + ColumnSum(cores, 4)
  {
    if cores == [] {
    } else {
      ColumnsAddUp(cores[1..]);
    }
  }

  predicate RowsBetween(cores: Grid, lo: real, hi: real) {
    forall i | 0 <= i < |cores| :: |cores[i]| >= 8 && NonNegative(cores[i]) && lo <= Percentage(cores[i]) <= hi
  }

  lemma {:induction false} SumsBetween(cores: Grid, lo: real, hi: real)
    requires RowsBetween(cores, lo, hi)
    ensures Between(SumOfWork(cores), SumOfTotals(cores), lo, hi)
    ensures SumOfTotals(cores) >= 0.0
  {
    if cores == [] {
    } else {
      var d, rest := cores[0], cores[1..];
      SumsBetween(rest, lo, hi);
      if Total(d) > 0.0 {
        PercentageBetween(d, lo, hi);
      }
      BetweenAddsUp(Work(d), Total(d), SumOfWork(rest), SumOfTotals(rest), lo, hi);
    }
  }

  /** The whole machine's percentage lies between the least and the greatest of its cores', cores
      that did nothing at all included. */
  lemma WholeBetweenCores(whole: Row, cores: Grid, lo: real, hi: real)
    requires cores != [] && IsWhole(whole, cores) && RowsBetween(cores, lo, hi)
    ensures lo <= Percentage(whole) <= hi
  {
    ColumnsAddUp(cores);
    SumsBetween(cores, lo, hi);
    assert Work(whole) == SumOfWork(cores) && Total(whole) == SumOfTotals(cores);
    if Total(whole) > 0.0 {
      PercentageBetween(whole, lo, hi);
    } else {
      SumsBetween(cores[1..], lo, hi);
      assert Total(cores[0]) == 0.0;
    }
  }

  // ---------- from the counters to the report ----------

  /** The kernel's counters do not run backwards between the two snapshots. */
  predicate Forwards(prev: Grid, curr: Grid, layout: Layout)
    requires Fits(prev, layout) && Fits(curr, layout) && layout.columns >= 8
  {
    forall i, j | 0 <= i < layout.rows && 0 <= j < 8 :: prev[i][j] <= curr[i][j]
  }

  /** Row 0 holds the sums over the other rows. */
  predicate FirstIsWhole(g: Grid) {
    g != [] && IsWhole(g[0], g[1..])
  }

  lemma {:induction false} ColumnSumOfDelta(prev: Grid, curr: Grid, delta: Grid, j: nat)
    requires |prev| == |curr| == |delta|
    requires forall i | 0 <= i < |delta| ::
      j < |prev[i]| == |curr[i]| == |delta[i]| && delta[i] == RowDelta(prev[i], curr[i])
    ensures ColumnSum(delta, j) == ColumnSum(curr, j) - ColumnSum(prev, j)
  {
    if delta == [] {
    } else {
      ColumnSumOfDelta(prev[1..], curr[1..], delta[1..], j);
    }
  }

  /** Sums over the cores in both snapshots make one in their difference. */
  lemma DeltaIsWhole(prev: Grid, curr: Grid, layout: Layout)
    requires Fits(prev, layout) && Fits(curr, layout) && layout.columns >= 8
    requires FirstIsWhole(prev) && FirstIsWhole(curr)
    ensures FirstIsWhole(GridDelta(prev, curr, layout))
  {
    var delta := GridDelta(prev, curr, layout);
    forall j | 0 <= j < 8 ensures delta[0][j] == ColumnSum(delta[1..], j) {
      ColumnSumOfDelta(prev[1..], curr[1..], delta[1..], j);
    }
  }

  /** `x` is the share in what row `now` counts more than row `before`. */
  predicate IsUsage(x: real, before: Row, now: Row) {
    && |before| >= 8 && |now| >= 8
    && IsBusyShare(x, Counted(now) - Counted(before), now[3] - before[3], now[4] - before[4])
  }

  /** Every number of a line is that of its own row. */
  predicate ShowsUsage(line: seq<real>, prev: Grid, curr: Grid) {
    |line| == |prev| == |curr| && forall r | 0 <= r < |line| :: IsUsage(line[r], prev[r], curr[r])
  }

  /** What a report says about the two snapshots it was computed from, row by row. */
  lemma UsageShowsUsage(prev: Grid, curr: Grid, layout: Layout)
    requires Fits(prev, layout) && Fits(curr, layout) && layout.columns >= 8
    ensures ShowsUsage(Usage(prev, curr, layout), prev, curr)
  {
    forall r | 0 <= r < layout.rows ensures IsUsage(Usage(prev, curr, layout)[r], prev[r], curr[r]) {
      PercentageIsBusyShare(GridDelta(prev, curr, layout)[r]);
    }
  }

  /** With counters that do not run backwards every number reported is a percentage. */
  lemma UsageIsPercentage(prev: Grid, curr: Grid, layout: Layout, i: nat)
    requires Fits(prev, layout) && Fits(curr, layout) && layout.columns >= 8 && i < layout.rows
    requires Forwards(prev, curr, layout)
    ensures NonNegative(GridDelta(prev, curr, layout)[i])
    ensures 0.0 <= Usage(prev, curr, layout)[i] <= 100.0
  {
    assert forall j | 0 <= j < 8 :: prev[i][j] <= curr[i][j];
    PercentageInRange(GridDelta(prev, curr, layout)[i]);
  }

  /** If, besides, row 0 sums up the cores in both snapshots, the total reported lies between any
      bounds on the numbers reported for the cores. */
  lemma TotalReportedBetweenCores(prev: Grid, curr: Grid, layout: Layout, lo: real, hi: real)
    requires Fits(prev, layout) && Fits(curr, layout) && layout.columns >= 8 && layout.rows >= 2
    requires Forwards(prev, curr, layout) && FirstIsWhole(prev) && FirstIsWhole(curr)
    requires forall i | 1 <= i < layout.rows :: lo <= Usage(prev, curr, layout)[i] <= hi
    ensures lo <= Usage(prev, curr, layout)[0] <= hi
  {
    var delta := GridDelta(prev, curr, layout);
    DeltaIsWhole(prev, curr, layout);
    forall i | 0 <= i < |delta[1..]| ensures NonNegative(delta[1..][i]) && lo <= Percentage(delta[1..][i]) <= hi {
      UsageIsPercentage(prev, curr, layout, i + 1);
      assert Usage(prev, curr, layout)[i + 1] == Percentage(delta[i + 1]);
    }
    WholeBetweenCores(delta[0], delta[1..], lo, hi);
  }
}
