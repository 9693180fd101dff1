/** What the program as a whole is for: the stream of usage reports that a sequence of snapshots
    yields. */
module UsageStream {
  import opened CpuUsage

  predicate AllFit(snapshots: seq<Grid>, layout: Layout) {
    forall i | 0 <= i < |snapshots| :: Fits(snapshots[i], layout)
  }

  /** The specification: from the first n pairs of consecutive snapshots, the usage computed from
      each pair whose position is not in `dropped`. */
  function Stream(snapshots: seq<Grid>, dropped: set<nat>, n: nat, layout: Layout): seq<seq<real>>
    requires AllFit(snapshots, layout) && layout.columns >= 8 && (n == 0 || n < |snapshots|)
  {
    if n == 0 then [] else
    var before := Stream(snapshots, dropped, n - 1, layout);
    if n - 1 in dropped then before else before + [Usage(snapshots[n - 1], snapshots[n], layout)]
  }

  lemma {:induction false} StreamFrame(
      snapshots: seq<Grid>, more: seq<Grid>, dropped: set<nat>, dropped': set<nat>, n: nat, layout: Layout)
    requires snapshots <= more && AllFit(more, layout) && layout.columns >= 8 && (n == 0 || n < |snapshots|)
    requires forall k | 0 <= k < n :: k in dropped <==> k in dropped'
    ensures AllFit(snapshots, layout)
    ensures Stream(more, dropped', n, layout) == Stream(snapshots, dropped, n, layout)
  {
    forall i | 0 <= i < |snapshots| ensures Fits(snapshots[i], layout) {
      assert snapshots[i] == more[i];
    }
    if n == 0 {
    } else {
      StreamFrame(snapshots, more, dropped, dropped', n - 1, layout);
    }
  }

  lemma {:induction false} StreamGrows(snapshots: seq<Grid>, dropped: set<nat>, n: nat, n': nat, layout: Layout)
    requires AllFit(snapshots, layout) && layout.columns >= 8 && (n' == 0 || n' < |snapshots|) && n <= n'
    ensures Stream(snapshots, dropped, n, layout) <= Stream(snapshots, dropped, n', layout)
  {
    if n == n' {
    } else {
      StreamGrows(snapshots, dropped, n, n' - 1, layout);
    }
  }

  /** How many of the first `n` pairs are not dropped. */
  function Kept(dropped: set<nat>, n: nat): nat {
    if n == 0 then 0 else Kept(dropped, n - 1) + if n - 1 in dropped then 0 else 1
  }

  /** Report number `i` of the stream is the usage of the `i`-th pair that was not dropped, and what it shows
      of each row is that row's share; there are no more and no fewer reports than such pairs. */
  lemma {:induction false} ReportIsUsage(snapshots: seq<Grid>, dropped: set<nat>, n: nat, layout: Layout, i: nat)
    returns (k: nat)
    requires AllFit(snapshots, layout) && layout.columns >= 8 && (n == 0 || n < |snapshots|)
    requires i < |Stream(snapshots, dropped, n, layout)|
    ensures k < n && k !in dropped && i == Kept(dropped, k)
    ensures Stream(snapshots, dropped, n, layout)[i] == Usage(snapshots[k], snapshots[k + 1], layout)
    ensures ShowsUsage(Stream(snapshots, dropped, n, layout)[i], snapshots[k], snapshots[k + 1])
    ensures |Stream(snapshots, dropped, n, layout)| == Kept(dropped, n)
  {
    StreamLength(snapshots, dropped, n - 1, layout);
    if i < |Stream(snapshots, dropped, n - 1, layout)| {
      k := ReportIsUsage(snapshots, dropped, n - 1, layout, i);
    } else {
      k := n - 1;
      UsageShowsUsage(snapshots[k], snapshots[k + 1], layout);
    }
  }

  lemma {:induction false} StreamLength(snapshots: seq<Grid>, dropped: set<nat>, n: nat, layout: Layout)
    requires AllFit(snapshots, layout) && layout.columns >= 8 && (n == 0 || n < |snapshots|)
    ensures |Stream(snapshots, dropped, n, layout)| == Kept(dropped, n)
  {
    if n == 0 {
    } else {
      StreamLength(snapshots, dropped, n - 1, layout);
    }
  }

  /** No counter runs backwards from one snapshot to the next. */
  predicate AllForwards(snapshots: seq<Grid>, layout: Layout) {
    && AllFit(snapshots, layout) && layout.columns >= 8
    && forall k {:trigger snapshots[k]} | 0 <= k < |snapshots| - 1 :: Forwards(snapshots[k], snapshots[k + 1], layout)
  }

  /** In every snapshot row 0 sums up the cores. */
  predicate AllWhole(snapshots: seq<Grid>) {
    forall k | 0 <= k < |snapshots| :: FirstIsWhole(snapshots[k])
  }

  /** No core in the line is reported below `lo` or above `hi`. */
  predicate CoresWithin(line: seq<real>, lo: real, hi: real) {
    forall r | 1 <= r < |line| :: lo <= line[r] <= hi
  }

  /** What the bounds of CpuUsage say of any report of the stream. */
  lemma {:induction false} ReportBounds(snapshots: seq<Grid>, dropped: set<nat>, n: nat, layout: Layout, line: seq<real>)
    requires AllForwards(snapshots, layout) && (n == 0 || n < |snapshots|)
    requires line in Stream(snapshots, dropped, n, layout)
    ensures |line| == layout.rows && forall r | 0 <= r < |line| :: 0.0 <= line[r] <= 100.0
    ensures AllWhole(snapshots) && layout.rows >= 2 ==>
              forall lo, hi | CoresWithin(line, lo, hi) :: lo <= line[0] <= hi
  {
    var i :| 0 <= i < |Stream(snapshots, dropped, n, layout)| && Stream(snapshots, dropped, n, layout)[i] == line;
    var k := ReportIsUsage(snapshots, dropped, n, layout, i);
    var prev, curr := snapshots[k], snapshots[k + 1];
    assert Forwards(prev, curr, layout);
    forall r | 0 <= r < |line| ensures 0.0 <= line[r] <= 100.0 {
      UsageIsPercentage(prev, curr, layout, r);
    }
    if AllWhole(snapshots) && layout.rows >= 2 {
      forall lo, hi | CoresWithin(line, lo, hi) ensures lo <= line[0] <= hi {
        TotalReportedBetweenCores(prev, curr, layout, lo, hi);
      }
    }
  }
}
