/** The loops of linux.c that compute on arrays in place, and what a pair of snapshots yields through
    them. */
module StatArrays {
  import opened CpuUsage
  import opened StatText

  /** What a call of stat_cpu_array_create_l comes to. */
  datatype Creation = Created(cells: array<array<real>>) | Null | Crash

  /** stat_cpu_array_create_l. `granted[0]` is what malloc answers to the outer block, `granted[i + 1]` to
      row `i`. Refused the outer block, it stores the first row through NULL, if there is a row; refused a
      row, it leaves NULL for the row's first access, which counts here at once. */
  method Create(layout: Layout, granted: seq<bool>) returns (r: Creation)
    requires |granted| == layout.rows + 1
    ensures r.Created? <==> forall i | 0 <= i < |granted| :: granted[i]
    ensures r.Null? <==> !granted[0] && layout.rows == 0
    ensures r.Created? ==> fresh(r.cells) && Shaped(r.cells, layout)
    ensures r.Created? ==> forall i | 0 <= i < r.cells.Length :: fresh(r.cells[i])
  {
    if !granted[0] {
      return if layout.rows == 0 then Null else Crash;
    }
    var none := new real[0];
    var cells := new array<real>[layout.rows](_ => none);
    var i: nat := 0;
    while i < layout.rows
      invariant i <= layout.rows && fresh(cells) && cells.Length == layout.rows
      invariant forall k | 0 <= k <= i :: granted[k]
      invariant forall k | 0 <= k < i :: fresh(cells[k]) && cells[k].Length == layout.columns
      invariant forall k, l | 0 <= k < l < i :: cells[k] != cells[l]
    {
      if !granted[i + 1] {
        return Crash;
      }
      cells[i] := new real[layout.columns];
      i := i + 1;
    }
    r := Created(cells);
  }

  /** stat_cpu_row_delta_l; the result may be one of the two rows themselves. */
  method RowDeltaInto(prev: array<real>, curr: array<real>, result: array<real>)
    requires prev.Length == curr.Length == result.Length
    modifies result
    ensures result[..] == old(RowDelta(prev[..], curr[..]))
  {
    var i := 0;
    while i < result.Length
      invariant 0 <= i <= result.Length
      invariant forall j | 0 <= j < i :: result[j] == old(curr[j]) - old(prev[j])
      invariant forall j | i <= j < result.Length :: curr[j] == old(curr[j]) && prev[j] == old(prev[j])
    {
      result[i] := curr[i] - prev[i];
      i := i + 1;
    }
  }

  /** No row of one array is a row of the other. */
  ghost predicate Apart(a: array<array<real>>, b: array<array<real>>)
    reads a, b
  {
    forall i, j | 0 <= i < a.Length && 0 <= j < b.Length :: a[i] != b[j]
  }

  /** A row of one array is a row of the other at most in the same place. */
  ghost predicate InPlace(a: array<array<real>>, b: array<array<real>>)
    reads a, b
  {
    forall i, j | 0 <= i < a.Length && 0 <= j < b.Length && i != j :: a[i] != b[j]
  }

  /** stat_cpu_array_delta_l; the result may be one of the two arrays itself. */
  method DeltaInto(prev: array<array<real>>, curr: array<array<real>>, result: array<array<real>>, layout: Layout)
    requires Shaped(prev, layout) && Shaped(curr, layout) && Shaped(result, layout)
    requires InPlace(result, prev) && InPlace(result, curr)
    modifies result[..]
    ensures Shaped(result, layout)
    ensures Contents(result) == old(GridDelta(Contents(prev), Contents(curr), layout))
    ensures Apart(result, prev) ==> Contents(prev) == old(Contents(prev))
    ensures Apart(result, curr) ==> Contents(curr) == old(Contents(curr))
  {
    ghost var goal := GridDelta(Contents(prev), Contents(curr), layout);
    var i: nat := 0;
    while i < layout.rows
      invariant i <= layout.rows
      invariant forall k | i <= k < layout.rows :: prev[k][..] == old(prev[k][..]) && curr[k][..] == old(curr[k][..])
      invariant forall k | 0 <= k < i :: result[k][..] == goal[k]
    {
      RowDeltaInto(prev[i], curr[i], result[i]);
      i := i + 1;
    }
  }

  /** stat_cpu_percentage_array_calculate_l, which answers the number of rows. */
  method PercentagesInto(percentages: array<real>, fields: array<array<real>>, layout: Layout) returns (count: nat)
    requires Shaped(fields, layout) && layout.columns >= 8 && percentages.Length == layout.rows
    requires forall i | 0 <= i < fields.Length :: fields[i] != percentages
    modifies percentages
    ensures count == layout.rows && Contents(fields) == old(Contents(fields))
    ensures percentages[..] == Percentages(Contents(fields), layout)
    ensures forall r | 0 <= r < layout.rows ::
              IsBusyShare(percentages[r], Counted(fields[r][..]), fields[r][3], fields[r][4])
  {
    ghost var was := Contents(fields);
    var i: nat := 0;
    while i < layout.rows
      invariant i <= layout.rows && Contents(fields) == was
      invariant forall k | 0 <= k < i :: percentages[k] == Percentage(was[k])
      invariant forall k | 0 <= k < i :: IsBusyShare(percentages[k], Counted(was[k]), was[k][3], was[k][4])
    {
      percentages[i] := Percentage(fields[i][..]);
      PercentageIsBusyShare(was[i]);
      i := i + 1;
    }
    count := layout.rows;
  }

  /** The two calls the analyzer makes for one pair of snapshots. */
  method Analyze(prev: array<array<real>>, curr: array<array<real>>, delta: array<array<real>>,
                 percentages: array<real>, layout: Layout)
    requires Shaped(prev, layout) && Shaped(curr, layout) && Shaped(delta, layout) && layout.columns >= 8
    requires Apart(delta, prev) && Apart(delta, curr) && percentages.Length == layout.rows
    requires forall i | 0 <= i < layout.rows ::
      prev[i] != percentages && curr[i] != percentages && delta[i] != percentages
    modifies delta[..], percentages
    ensures Contents(prev) == old(Contents(prev)) && Contents(curr) == old(Contents(curr))
    ensures percentages[..] == Usage(Contents(prev), Contents(curr), layout)
    ensures ShowsUsage(percentages[..], Contents(prev), Contents(curr))
  {
    DeltaInto(prev, curr, delta, layout);
    var _ := PercentagesInto(percentages, delta, layout);
    UsageShowsUsage(Contents(prev), Contents(curr), layout);
  }
}
