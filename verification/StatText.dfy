/** The parts of linux.c that read text: the layout counter and the matrix reader. A stream is its
    character sequence and a position; reading past its end yields EOF. */
module StatText {
  import opened Common
  import opened CpuUsage

  const EOF := -1

  /** isdigit, isalnum and isspace in the C locale; what is not white space; the space itself. */
  datatype CharClass = Digit | Alnum | Space | Visible | Blank

  predicate IsDigit(c: char) { '0' <= c <= '9' }

  predicate Is(kind: CharClass, c: char) {
    match kind
    case Digit => IsDigit(c)
    case Alnum => IsDigit(c) || 'a' <= c <= 'z' || 'A' <= c <= 'Z'
    case Space => c == ' ' || '\t' <= c <= '\r'
    case Visible => !(c == ' ' || '\t' <= c <= '\r')
    case Blank => c == ' '
  }

  // ---------- the layout counter ----------

  /** The first position from `p` on whose character is not of the kind, or the end. */
  function Skip(s: string, p: nat, kind: CharClass): (q: nat)
    requires p <= |s|
    ensures p <= q <= |s|
    decreases |s| - p
  {
    if p < |s| && Is(kind, s[p]) then Skip(s, p + 1, kind) else p
  }

  /** Position `p` holds the character read last. The columns counted from there to the end of
      the line, and the position then reached. */
  function Columns(s: string, p: nat): (r: (nat, nat))
    requires p <= |s|
    ensures p <= r.1 <= |s|
    decreases |s| - p
  {
    if p == |s| || s[p] == '\n' then (0, p) else
    var (columns, end) := Columns(s, Skip(s, Skip(s, p + 1, Blank), Alnum));
    ((if s[p] == ' ' then 1 else 0) + columns, end)
  }

  /** The line ends met from position `p` up to the first 'i', and its position. */
  function LineEnds(s: string, p: nat): (r: (nat, nat))
    requires p <= |s|
    ensures p <= r.1 <= |s|
    decreases |s| - p
  {
    if p == |s| || s[p] == 'i' then (0, p) else
    var (lines, end) := LineEnds(s, p + 1);
    ((if s[p] == '\n' then 1 else 0) + lines, end)
  }

  /** The layout found in a text, and whether the 'i' of "intr" was found after it. */
  function LayoutOf(s: string): (Layout, bool) {
    var (columns, p) := Columns(s, 0);
    var (lines, end) := LineEnds(s, p);
    (Layout(lines, columns), end < |s|)
  }

  /** fgetc. */
  function CharAt(s: string, p: nat): Option<char> {
    if p < |s| then Some(s[p]) else None
  }

  /** The two inner loops of stat_layout_set_lf. */
  method Eat(source: string, p: nat, kind: CharClass) returns (at: nat, c: Option<char>)
    requires p <= |source|
    ensures at == Skip(source, p, kind) && c == CharAt(source, at)
  {
    at, c := p, CharAt(source, p);
    while c.Some? && Is(kind, c.value)
      invariant p <= at <= |source| && c == CharAt(source, at)
      invariant Skip(source, at, kind) == Skip(source, p, kind)
      decreases |source| - at
    {
      at := at + 1;
      c := CharAt(source, at);
    }
  }

  /** The first outer loop of stat_layout_set_lf. */
  method CountColumns(source: string) returns (columns: nat, p: nat)
    ensures (columns, p) == Columns(source, 0) && p <= |source|
  {
    columns, p := 0, 0;
    var c := CharAt(source, p);
    while c.Some? && c.value != '\n'
      invariant p <= |source| && c == CharAt(source, p)
      invariant Columns(source, 0) == (columns + Columns(source, p).0, Columns(source, p).1)
      decreases |source| - p
    {
      if c.value == ' ' {
        columns := columns + 1;
      }
      p, c := Eat(source, p + 1, Blank);
      p, c := Eat(source, p, Alnum);
    }
  }

  /** The second one, from the end of the first line on. */
  method CountLines(source: string, eol: nat) returns (lines: nat, p: nat)
    requires eol <= |source|
    ensures (lines, p) == LineEnds(source, eol) && p <= |source|
  {
    lines, p := 0, eol;
    var c := CharAt(source, p);
    while c.Some? && c.value != 'i'
      invariant p <= |source| && c == CharAt(source, p)
      invariant LineEnds(source, eol) == (lines + LineEnds(source, p).0, LineEnds(source, p).1)
      decreases |source| - p
    {
      if c.value == '\n' {
        lines := lines + 1;
      }
      p := p + 1;
      c := CharAt(source, p);
    }
  }

  /** stat_layout_set_lf. */
  method SetLayout(source: string) returns (layout: Layout, code: int)
    ensures layout == LayoutOf(source).0
    ensures code == if LayoutOf(source).1 then 0 else -1
  {
    var columns, p := CountColumns(source);
    var lines;
    lines, p := CountLines(source, p);
    layout := Layout(lines, columns);
    code := if CharAt(source, p).None? then -1 else 0;
  }

  // ---------- the matrix reader ----------

  function DigitValue(c: char): nat {
    if IsDigit(c) then c as nat - '0' as nat else 0
  }

  /** What the digits from `p` up to `q` are worth. */
  function Worth(s: string, p: nat, q: nat): nat
    requires q <= |s|
    decreases q
  {
    if q <= p then 0 else Worth(s, p, q - 1) * 10 + DigitValue(s[q - 1])
  }

  /** What an fscanf call with one conversion answers: its return value, what it stored, and where
      the stream then stands. */
  datatype Scan = Scan(code: int, value: nat, at: nat)

  /** fscanf with %s: any run of characters that are not white space. */
  function ScanWord(s: string, p: nat): (r: Scan)
    requires p <= |s|
    ensures r.at <= |s| && (r.code == 1 || r.code == EOF)
  {
    var q := Skip(s, p, Space);
    if q == |s| then Scan(EOF, 0, q) else Scan(1, 0, Skip(s, q, Visible))
  }

  /** fscanf with %lf, on decimal naturals. */
  function ScanNumber(s: string, p: nat): (r: Scan)
    requires p <= |s|
    ensures r.at <= |s| && (r.code == 1 || r.code == 0 || r.code == EOF)
  {
    var q := Skip(s, p, Space);
    var e := Skip(s, q, Digit);
    if q == |s| then Scan(EOF, 0, q)
    else if e == q then Scan(0, 0, q)
    else Scan(1, Worth(s, q, e), e)
  }

  /** The numbers stored and the code of the last fscanf. */
  datatype Cells = Cells(row: seq<nat>, code: int, at: nat)

  function ReadCells(s: string, p: nat, columns: nat): (r: Cells)
    requires p <= |s|
    ensures |r.row| <= columns && r.at <= |s| && (r.code == 1 || r.code == 0 || r.code == EOF)
    ensures r.code == 1 <==> |r.row| == columns
    decreases columns
  {
    if columns == 0 then Cells([], 1, p) else
    var scan := ScanNumber(s, p);
    if scan.code != 1 then Cells([], scan.code, scan.at) else
    var rest := ReadCells(s, scan.at, columns - 1);
    Cells([scan.value] + rest.row, rest.code, rest.at)
  }

  /** The rows reached, the last of them as far as it was filled, and the code of the last fscanf. */
  datatype Reading = Reading(rows: seq<seq<nat>>, code: int)

  function ReadRows(s: string, p: nat, layout: Layout): (r: Reading)
    requires p <= |s|
    ensures |r.rows| <= layout.rows && (r.code == 1 || r.code == 0 || r.code == EOF)
    decreases layout.rows
  {
    if layout.rows == 0 then Reading([], 1) else
    var word := ScanWord(s, p);
    if word.code != 1 then Reading([], word.code) else
    var cells := ReadCells(s, word.at, layout.columns);
    if cells.code != 1 then Reading([cells.row], cells.code) else
    var rest := ReadRows(s, cells.at, Layout(layout.rows - 1, layout.columns));
    Reading([cells.row] + rest.rows, rest.code)
  }

  function CellCount(rows: seq<seq<nat>>): nat {
    if rows == [] then 0 else |rows[0]| + CellCount(rows[1..])
  }

  predicate Complete(rows: seq<seq<nat>>, layout: Layout) {
    |rows| == layout.rows && forall i | 0 <= i < |rows| :: |rows[i]| == layout.columns
  }

  /** The return value of stat_cpu_array_read_fl. */
  function ReadCode(r: Reading): int {
    if r.code == EOF then EOF else if r.code == 0 then CellCount(r.rows) else 0
  }

  /** The cells read so far, and those still to come if nothing has gone wrong. */
  function Resume(done: seq<nat>, errFlag: int, s: string, p: nat, columns: nat): Cells
    requires p <= |s|
  {
    if errFlag == 1 then
      var rest := ReadCells(s, p, columns);
      Cells(done + rest.row, rest.code, rest.at)
    else Cells(done, errFlag, p)
  }

  lemma ResumeStep(done: seq<nat>, s: string, p: nat, columns: nat)
    requires p <= |s| && columns > 0
    ensures
      var scan := ScanNumber(s, p);
      Resume(done, 1, s, p, columns) ==
        Resume(if scan.code == 1 then done + [scan.value] else done, scan.code, s, scan.at, columns - 1)
  {
    var scan := ScanNumber(s, p);
    Regroup(done, [scan.value], ReadCells(s, scan.at, columns - 1).row);
  }

  /** `row` written over the front of `base`. */
  function Over(base: Row, row: seq<nat>): (r: Row)
    ensures |r| == |base|
  {
    seq(|base|, j requires 0 <= j < |base| => if j < |row| then row[j] as real else base[j])
  }

  /** `rows`, as far as they go, written over `base`. */
  function OverAll(base: Grid, rows: seq<seq<nat>>): (g: Grid)
    ensures |g| == |base|
  {
    seq(|base|, i requires 0 <= i < |base| => if i < |rows| then Over(base[i], rows[i]) else base[i])
  }

  lemma OverOneCell(base: Row, done: seq<nat>, value: nat)
    requires |done| < |base|
    ensures Over(base, done + [value]) == Over(base, done)[|done| := value as real]
  {
  }

  /** One pass of the inner loop of stat_cpu_array_read_fl. */
  method ReadCell(row: array<real>, j: nat, source: string, p: nat, ghost base: Row, ghost done: seq<nat>)
    returns (errFlag: int, at: nat, ghost more: seq<nat>)
    requires j == |done| < row.Length == |base| && p <= |source| && row[..] == Over(base, done)
    modifies row
    ensures at <= |source| && row[..] == Over(base, more) && |more| == |done| + if errFlag == 1 then 1 else 0
    ensures Resume(more, errFlag, source, at, row.Length - j - 1) == Resume(done, 1, source, p, row.Length - j)
  {
    ResumeStep(done, source, p, row.Length - j);
    var scan := ScanNumber(source, p);
    errFlag, at, more := scan.code, scan.at, done;
    if errFlag == 1 {
      OverOneCell(base, done, scan.value);
      row[j] := scan.value as real;
      more := done + [scan.value];
    }
  }

  /** The inner loop of stat_cpu_array_read_fl: one row, from position `p` on. */
  method ReadRow(row: array<real>, source: string, p: nat, total: nat) returns (errFlag: int, at: nat, readTotal: nat)
    requires p <= |source|
    modifies row
    ensures
      var cells := ReadCells(source, p, row.Length);
      && errFlag == cells.code && at == cells.at && readTotal == total + |cells.row|
      && row[..] == Over(old(row[..]), cells.row)
  {
    errFlag, at, readTotal := 1, p, total;
    ghost var base, done: seq<nat> := row[..], [];
    var j := 0;
    while j < row.Length && errFlag == 1
      invariant |done| <= j <= row.Length && at <= |source|
      invariant errFlag == 1 ==> |done| == j
      invariant readTotal == total + |done|
      invariant Resume(done, errFlag, source, at, row.Length - j) == ReadCells(source, p, row.Length)
      invariant row[..] == Over(base, done)
    {
      errFlag, at, done := ReadCell(row, j, source, at, base, done);
      readTotal := readTotal + if errFlag == 1 then 1 else 0;
      j := j + 1;
    }
  }

  /** stat_cpu_array_create_l gives every row its own block, of the layout's width. */
  ghost predicate Shaped(cells: array<array<real>>, layout: Layout)
    reads cells
  {
    && cells.Length == layout.rows
    && (forall i | 0 <= i < cells.Length :: cells[i].Length == layout.columns)
    && (forall i, k | 0 <= i < k < cells.Length :: cells[i] != cells[k])
  }

  ghost function Contents(cells: array<array<real>>): (g: Grid)
    reads cells, cells[..]
    ensures |g| == cells.Length && forall i | 0 <= i < |g| :: g[i] == cells[i][..]
  {
    seq(cells.Length, i requires 0 <= i < cells.Length reads cells, cells[..] => cells[i][..])
  }

  lemma {:induction false} OverOneMore(base: Grid, done: seq<seq<nat>>, row: seq<nat>)
    requires |done| < |base|
    ensures OverAll(base, done + [row]) == OverAll(base, done)[|done| := Over(OverAll(base, done)[|done|], row)]
  {
  }

  /** The body of the outer loop: skip the label, then read row `i`. */
  method ReadLine(cells: array<array<real>>, i: nat, source: string, p: nat, total: nat, ghost layout: Layout)
    returns (errFlag: int, at: nat, readTotal: nat)
    requires Shaped(cells, layout) && i < layout.rows && p <= |source|
    modifies cells[i]
    ensures Shaped(cells, layout)
    ensures
      var word := ScanWord(source, p);
      var line := ReadCells(source, word.at, layout.columns);
      if word.code == 1 then
        && errFlag == line.code && at == line.at && readTotal == total + |line.row|
        && Contents(cells) == old(Contents(cells))[i := Over(old(Contents(cells))[i], line.row)]
      else errFlag == word.code && at == word.at && readTotal == total && Contents(cells) == old(Contents(cells))
  {
    var word := ScanWord(source, p);
    errFlag, at, readTotal := word.code, word.at, total;
    if errFlag == 1 {
      errFlag, at, readTotal := ReadRow(cells[i], source, at, total);
    }
  }

  /** The cells hold `base` with the rows read so far written over it. */
  ghost predicate Filled(cells: array<array<real>>, base: Grid, done: seq<seq<nat>>, layout: Layout)
    reads cells, cells[..]
  {
    && Shaped(cells, layout) && Fits(base, layout)
    && |done| <= layout.rows && Contents(cells) == OverAll(base, done)
  }

  /** One pass of the outer loop, and what it does to all that is still to come. */
  method ReadNext(cells: array<array<real>>, i: nat, source: string, p: nat, total: nat,
                  ghost base: Grid, ghost done: seq<seq<nat>>, ghost layout: Layout)
    returns (errFlag: int, at: nat, readTotal: nat, ghost more: seq<seq<nat>>)
    requires Filled(cells, base, done, layout) && i == |done| < layout.rows && p <= |source|
    requires total == CellCount(done)
    modifies cells[i]
    ensures Filled(cells, base, more, layout) && at <= |source| && |more| <= |done| + 1
    ensures errFlag == 1 || errFlag == 0 || errFlag == EOF
    ensures errFlag == 1 ==> |more| == |done| + 1
    ensures readTotal == CellCount(more)
    ensures ResumeRows(more, errFlag, source, at, Below(layout, i + 1)) == ResumeRows(done, 1, source, p, Below(layout, i))
  {
    ghost var word := ScanWord(source, p);
    more := done;
    if word.code == 1 {
      more := RowRead(base, done, source, p, Below(layout, i), Below(layout, i + 1), layout);
    } else {
      ResumeRowsStep(done, source, p, Below(layout, i), Below(layout, i + 1));
    }
    errFlag, at, readTotal := ReadLine(cells, i, source, p, total, layout);
  }

  /** The layout of the rows from number `i` on. */
  function Below(layout: Layout, i: nat): Layout
    requires i <= layout.rows
  {
    Layout(layout.rows - i, layout.columns)
  }

  /** The outer loop. `goal` is what is read of the text in all. */
  method ReadAll(cells: array<array<real>>, source: string, layout: Layout, ghost base: Grid, ghost goal: Reading)
    returns (errFlag: int, readTotal: nat, ghost done: seq<seq<nat>>)
    requires Filled(cells, base, [], layout) && ResumeRows([], 1, source, 0, layout) == goal
    modifies cells[..]
    ensures Filled(cells, base, done, layout) && Reading(done, errFlag) == goal && readTotal == CellCount(done)
  {
    var at: nat := 0;
    errFlag, readTotal, done := 1, 0, [];
    var i: nat := 0;
    while i < layout.rows && errFlag == 1
      invariant i <= layout.rows && at <= |source| && Filled(cells, base, done, layout)
      invariant errFlag == 1 ==> |done| == i
      invariant readTotal == CellCount(done)
      invariant ResumeRows(done, errFlag, source, at, Below(layout, i)) == goal
    {
      errFlag, at, readTotal, done := ReadNext(cells, i, source, at, readTotal, base, done, layout);
      i := i + 1;
    }
    NothingToResume(done, errFlag, source, at, Below(layout, i));
  }

  // ---------- where the reading stops ----------

  /** The position after `i` whole rows and `j` more fields, the label being field 0, if all of them match. */
  function At(s: string, columns: nat, i: nat, j: nat): (p: Option<nat>)
    ensures p.Some? ==> p.value <= |s|
    decreases i, j
  {
    if j == 0 then
      if i == 0 then Some(0) else At(s, columns, i - 1, columns + 1)
    else
      match At(s, columns, i, j - 1)
      case None => None
      case Some(p) =>
        var scan := if j == 1 then ScanWord(s, p) else ScanNumber(s, p);
        if scan.code == 1 then Some(scan.at) else None
  }

  /** A space, a tab, a line feed, a vertical tab, a form feed or a carriage return. */
  predicate IsWhite(c: char) {
    c as int in {32, 9, 10, 11, 12, 13}
  }

  /** From `p` up to `q` there is only white space, and `q` is not white space any more. */
  predicate WhiteUpTo(s: string, p: nat, q: nat) {
    p <= q <= |s| && (forall k | p <= k < q :: IsWhite(s[k])) && (q < |s| ==> !IsWhite(s[q]))
  }

  lemma {:induction false} SkipsWhite(s: string, p: nat)
    requires p <= |s|
    ensures WhiteUpTo(s, p, Skip(s, p, Space))
    decreases |s| - p
  {
    if p < |s| && Is(Space, s[p]) {
      SkipsWhite(s, p + 1);
    }
  }

  lemma WhiteOnce(s: string, p: nat, q: nat, r: nat)
    requires WhiteUpTo(s, p, q) && WhiteUpTo(s, p, r)
    ensures q == r
  {
  }

  /** Everything before field `j` of row `i` matches, and from there to the end there is only white space. */
  predicate EndsAt(s: string, columns: nat, i: nat, j: nat) {
    var p := At(s, columns, i, j);
    p.Some? && WhiteUpTo(s, p.value, |s|)
  }

  /** Everything before field `j` of row `i` matches, and there something other than a digit comes next. */
  predicate MismatchesAt(s: string, columns: nat, i: nat, j: nat) {
    var p := At(s, columns, i, j);
    p.Some? && j > 0 && exists q | p.value <= q < |s| :: WhiteUpTo(s, p.value, q) && !('0' <= s[q] <= '9')
  }

  predicate StopsAt(s: string, columns: nat, i: nat, j: nat) {
    EndsAt(s, columns, i, j) || MismatchesAt(s, columns, i, j)
  }

  /** The cells of row `i` from field `j` on: the field `n` at which their reading stops. */
  lemma {:induction false} CellsStop(s: string, columns: nat, i: nat, j: nat, p: nat) returns (n: nat)
    requires 1 <= j <= columns + 1 && At(s, columns, i, j) == Some(p)
    ensures
      var r := ReadCells(s, p, columns + 1 - j);
      && j <= n <= columns + 1 && |r.row| == n - j
      && (r.code == 1 ==> At(s, columns, i, columns + 1) == Some(r.at))
      && (r.code == EOF ==> n <= columns && EndsAt(s, columns, i, n))
      && (r.code == 0 ==> n <= columns && MismatchesAt(s, columns, i, n))
    decreases columns + 1 - j
  {
    var scan := ScanNumber(s, p);
    SkipsWhite(s, p);
    if j == columns + 1 || scan.code != 1 {
      n := j;
    } else {
      n := CellsStop(s, columns, i, j + 1, scan.at);
    }
  }

  /** One row: either all of it is read, or its field `n` is where the reading stops. */
  lemma {:induction false} RowStop(s: string, columns: nat, i: nat, p: nat) returns (n: nat)
    requires At(s, columns, i, 0) == Some(p)
    ensures
      var word := ScanWord(s, p);
      var cells := ReadCells(s, word.at, columns);
      && (word.code != 1 ==> EndsAt(s, columns, i, n) && n == 0)
      && (word.code == 1 && cells.code == 1 ==> At(s, columns, i + 1, 0) == Some(cells.at) && |cells.row| == columns)
      && (word.code == 1 && cells.code == EOF ==> 1 <= n <= columns && EndsAt(s, columns, i, n))
      && (word.code == 1 && cells.code == 0 ==>
            1 <= n <= columns && MismatchesAt(s, columns, i, n) && |cells.row| == n - 1)
  {
    n := 0;
    SkipsWhite(s, p);
    if ScanWord(s, p).code == 1 {
      n := CellsStop(s, columns, i, 1, ScanWord(s, p).at);
    }
  }

  lemma {:induction false} CountsCons(row: seq<nat>, rows: seq<seq<nat>>)
    ensures CellCount([row] + rows) == |row| + CellCount(rows)
  {
    assert ([row] + rows)[1..] == rows;
  }

  lemma OneRowMore(k: nat, i: nat, columns: nat)
    requires i < k
    ensures (k - i) * columns == columns + (k - (i + 1)) * columns
  {
  }

  /** Reading `r` from row `i` on has stopped at field `n` of row `k`, unless it has come to the end. */
  predicate Stopped(s: string, layout: Layout, i: nat, r: Reading, k: nat, n: nat) {
    && (r.code == 1 ==> At(s, layout.columns, layout.rows, 0).Some?)
    && (r.code != 1 ==> i <= k < layout.rows && n <= layout.columns)
    && (r.code == EOF ==> EndsAt(s, layout.columns, k, n))
    && (r.code == 0 ==> MismatchesAt(s, layout.columns, k, n) && CellCount(r.rows) == (k - i) * layout.columns + n - 1)
  }

  lemma {:induction false} StopsInRow(s: string, layout: Layout, i: nat, p: nat) returns (n: nat)
    requires i < layout.rows && At(s, layout.columns, i, 0) == Some(p)
    requires ScanWord(s, p).code == 1 ==> ReadCells(s, ScanWord(s, p).at, layout.columns).code != 1
    ensures Stopped(s, layout, i, ReadRows(s, p, Below(layout, i)), i, n)
  {
    n := RowStop(s, layout.columns, i, p);
    CountsCons(ReadCells(s, ScanWord(s, p).at, layout.columns).row, []);
  }

  lemma RowBefore(s: string, layout: Layout, i: nat, row: seq<nat>, r: Reading, k: nat, n: nat)
    requires Stopped(s, layout, i + 1, r, k, n) && |row| == layout.columns
    ensures Stopped(s, layout, i, Reading([row] + r.rows, r.code), k, n)
  {
    CountsCons(row, r.rows);
    if i < k { OneRowMore(k, i, layout.columns); }
  }

  /** The rows from number `i` on: where their reading stops. */
  lemma {:induction false} RowsStop(s: string, layout: Layout, i: nat, p: nat) returns (k: nat, n: nat)
    requires i <= layout.rows && At(s, layout.columns, i, 0) == Some(p)
    ensures Stopped(s, layout, i, ReadRows(s, p, Below(layout, i)), k, n)
    decreases layout.rows - i
  {
    hide WhiteUpTo, EndsAt, MismatchesAt;
    k, n := i, 0;
    if i < layout.rows {
      var word := ScanWord(s, p);
      var cells := ReadCells(s, word.at, layout.columns);
      if word.code == 1 && cells.code == 1 {
        var _ := RowStop(s, layout.columns, i, p);
        k, n := RowsStop(s, layout, i + 1, cells.at);
        ReadRowsUnfolds(s, p, Below(layout, i), Below(layout, i + 1));
        RowBefore(s, layout, i, cells.row, ReadRows(s, cells.at, Below(layout, i + 1)), k, n);
      } else {
        n := StopsInRow(s, layout, i, p);
      }
    }
  }

  predicate Before(i: nat, j: nat, k: nat, n: nat) {
    i < k || (i == k && j < n)
  }

  lemma {:induction false} StopsThere(s: string, columns: nat, i: nat, j: nat)
    requires StopsAt(s, columns, i, j)
    ensures At(s, columns, i, j + 1).None?
  {
    var p := At(s, columns, i, j).value;
    SkipsWhite(s, p);
    if EndsAt(s, columns, i, j) {
      WhiteOnce(s, p, Skip(s, p, Space), |s|);
    } else {
      var q :| p <= q < |s| && WhiteUpTo(s, p, q) && !('0' <= s[q] <= '9');
      WhiteOnce(s, p, Skip(s, p, Space), q);
    }
  }

  /** Where the reading stops, it stops for good. */
  lemma {:induction false} NothingAfterStop(s: string, columns: nat, i: nat, j: nat, k: nat, n: nat)
    requires StopsAt(s, columns, i, j) && j <= columns && Before(i, j, k, n)
    ensures At(s, columns, k, n).None?
    decreases k, n
  {
    if n == 0 {
      NothingAfterStop(s, columns, i, j, k - 1, columns + 1);
    } else if (i, j) == (k, n - 1) {
      StopsThere(s, columns, i, j);
    } else {
      NothingAfterStop(s, columns, i, j, k, n - 1);
    }
  }

  /** So it stops at one field only. */
  lemma StopsOnce(s: string, columns: nat, i: nat, j: nat, k: nat, n: nat)
    requires StopsAt(s, columns, i, j) && StopsAt(s, columns, k, n) && j <= columns && n <= columns
    ensures i == k && j == n
  {
    if Before(i, j, k, n) {
      NothingAfterStop(s, columns, i, j, k, n);
    } else if Before(k, n, i, j) {
      NothingAfterStop(s, columns, k, n, i, j);
    }
  }

  lemma {:induction false} CodeAtStop(s: string, layout: Layout, i: nat, j: nat)
    requires i < layout.rows && j <= layout.columns
    ensures
      var code := ReadCode(ReadRows(s, 0, layout));
      && (EndsAt(s, layout.columns, i, j) ==> code == EOF)
      && (MismatchesAt(s, layout.columns, i, j) ==> code == i * layout.columns + j - 1)
  {
    if StopsAt(s, layout.columns, i, j) {
      var k, n := RowsStop(s, layout, 0, 0);
      if ReadRows(s, 0, layout).code == 1 {
        NothingAfterStop(s, layout.columns, i, j, layout.rows, 0);
      } else {
        StopsOnce(s, layout.columns, i, j, k, n);
      }
    }
  }

  /** What the number says: EOF exactly if the text ends before a field that the layout asks for; how many
      cells come before the field, if a field mismatches; and 0 if neither happens. */
  ghost predicate Tells(code: int, s: string, layout: Layout) {
    && (code == EOF <==> exists i: nat, j: nat | i < layout.rows && j <= layout.columns :: EndsAt(s, layout.columns, i, j))
    && (forall i: nat, j: nat | i < layout.rows && j <= layout.columns && MismatchesAt(s, layout.columns, i, j) ::
          code == i * layout.columns + j - 1)
    && (code == 0 || exists i: nat, j: nat | i < layout.rows && j <= layout.columns :: StopsAt(s, layout.columns, i, j))
  }

  lemma {:induction false} CodeTells(s: string, layout: Layout)
    ensures Tells(ReadCode(ReadRows(s, 0, layout)), s, layout)
  {
    forall i: nat, j: nat | i < layout.rows && j <= layout.columns
      ensures EndsAt(s, layout.columns, i, j) ==> ReadCode(ReadRows(s, 0, layout)) == EOF
      ensures MismatchesAt(s, layout.columns, i, j) ==> ReadCode(ReadRows(s, 0, layout)) == i * layout.columns + j - 1
    {
      CodeAtStop(s, layout, i, j);
    }
    var k, n := RowsStop(s, layout, 0, 0);
    if ReadRows(s, 0, layout).code != 1 {
      assert StopsAt(s, layout.columns, k, n);
    }
  }

  /** stat_cpu_array_read_fl: fills the cells in row-major order as far as the text goes, leaves the
      others alone, and answers EOF if the text ends before a field it asks for, the number of cells filled
      if a field mismatches, and 0 if neither happens. */
  method ReadStat(cells: array<array<real>>, source: string, layout: Layout) returns (code: int)
    requires Shaped(cells, layout)
    modifies cells[..]
    ensures code == ReadCode(ReadRows(source, 0, layout))
    ensures Tells(code, source, layout)
    ensures Contents(cells) == OverAll(old(Contents(cells)), ReadRows(source, 0, layout).rows)
  {
    ghost var goal := ReadRows(source, 0, layout);
    assert [] + goal.rows == goal.rows;
    var errFlag, readTotal, done := ReadAll(cells, source, layout, Contents(cells), goal);
    code := if errFlag == EOF then EOF else if errFlag == 0 then readTotal else 0;
    CodeTells(source, layout);
  }

  /** The rows read so far, and those still to come if nothing has gone wrong. */
  function ResumeRows(done: seq<seq<nat>>, errFlag: int, s: string, p: nat, layout: Layout): Reading
    requires p <= |s|
  {
    if errFlag == 1 then
      var rest := ReadRows(s, p, layout);
      Reading(done + rest.rows, rest.code)
    else Reading(done, errFlag)
  }

  lemma NothingToResume(done: seq<seq<nat>>, errFlag: int, s: string, p: nat, layout: Layout)
    requires p <= |s| && (errFlag == 1 ==> layout.rows == 0)
    ensures ResumeRows(done, errFlag, s, p, layout) == Reading(done, errFlag)
  {
  }

  lemma {:induction false} ReadRowsUnfolds(s: string, p: nat, layout: Layout, less: Layout)
    requires p <= |s| && layout.rows > 0 && less == Layout(layout.rows - 1, layout.columns)
    requires ScanWord(s, p).code == 1 && ReadCells(s, ScanWord(s, p).at, layout.columns).code == 1
    ensures
      var cells := ReadCells(s, ScanWord(s, p).at, layout.columns);
      var rest := ReadRows(s, cells.at, less);
      ReadRows(s, p, layout) == Reading([cells.row] + rest.rows, rest.code)
  {
  }

  lemma {:induction false} ResumeRowsStep(done: seq<seq<nat>>, s: string, p: nat, layout: Layout, less: Layout)
    requires p <= |s| && layout.rows > 0 && less == Layout(layout.rows - 1, layout.columns)
    ensures
      var word := ScanWord(s, p);
      var cells := ReadCells(s, word.at, layout.columns);
      ResumeRows(done, 1, s, p, layout) ==
        if word.code == 1 then ResumeRows(done + [cells.row], cells.code, s, cells.at, less)
        else ResumeRows(done, word.code, s, word.at, less)
  {
    var word := ScanWord(s, p);
    var cells := ReadCells(s, word.at, layout.columns);
    assert done + [cells.row] + [] == done + [cells.row];
    if word.code == 1 && cells.code == 1 {
      ReadRowsUnfolds(s, p, layout, less);
      Regroup(done, [cells.row], ReadRows(s, cells.at, less).rows);
    }
  }

  /** One more row, as far as it was filled: what is read in the end, counted and stored. */
  lemma RowRead(base: Grid, done: seq<seq<nat>>, s: string, p: nat, ahead: Layout, less: Layout, layout: Layout)
    returns (more: seq<seq<nat>>)
    requires Fits(base, layout) && |done| < |base|
    requires p <= |s| && ahead.rows > 0 && ahead.columns == layout.columns && ScanWord(s, p).code == 1
    requires less == Layout(ahead.rows - 1, ahead.columns)
    ensures |more| == |done| + 1
    ensures
      var cells := ReadCells(s, ScanWord(s, p).at, layout.columns);
      && ResumeRows(done, 1, s, p, ahead) == ResumeRows(more, cells.code, s, cells.at, less)
      && CellCount(more) == CellCount(done) + |cells.row|
      && OverAll(base, more) == OverAll(base, done)[|done| := Over(OverAll(base, done)[|done|], cells.row)]
  {
    var row := ReadCells(s, ScanWord(s, p).at, layout.columns).row;
    more := done + [row];
    ResumeRowsStep(done, s, p, ahead, less);
    CountAppends(done, row);
    OverOneMore(base, done, row);
  }

  lemma {:induction false} CountAppends(rows: seq<seq<nat>>, row: seq<nat>)
    ensures CellCount(rows + [row]) == CellCount(rows) + |row|
  {
    if rows == [] {
    } else {
      CountAppends(rows[1..], row);
      assert (rows + [row])[1..] == rows[1..] + [row];
    }
  }

  lemma CompleteGrows(row: seq<nat>, rows: seq<seq<nat>>, layout: Layout)
    requires layout.rows > 0 && |row| == layout.columns
    ensures Complete([row] + rows, layout) <==> Complete(rows, Layout(layout.rows - 1, layout.columns))
  {
    var all := [row] + rows;
    forall i | 0 <= i < |rows| ensures all[i + 1] == rows[i] {
    }
    if Complete(all, layout) {
      forall i | 0 <= i < |rows| ensures |rows[i]| == layout.columns {
        assert |all[i + 1]| == layout.columns;
      }
    }
  }

  /** All rows but the last are full. */
  predicate FullButLast(rows: seq<seq<nat>>, columns: nat) {
    forall i | 0 <= i < |rows| - 1 :: |rows[i]| == columns
  }

  /** Filled is in row-major order: all rows before the last one reached are full, and the whole is
      complete exactly when the last fscanf succeeded. */
  lemma {:induction false} FillsInOrder(s: string, p: nat, layout: Layout)
    requires p <= |s|
    ensures
      var r := ReadRows(s, p, layout);
      FullButLast(r.rows, layout.columns) && (r.code == 1 <==> Complete(r.rows, layout))
    decreases layout.rows
  {
    if layout.rows == 0 {
    } else {
      var word, less := ScanWord(s, p), Layout(layout.rows - 1, layout.columns);
      var cells := ReadCells(s, word.at, layout.columns);
      if word.code == 1 && cells.code == 1 {
        FillsInOrder(s, cells.at, less);
        ReadRowsUnfolds(s, p, layout, less);
        CompleteGrows(cells.row, ReadRows(s, cells.at, less).rows, layout);
      } else if word.code == 1 {
        assert [cells.row][0] == cells.row;
      }
    }
  }

  /** In the text, a word comes first and something other than a number after it. */
  predicate FirstNumberMismatches(s: string) {
    ScanWord(s, 0).code == 1 && ScanNumber(s, ScanWord(s, 0).at).code == 0
  }

  /** Nothing can be counted on a mismatch but what was filled before it. */
  lemma {:induction false} MismatchCount(s: string, layout: Layout)
    requires layout.rows >= 1 && layout.columns >= 1
    ensures
      var r := ReadRows(s, 0, layout);
      r.code == 0 && CellCount(r.rows) == 0 <==> FirstNumberMismatches(s)
  {
    var r, word := ReadRows(s, 0, layout), ScanWord(s, 0);
    if word.code == 1 {
      var scan, cells := ScanNumber(s, word.at), ReadCells(s, word.at, layout.columns);
      assert r.rows[0] == cells.row;
      if scan.code == 1 {
        assert cells.row[0] == scan.value;
      } else {
        assert r.rows == [[]];
      }
    }
  }

  /** Without columns the labels are all that is read. */
  lemma {:induction false} NoColumnsNoMismatch(s: string, p: nat, layout: Layout)
    requires p <= |s| && layout.columns == 0
    ensures ReadRows(s, p, layout).code != 0
    decreases layout.rows
  {
    if layout.rows == 0 {
    } else if ScanWord(s, p).code == 1 {
      NoColumnsNoMismatch(s, ScanWord(s, p).at, Layout(layout.rows - 1, 0));
    }
  }

  /** The header promises that 0 means that every cell was read. The promise is broken exactly on the
      texts whose first number fails to match, with a layout that asks for a number at all. */
  lemma {:induction false} ZeroWithoutFillingIff(s: string, layout: Layout)
    ensures
      var r := ReadRows(s, 0, layout);
      ReadCode(r) == 0 && !Complete(r.rows, layout) <==>
        layout.rows >= 1 && layout.columns >= 1 && FirstNumberMismatches(s)
  {
    FillsInOrder(s, 0, layout);
    if layout.columns == 0 {
      NoColumnsNoMismatch(s, 0, layout);
    } else if layout.rows >= 1 {
      MismatchCount(s, layout);
    }
  }

  /** There is such a text: one row, one column, and a word where the number should be. */
  lemma ZeroCanMeanNothing()
    ensures
      var r := ReadRows("cpu x", 0, Layout(1, 1));
      ReadCode(r) == 0 && !Complete(r.rows, Layout(1, 1))
  {
    var s := "cpu x";
    assert Skip(s, 0, Space) == 0 && s[3] == ' ';
    assert Skip(s, 3, Visible) == 3;
    assert Skip(s, 2, Visible) == 3;
    assert Skip(s, 1, Visible) == 3;
    assert Skip(s, 0, Visible) == 3;
    assert ScanWord(s, 0) == Scan(1, 0, 3);
    assert Skip(s, 4, Space) == 4;
    assert Skip(s, 3, Space) == 4;
    assert ScanNumber(s, 3).code == 0;
    assert ReadCells(s, 3, 1) == Cells([], 0, 4);
    assert ReadRows(s, 0, Layout(1, 1)).rows == [[]];
  }
}
