/** The cpu section as the kernel writes it, and what the two readers of StatText make of it. */
module StatRoundTrip {
  import opened Common
  import opened CpuUsage
  import opened StatText

  // ---------- writing ----------

  /** The numbers of a line, each after one space and `gap` more. */
  datatype Fields = NoMore | Field(gap: nat, digits: string, rest: Fields)

  datatype Lines = End | Line(name: string, fields: Fields, rest: Lines)

  function Spaces(n: nat): (t: string)
    ensures |t| == n && forall k | 0 <= k < n :: t[k] == ' '
  {
    seq(n, _ => ' ')
  }

  function FieldsText(fields: Fields): string {
    match fields
    case NoMore => ""
    case Field(gap, digits, rest) => (Spaces(gap + 1) + digits) + FieldsText(rest)
  }

  function LineText(name: string, fields: Fields): string {
    name + FieldsText(fields) + "\n"
  }

  function LinesText(lines: Lines): string {
    match lines
    case End => ""
    case Line(name, fields, rest) => LineText(name, fields) + LinesText(rest)
  }

  /** The whole text: the cpu lines, "intr", and whatever comes after it. */
  function StatFile(lines: Lines, tail: string): string {
    LinesText(lines) + ("intr" + tail)
  }

  /** "cpu", "cpu0", …: two to nine letters or digits, no 'i' among them. A longer label does not fit
      into the ten characters that stat_cpu_array_read_fl has for it. */
  predicate GoodName(name: string) {
    2 <= |name| <= 9 && forall k | 0 <= k < |name| :: LetterOrDigit(name[k]) && name[k] != 'i'
  }

  predicate LetterOrDigit(c: char) {
    'a' <= c <= 'z' || 'A' <= c <= 'Z' || '0' <= c <= '9'
  }

  predicate GoodDigits(digits: string) {
    digits != [] && forall k | 0 <= k < |digits| :: IsDigit(digits[k])
  }

  predicate GoodFields(fields: Fields) {
    fields.Field? ==> GoodDigits(fields.digits) && GoodFields(fields.rest)
  }

  function Number(digits: string): nat { Worth(digits, 0, |digits|) }

  function Numbers(fields: Fields): seq<nat> {
    match fields
    case NoMore => []
    case Field(_, digits, rest) => [Number(digits)] + Numbers(rest)
  }

  function Matrix(lines: Lines): seq<seq<nat>> {
    match lines
    case End => []
    case Line(_, fields, rest) => [Numbers(fields)] + Matrix(rest)
  }

  /** Lines under good labels with `columns` numbers each. */
  predicate Regular(lines: Lines, columns: nat) {
    lines.Line? ==>
      && GoodName(lines.name) && GoodFields(lines.fields) && |Numbers(lines.fields)| == columns
      && Regular(lines.rest, columns)
  }

  // ---------- every matrix can be written ----------

  function Decimal(n: nat): (d: string)
    ensures d != []
  {
    var last := [('0' as nat + n % 10) as char];
    if n < 10 then last else Decimal(n / 10) + last
  }

  /** Digits are worth the same wherever they stand. */
  lemma {:induction false} SameWorth(s: string, p: nat, digits: string, n: nat)
    requires n <= |digits| && p + n <= |s| && forall k {:trigger digits[k]} | 0 <= k < n :: s[p + k] == digits[k]
    ensures Worth(s, p, p + n) == Worth(digits, 0, n)
  {
    if n == 0 {
    } else {
      SameWorth(s, p, digits, n - 1);
      assert s[p + (n - 1)] == digits[n - 1];
    }
  }

  /** A number is written in digits, and read back from them. */
  lemma {:induction false} NumberOfDecimal(n: nat)
    ensures GoodDigits(Decimal(n)) && Number(Decimal(n)) == n
  {
    var d := Decimal(n);
    assert DigitValue(d[|d| - 1]) == n % 10;
    if n < 10 {
      assert |d| == 1 && Worth(d, 0, 0) == 0;
    } else {
      var shorter := Decimal(n / 10);
      NumberOfDecimal(n / 10);
      SameWorth(d, 0, shorter, |shorter|);
    }
  }

  lemma {:induction false} EveryRowIsWritten(row: seq<nat>, gap: nat) returns (fields: Fields)
    ensures GoodFields(fields) && Numbers(fields) == row
    decreases |row|
  {
    if row == [] {
      fields := NoMore;
    } else {
      var rest := EveryRowIsWritten(row[1..], gap);
      NumberOfDecimal(row[0]);
      fields := Field(gap, Decimal(row[0]), rest);
    }
  }

  /** So the round trip below speaks of every matrix of naturals. */
  lemma {:induction false} EveryMatrixIsWritten(rows: seq<seq<nat>>, columns: nat, name: string, gap: nat)
    returns (lines: Lines)
    requires GoodName(name) && forall i | 0 <= i < |rows| :: |rows[i]| == columns
    ensures Regular(lines, columns) && Matrix(lines) == rows
    decreases |rows|
  {
    if rows == [] {
      lines := End;
    } else {
      var rest := EveryMatrixIsWritten(rows[1..], columns, name, gap);
      var fields := EveryRowIsWritten(rows[0], gap);
      lines := Line(name, fields, rest);
    }
  }

  // ---------- where things stand in the text ----------

  /** `run` stands in the text at position `p`. */
  predicate Sits(s: string, p: nat, run: string) {
    p + |run| <= |s| && forall k {:trigger run[k]} | 0 <= k < |run| :: s[p + k] == run[k]
  }

  /** Spaces stand from `p` up to `q`, and the digits at `q`. */
  predicate FieldAt(s: string, p: nat, q: nat, digits: string) {
    p < q && GoodDigits(digits) && Sits(s, q, digits) && forall k | p <= k < q :: s[k] == ' '
  }

  /** A good label stands from `p` up to `q`. */
  predicate NameAt(s: string, p: nat, q: nat) {
    p + 2 <= q <= |s| && forall k | p <= k < q :: Is(Alnum, s[k]) && s[k] != 'i'
  }

  /** The line end after the fields, if they stand at `p` with a line end after them. */
  function FieldsEnd(s: string, p: nat, fields: Fields): (e: Option<nat>)
    ensures e.Some? ==> p <= e.value < |s| && s[e.value] == '\n'
    decreases fields
  {
    match fields
    case NoMore => if p < |s| && s[p] == '\n' then Some(p) else None
    case Field(gap, digits, rest) =>
      var q := p + gap + 1;
      if FieldAt(s, p, q, digits) then FieldsEnd(s, q + |digits|, rest) else None
  }

  /** The line end of a line, if it stands at `p`. */
  function LineEnd(s: string, p: nat, name: string, fields: Fields): (e: Option<nat>)
    ensures e.Some? ==> p < e.value < |s| && s[e.value] == '\n'
  {
    if NameAt(s, p, p + |name|) then FieldsEnd(s, p + |name|, fields) else None
  }

  /** The 'i' of "intr" after the lines, if they stand at `p` with that after them. */
  function LinesEnd(s: string, p: nat, lines: Lines): (e: Option<nat>)
    ensures e.Some? ==> p <= e.value < |s| && s[e.value] == 'i'
    decreases lines
  {
    match lines
    case End => if p < |s| && s[p] == 'i' then Some(p) else None
    case Line(name, fields, rest) =>
      var e := LineEnd(s, p, name, fields);
      if e.Some? then LinesEnd(s, e.value + 1, rest) else None
  }

  // ---------- what is written stands there ----------

  lemma SitsSplits(s: string, p: nat, a: string, b: string)
    requires Sits(s, p, a + b)
    ensures Sits(s, p, a) && Sits(s, p + |a|, b)
  {
    forall k | 0 <= k < |a| ensures s[p + k] == a[k] {
      assert (a + b)[k] == a[k];
    }
    forall k | 0 <= k < |b| ensures s[p + |a| + k] == b[k] {
      assert (a + b)[|a| + k] == b[k];
    }
  }

  lemma FieldStands(s: string, p: nat, gap: nat, digits: string)
    requires Sits(s, p, Spaces(gap + 1) + digits) && GoodDigits(digits)
    ensures FieldAt(s, p, p + gap + 1, digits)
  {
    var spaces := Spaces(gap + 1);
    SitsSplits(s, p, spaces, digits);
    forall k | p <= k < p + gap + 1 ensures s[k] == ' ' {
      assert spaces[k - p] == ' ';
    }
  }

  lemma {:induction false} FieldsStand(s: string, p: nat, fields: Fields)
    requires Sits(s, p, FieldsText(fields)) && GoodFields(fields)
    requires
      var e := p + |FieldsText(fields)|;
      e < |s| && s[e] == '\n'
    ensures FieldsEnd(s, p, fields) == Some(p + |FieldsText(fields)|)
    decreases fields
  {
    match fields
    case NoMore =>
    case Field(gap, digits, rest) =>
      SitsSplits(s, p, Spaces(gap + 1) + digits, FieldsText(rest));
      FieldStands(s, p, gap, digits);
      FieldsStand(s, p + gap + 1 + |digits|, rest);
  }

  lemma NameStands(s: string, p: nat, name: string)
    requires Sits(s, p, name) && GoodName(name)
    ensures NameAt(s, p, p + |name|)
  {
    forall k | p <= k < p + |name| ensures Is(Alnum, s[k]) && s[k] != 'i' {
      assert s[p + (k - p)] == name[k - p];
    }
  }

  lemma {:induction false} LineStands(s: string, p: nat, name: string, fields: Fields)
    requires Sits(s, p, LineText(name, fields)) && GoodName(name) && GoodFields(fields)
    ensures LineEnd(s, p, name, fields) == Some(p + |LineText(name, fields)| - 1)
  {
    SitsSplits(s, p, name + FieldsText(fields), "\n");
    SitsSplits(s, p, name, FieldsText(fields));
    assert "\n"[0] == '\n';
    NameStands(s, p, name);
    FieldsStand(s, p + |name|, fields);
  }

  lemma {:induction false} LinesStand(s: string, p: nat, lines: Lines, columns: nat)
    requires Sits(s, p, LinesText(lines)) && Regular(lines, columns)
    requires
      var e := p + |LinesText(lines)|;
      e < |s| && s[e] == 'i'
    ensures LinesEnd(s, p, lines).Some?
    decreases lines
  {
    match lines
    case End =>
    case Line(name, fields, rest) =>
      var line := LineText(name, fields);
      SitsSplits(s, p, line, LinesText(rest));
      LineStands(s, p, name, fields);
      LinesStand(s, p + |line|, rest, columns);
  }

  lemma {:induction false} FileStands(lines: Lines, columns: nat, tail: string)
    requires Regular(lines, columns)
    ensures LinesEnd(StatFile(lines, tail), 0, lines).Some?
  {
    var s, text := StatFile(lines, tail), LinesText(lines);
    assert Sits(s, 0, text);
    assert s[|text|] == ("intr" + tail)[0];
    LinesStand(s, 0, lines, columns);
  }

  // ---------- reading the numbers back ----------

  lemma {:induction false} SkipsTo(s: string, p: nat, kind: CharClass, q: nat)
    requires p <= q <= |s| && (forall k | p <= k < q :: Is(kind, s[k])) && (q < |s| ==> !Is(kind, s[q]))
    ensures Skip(s, p, kind) == q
    decreases q - p
  {
    if p == q {
    } else {
      SkipsTo(s, p + 1, kind, q);
    }
  }

  /** What follows a label or a number: the space before the next number, or the line end. */
  lemma {:induction false} NextIs(s: string, p: nat, fields: Fields)
    requires FieldsEnd(s, p, fields).Some?
    ensures p < |s| && s[p] == if fields.NoMore? then '\n' else ' '
  {
  }

  lemma {:induction false} DigitsAt(s: string, p: nat, q: nat, digits: string)
    requires FieldAt(s, p, q, digits)
    ensures forall k | q <= k < q + |digits| :: IsDigit(s[k])
    ensures Worth(s, q, q + |digits|) == Number(digits)
  {
    SameWorth(s, q, digits, |digits|);
    forall k | q <= k < q + |digits| ensures IsDigit(s[k]) {
      assert s[q + (k - q)] == digits[k - q];
    }
  }

  lemma ScansField(s: string, p: nat, q: nat, digits: string)
    requires FieldAt(s, p, q, digits)
    requires
      var e := q + |digits|;
      e < |s| && !IsDigit(s[e])
    ensures ScanNumber(s, p) == Scan(1, Number(digits), q + |digits|)
  {
    DigitsAt(s, p, q, digits);
    assert IsDigit(s[q]);
    SkipsTo(s, p, Space, q);
    SkipsTo(s, q, Digit, q + |digits|);
  }

  lemma ReadCellsUnfolds(s: string, p: nat, columns: nat)
    requires p <= |s| && columns > 0 && ScanNumber(s, p).code == 1
    ensures
      var scan := ScanNumber(s, p);
      var rest := ReadCells(s, scan.at, columns - 1);
      ReadCells(s, p, columns) == Cells([scan.value] + rest.row, rest.code, rest.at)
  {
  }

  lemma {:induction false} ReadsFields(s: string, p: nat, fields: Fields, end: nat)
    requires FieldsEnd(s, p, fields) == Some(end)
    ensures p <= |s| && ReadCells(s, p, |Numbers(fields)|) == Cells(Numbers(fields), 1, end)
    decreases fields
  {
    match fields
    case NoMore =>
    case Field(gap, digits, rest) =>
      var q := p + gap + 1;
      var e := q + |digits|;
      NextIs(s, e, rest);
      ScansField(s, p, q, digits);
      ReadsFields(s, e, rest, end);
      ReadCellsUnfolds(s, p, |Numbers(fields)|);
  }

  /** The line before has left nothing unread before `q`, or its line end. */
  predicate Unread(s: string, p: nat, q: nat) {
    p == q || (p + 1 == q && p < |s| && s[p] == '\n')
  }

  lemma ScansName(s: string, p: nat, q: nat, e: nat)
    requires Unread(s, p, q) && NameAt(s, q, e) && e < |s| && s[e] == ' '
    ensures ScanWord(s, p) == Scan(1, 0, e)
  {
    assert Is(Alnum, s[q]);
    SkipsTo(s, p, Space, q);
    SkipsTo(s, q, Visible, e);
  }

  lemma {:induction false} ReadsLine(s: string, p: nat, q: nat, name: string, fields: Fields, end: nat)
    requires Unread(s, p, q) && LineEnd(s, q, name, fields) == Some(end) && fields.Field?
    ensures
      var r := q + |name|;
      && r <= |s| && ScanWord(s, p) == Scan(1, 0, r)
      && ReadCells(s, r, |Numbers(fields)|) == Cells(Numbers(fields), 1, end)
  {
    NextIs(s, q + |name|, fields);
    ScansName(s, p, q, q + |name|);
    ReadsFields(s, q + |name|, fields, end);
  }

  /** A row read up to `e`, and the other rows after it. */
  lemma {:induction false} RowsJoin(s: string, p: nat, q: nat, e: nat, row: seq<nat>, rows: seq<seq<nat>>)
    requires p <= |s| && q <= |s| && e <= |s| && ScanWord(s, p) == Scan(1, 0, q)
    requires ReadCells(s, q, |row|) == Cells(row, 1, e)
    requires ReadRows(s, e, Layout(|rows|, |row|)) == Reading(rows, 1)
    ensures ReadRows(s, p, Layout(|rows| + 1, |row|)) == Reading([row] + rows, 1)
  {
    ReadRowsUnfolds(s, p, Layout(|rows| + 1, |row|), Layout(|rows|, |row|));
  }

  /** `rows` is what is read from the end of the line on. */
  lemma {:induction false} LineJoins(
      s: string, p: nat, q: nat, name: string, fields: Fields, end: nat, rows: seq<seq<nat>>)
    requires Unread(s, p, q) && LineEnd(s, q, name, fields) == Some(end) && fields.Field?
    requires ReadRows(s, end, Layout(|rows|, |Numbers(fields)|)) == Reading(rows, 1)
    ensures p <= |s| && ReadRows(s, p, Layout(|rows| + 1, |Numbers(fields)|)) == Reading([Numbers(fields)] + rows, 1)
  {
    ReadsLine(s, p, q, name, fields, end);
    RowsJoin(s, p, q + |name|, end, Numbers(fields), rows);
  }

  lemma {:induction false} ReadsLines(s: string, p: nat, q: nat, lines: Lines, columns: nat)
    requires Unread(s, p, q) && q <= |s| && LinesEnd(s, q, lines).Some? && Regular(lines, columns) && columns >= 1
    ensures ReadRows(s, p, Layout(|Matrix(lines)|, columns)) == Reading(Matrix(lines), 1)
    decreases lines
  {
    match lines
    case End =>
    case Line(name, fields, rest) =>
      var e := LineEnd(s, q, name, fields).value;
      assert |Numbers(fields)| == columns;
      ReadsLines(s, e, e + 1, rest, columns);
      LineJoins(s, p, q, name, fields, e, Matrix(rest));
  }

  // ---------- counting rows and columns ----------

  lemma {:induction false} SkipsField(s: string, p: nat, q: nat, digits: string)
    requires FieldAt(s, p, q, digits)
    requires
      var e := q + |digits|;
      e < |s| && !Is(Alnum, s[e])
    ensures s[p] == ' ' && Skip(s, Skip(s, p + 1, Blank), Alnum) == q + |digits|
  {
    DigitsAt(s, p, q, digits);
    assert IsDigit(s[q]);
    SkipsTo(s, p + 1, Blank, q);
    SkipsTo(s, q, Alnum, q + |digits|);
  }

  lemma {:induction false} CountsFields(s: string, p: nat, fields: Fields, end: nat)
    requires FieldsEnd(s, p, fields) == Some(end)
    ensures p <= |s| && Columns(s, p) == (|Numbers(fields)|, end)
    decreases fields
  {
    match fields
    case NoMore =>
    case Field(gap, digits, rest) =>
      var q := p + gap + 1;
      var e := q + |digits|;
      NextIs(s, e, rest);
      SkipsField(s, p, q, digits);
      CountsFields(s, e, rest, end);
  }

  /** The columns of the first line are those of its numbers. */
  lemma {:induction false} CountsColumns(s: string, name: string, fields: Fields, end: nat)
    requires LineEnd(s, 0, name, fields) == Some(end)
    ensures Columns(s, 0) == (|Numbers(fields)|, end)
  {
    NextIs(s, |name|, fields);
    assert Is(Alnum, s[0]) && Is(Alnum, s[1]);
    SkipsTo(s, 1, Blank, 1);
    SkipsTo(s, 1, Alnum, |name|);
    CountsFields(s, |name|, fields, end);
  }

  /** Neither the end of a line nor the end of the section lies from `p` up to `q`. */
  predicate Inner(s: string, p: nat, q: nat) {
    p <= q <= |s| && forall k | p <= k < q :: s[k] != '\n' && s[k] != 'i'
  }

  lemma {:induction false} PassesInner(s: string, p: nat, q: nat)
    requires Inner(s, p, q)
    ensures LineEnds(s, p) == LineEnds(s, q)
    decreases q - p
  {
    if p == q {
    } else {
      PassesInner(s, p + 1, q);
    }
  }

  lemma {:induction false} PassesFields(s: string, p: nat, fields: Fields, end: nat)
    requires FieldsEnd(s, p, fields) == Some(end)
    ensures p <= |s| && LineEnds(s, p) == LineEnds(s, end)
    decreases fields
  {
    match fields
    case NoMore =>
    case Field(gap, digits, rest) =>
      var e := p + gap + 1 + |digits|;
      DigitsAt(s, p, p + gap + 1, digits);
      PassesFields(s, e, rest, end);
      PassesInner(s, p, e);
  }

  lemma PassesLine(s: string, p: nat, name: string, fields: Fields, end: nat)
    requires LineEnd(s, p, name, fields) == Some(end)
    ensures LineEnds(s, p) == (1 + LineEnds(s, end + 1).0, LineEnds(s, end + 1).1)
  {
    PassesInner(s, p, p + |name|);
    PassesFields(s, p + |name|, fields, end);
  }

  lemma {:induction false} CountsLines(s: string, p: nat, lines: Lines, end: nat)
    requires LinesEnd(s, p, lines) == Some(end)
    ensures p <= |s| && LineEnds(s, p) == (|Matrix(lines)|, end)
    decreases lines
  {
    match lines
    case End =>
    case Line(name, fields, rest) =>
      var e := LineEnd(s, p, name, fields).value;
      PassesLine(s, p, name, fields, e);
      CountsLines(s, e + 1, rest, end);
  }

  // ---------- the round trip ----------

  lemma {:induction false} CountsFile(s: string, name: string, fields: Fields, others: Lines, e: nat, end: nat)
    requires LineEnd(s, 0, name, fields) == Some(e) && LinesEnd(s, e + 1, others) == Some(end)
    ensures LayoutOf(s) == (Layout(1 + |Matrix(others)|, |Numbers(fields)|), true)
  {
    CountsColumns(s, name, fields, e);
    CountsLines(s, e + 1, others, end);
  }

  /** The layout counter finds the size of the matrix written. */
  lemma {:induction false} LayoutRoundTrip(lines: Lines, columns: nat, tail: string)
    requires lines.Line? && columns >= 1 && Regular(lines, columns)
    ensures LayoutOf(StatFile(lines, tail)) == (Layout(|Matrix(lines)|, columns), true)
  {
    var s := StatFile(lines, tail);
    FileStands(lines, columns, tail);
    var e := LineEnd(s, 0, lines.name, lines.fields).value;
    CountsFile(s, lines.name, lines.fields, lines.rest, e, LinesEnd(s, 0, lines).value);
  }

  /** Written and read back: any matrix of naturals with at least one row and column, under any good
      labels and with any spacing, yields its own layout and, with that layout, its own numbers, and
      both reads succeed. */
  lemma {:induction false} RoundTrip(lines: Lines, columns: nat, tail: string)
    requires lines.Line? && columns >= 1 && Regular(lines, columns)
    ensures
      var s := StatFile(lines, tail);
      var (layout, found) := LayoutOf(s);
      && found && layout == Layout(|Matrix(lines)|, columns)
      && ReadRows(s, 0, layout) == Reading(Matrix(lines), 1)
      && ReadCode(ReadRows(s, 0, layout)) == 0
  {
    LayoutRoundTrip(lines, columns, tail);
    FileStands(lines, columns, tail);
    ReadsLines(StatFile(lines, tail), 0, 0, lines, columns);
  }

  /** Whatever an array of that layout held before, each cell then holds the number written in its
      row and column. */
  lemma {:induction false} EveryCellIsFilled(base: Grid, lines: Lines, columns: nat, tail: string, i: nat, j: nat)
    requires lines.Line? && columns >= 1 && Regular(lines, columns)
    requires Fits(base, Layout(|Matrix(lines)|, columns)) && i < |base| && j < columns
    ensures
      var rows := ReadRows(StatFile(lines, tail), 0, Layout(|Matrix(lines)|, columns)).rows;
      |Matrix(lines)[i]| == columns && OverAll(base, rows)[i][j] == Matrix(lines)[i][j] as real
  {
    RoundTrip(lines, columns, tail);
    FillsInOrder(StatFile(lines, tail), 0, Layout(|Matrix(lines)|, columns));
  }
}
