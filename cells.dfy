// The part of an openpyxl worksheet the ledger touches: rows of cells, each
// cell holding a value and a style; the set of merged ranges; row heights
// and column widths. `Grid` is the value a saved file holds; `Worksheet` is
// the loaded, mutable sheet.

module Cells {
  import opened PyText

  /** A cell value: Python None, an int, or a str. */
  datatype Value = Empty | Num(n: int) | Text(s: string)

  /** Python truthiness of a cell value. */
  predicate Truthy(v: Value) {
    match v
    case Empty => false
    case Num(n) => n != 0
    case Text(s) => s != ""
  }

  /** Python str() of a cell value. */
  function Str(v: Value): string {
    match v
    case Empty => "None"
    case Num(n) => IntToString(n)
    case Text(s) => s
  }

  /** `value or ""`. */
  function OrEmpty(v: Value): (r: Value)
    ensures Truthy(v) ==> r == v
    ensures !Truthy(v) ==> r == Text("")
  {
    if Truthy(v) then v else Text("")
  }

  // Style values. Colours are opaque labels; only the attributes the
  // ledger reads or writes are kept.
  datatype Side = NoSide | Thin | Thick
  datatype Border = Border(left: Side, right: Side, top: Side, bottom: Side)
  datatype Font = Font(name: string, size: nat, bold: bool, italic: bool, color: string)
  datatype Fill = Fill(fillType: string, startColor: string, endColor: string)
  datatype Alignment = Alignment(horizontal: string, vertical: string, wrapText: bool)
  datatype Style = Style(font: Font, fill: Fill, border: Border, alignment: Alignment, numberFormat: string)

  const NoBorder: Border := Border(NoSide, NoSide, NoSide, NoSide)

  /** The style of a cell nobody has styled. */
  const DefaultStyle: Style :=
    Style(Font("Calibri", 11, false, false, ""), Fill("", "", ""), NoBorder,
          Alignment("", "", false), "General")

  datatype Cell = Cell(value: Value, style: Style)

  const DefaultCell: Cell := Cell(Empty, DefaultStyle)

  /** The cells of one row, by column. */
  type Row = map<int, Cell>

  /** A rectangular range such as A12:Q12. */
  datatype Range = Range(minRow: int, minCol: int, maxRow: int, maxCol: int)

  /** A worksheet as a file holds it: rows[i] is worksheet row i + 1. */
  datatype Grid = Grid(
    rows: seq<Row>,
    merged: set<Range>,
    rowHeight: map<int, real>,
    colWidth: map<int, real>)

  /** ws.max_row: no row past it holds a cell. */
  function MaxRow(g: Grid): nat {
    |g.rows|
  }

  /** ws.cell(row, col): an absent cell reads as an empty, unstyled one. */
  function Get(g: Grid, r: int, c: int): Cell {
    if 1 <= r <= |g.rows| && c in g.rows[r - 1] then g.rows[r - 1][c] else DefaultCell
  }

  function ValueAt(g: Grid, r: int, c: int): Value {
    Get(g, r, c).value
  }

  /** rows extended with empty rows up to row r. */
  function Padded(rows: seq<Row>, r: nat): (p: seq<Row>)
    ensures |p| == if r <= |rows| then |rows| else r
  {
    if r <= |rows| then rows else rows + seq(r - |rows|, _ => map[])
  }

  lemma PaddedAt(rows: seq<Row>, r: nat)
    ensures forall i :: 0 <= i < |Padded(rows, r)| ==> Padded(rows, r)[i] == if i < |rows| then rows[i] else map[]
  {
  }

  /** Puts a whole cell at (r, c). */
  function WithCell(g: Grid, r: int, c: int, cell: Cell): (g': Grid)
    requires r >= 1
  {
    var p := Padded(g.rows, r);
    g.(rows := p[r - 1 := p[r - 1][c := cell]])
  }

  /** Writing a cell changes that cell and no other. */
  lemma GetWithCell(g: Grid, r: int, c: int, cell: Cell, r': int, c': int)
    requires r >= 1
    ensures Get(WithCell(g, r, c, cell), r', c') == if (r', c') == (r, c) then cell else Get(g, r', c')
    ensures MaxRow(WithCell(g, r, c, cell)) == if r > MaxRow(g) then r else MaxRow(g)
  {
  }

  /** ws.cell(row=r, column=c, value=v): the value changes, the style stays. */
  function WithValue(g: Grid, r: int, c: int, v: Value): (g': Grid)
    requires r >= 1
  {
    WithCell(g, r, c, Cell(v, Get(g, r, c).style))
  }

  /** What a cell holding prev holds after ws.cell(..., value=v): openpyxl only
      assigns a value that is not None. */
  function Written(v: Value, prev: Value): (r: Value)
    ensures v != Empty ==> r == v
    ensures v == Empty ==> r == prev
  {
    if v == Empty then prev else v
  }

  /** ws.cell(row=r, column=c, value=v) */
  function Assigned(g: Grid, r: int, c: int, v: Value): (g': Grid)
    requires r >= 1
  {
    if v == Empty then g else WithValue(g, r, c, v)
  }

  lemma GetAssigned(g: Grid, r: int, c: int, v: Value, r': int, c': int)
    requires r >= 1
    ensures Get(Assigned(g, r, c, v), r', c')
         == if (r', c') == (r, c) then Cell(Written(v, Get(g, r, c).value), Get(g, r, c).style) else Get(g, r', c')
    ensures v != Empty ==> MaxRow(Assigned(g, r, c, v)) == if r > MaxRow(g) then r else MaxRow(g)
    ensures v == Empty ==> Assigned(g, r, c, v) == g
    ensures Assigned(g, r, c, v).merged == g.merged && Assigned(g, r, c, v).rowHeight == g.rowHeight
    ensures Assigned(g, r, c, v).colWidth == g.colWidth
  {
  }

  /** Assigning style attributes of ws.cell(r, c). */
  function WithStyle(g: Grid, r: int, c: int, s: Style): (g': Grid)
    requires r >= 1
  {
    WithCell(g, r, c, Cell(Get(g, r, c).value, s))
  }

  /** A second style assignment to a cell overrides the first. */
  lemma WithStyleTwice(g: Grid, r: int, c: int, s1: Style, s2: Style)
    requires r >= 1
    ensures WithStyle(WithStyle(g, r, c, s1), r, c, s2) == WithStyle(g, r, c, s2)
  {
    var p := Padded(g.rows, r);
    var g1 := WithStyle(g, r, c, s1);
    assert Get(g1, r, c).value == Get(g, r, c).value;
    assert Padded(g1.rows, r) == g1.rows;
    assert g1.rows[r - 1][c := Cell(Get(g, r, c).value, s2)] == p[r - 1][c := Cell(Get(g, r, c).value, s2)];
  }

  // Operations confined to one row: composed on the row's cells and put
  // back with a single SetRow, which keeps chains of cell writes cheap.

  function RowOf(g: Grid, r: int): Row {
    if 1 <= r <= |g.rows| then g.rows[r - 1] else map[]
  }

  function CellIn(row: Row, c: int): Cell {
    if c in row then row[c] else DefaultCell
  }

  /** Row r replaced by row, the sheet extended to reach row r. */
  function SetRow(g: Grid, r: int, row: Row): Grid
    requires r >= 1
  {
    g.(rows := Padded(g.rows, r)[r - 1 := row])
  }

  lemma GetSetRow(g: Grid, r: int, row: Row, r': int, c': int)
    requires r >= 1
    ensures Get(SetRow(g, r, row), r', c') == if r' == r then CellIn(row, c') else Get(g, r', c')
    ensures MaxRow(SetRow(g, r, row)) == if r > MaxRow(g) then r else MaxRow(g)
    ensures RowOf(SetRow(g, r, row), r) == row
    ensures SetRow(g, r, row).merged == g.merged && SetRow(g, r, row).rowHeight == g.rowHeight
    ensures SetRow(g, r, row).colWidth == g.colWidth
  {
  }

  lemma GetIsCellIn(g: Grid, r: int, c: int)
    ensures Get(g, r, c) == CellIn(RowOf(g, r), c)
  {
  }

  /** One operation on a cell of a row: ws.cell(row, col, value=v), a
      direct cell.value = v, or the assignment of one style attribute. A
      run of them on one row is applied by Apply below, which keeps long
      chains of writes cheap to reason about. */
  datatype Edit =
    | Assign(col: int, v: Value)
    | Put(col: int, v: Value)
    | SetBorder(col: int, border: Border)
    | SetFill(col: int, fill: Fill)
    | SetFont(col: int, font: Font)
    | SetAlignment(col: int, alignment: Alignment)
    | Restyle(col: int, style: Style)

  /** What e does to the cell of its column. */
  function EditCell(cell: Cell, e: Edit): Cell {
    match e
    case Assign(_, v) => Cell(Written(v, cell.value), cell.style)
    case Put(_, v) => Cell(v, cell.style)
    case SetBorder(_, b) => Cell(cell.value, cell.style.(border := b))
    case SetFill(_, f) => Cell(cell.value, cell.style.(fill := f))
    case SetFont(_, f) => Cell(cell.value, cell.style.(font := f))
    case SetAlignment(_, al) => Cell(cell.value, cell.style.(alignment := al))
    case Restyle(_, st) => Cell(cell.value, st)
  }

  /** What e does to a row: assigning None creates nothing. */
  function ApplyEdit(row: Row, e: Edit): Row {
    if e.Assign? && e.v == Empty then row else row[e.col := EditCell(CellIn(row, e.col), e)]
  }

  function Apply(row: Row, es: seq<Edit>): Row
    decreases |es|
  {
    if es == [] then row else Apply(ApplyEdit(row, es[0]), es[1..])
  }

  /** What e does to the cell of column c. */
  function EditStep(cell: Cell, e: Edit, c: int): Cell {
    if e.col == c then EditCell(cell, e) else cell
  }

  /** What the edits es do to the cell of column c. */
  function Edited(cell: Cell, es: seq<Edit>, c: int): Cell
    decreases |es|
  {
    if es == [] then cell else Edited(EditStep(cell, es[0], c), es[1..], c)
  }

  lemma EditedFront(cell: Cell, es: seq<Edit>, c: int)
    requires es != []
    ensures Edited(cell, es, c) == Edited(EditStep(cell, es[0], c), es[1..], c)
  {
  }

  lemma {:induction false} ApplyAt(row: Row, es: seq<Edit>, c: int)
    ensures CellIn(Apply(row, es), c) == Edited(CellIn(row, c), es, c)
    decreases |es|
  {
    if es != [] {
      ApplyAt(ApplyEdit(row, es[0]), es[1..], c);
    }
  }

  lemma {:induction false} EditedAppend(cell: Cell, a: seq<Edit>, b: seq<Edit>, c: int)
    ensures Edited(cell, a + b, c) == Edited(Edited(cell, a, c), b, c)
    decreases |a|
  {
    if a != [] {
      assert (a + b)[1..] == a[1..] + b;
      EditedAppend(EditStep(cell, a[0], c), a[1..], b, c);
    } else {
      assert a + b == b;
    }
  }

  lemma EditedOne(cell: Cell, e: Edit, c: int)
    ensures Edited(cell, [e], c) == EditStep(cell, e, c)
  {
    assert [e][1..] == [];
  }

  lemma EditedTwo(cell: Cell, e1: Edit, e2: Edit, c: int)
    ensures Edited(cell, [e1, e2], c) == EditStep(EditStep(cell, e1, c), e2, c)
  {
    assert [e1, e2] == [e1] + [e2];
    EditedAppend(cell, [e1], [e2], c);
    EditedOne(cell, e1, c);
    EditedOne(EditStep(cell, e1, c), e2, c);
  }

  lemma EditedThree(cell: Cell, e1: Edit, e2: Edit, e3: Edit, c: int)
    ensures Edited(cell, [e1, e2, e3], c) == EditStep(EditStep(EditStep(cell, e1, c), e2, c), e3, c)
  {
    assert [e1, e2, e3] == [e1, e2] + [e3];
    EditedAppend(cell, [e1, e2], [e3], c);
    EditedTwo(cell, e1, e2, c);
    EditedOne(EditStep(EditStep(cell, e1, c), e2, c), e3, c);
  }

  lemma {:induction false} ApplyAppend(row: Row, a: seq<Edit>, b: seq<Edit>)
    ensures Apply(row, a + b) == Apply(Apply(row, a), b)
    decreases |a|
  {
    if a != [] {
      assert (a + b)[1..] == a[1..] + b;
      ApplyAppend(ApplyEdit(row, a[0]), a[1..], b);
    } else {
      assert a + b == b;
    }
  }

  lemma ApplyOne(row: Row, e: Edit)
    ensures Apply(row, [e]) == ApplyEdit(row, e)
  {
    assert [e][1..] == [];
  }

  lemma ApplySnoc(row: Row, p: seq<Edit>, e: Edit)
    ensures Apply(row, p + [e]) == ApplyEdit(Apply(row, p), e)
  {
    ApplyAppend(row, p, [e]);
    ApplyOne(Apply(row, p), e);
  }

  lemma ApplyCons(row: Row, e: Edit, t: seq<Edit>)
    ensures Apply(row, [e] + t) == Apply(ApplyEdit(row, e), t)
  {
    ApplyAppend(row, [e], t);
    ApplyOne(row, e);
  }

  lemma EditedSnoc(cell: Cell, p: seq<Edit>, e: Edit, c: int)
    ensures Edited(cell, p + [e], c) == EditStep(Edited(cell, p, c), e, c)
  {
    EditedAppend(cell, p, [e], c);
    EditedOne(Edited(cell, p, c), e, c);
  }

  /** The worksheet operation e stands for, on row r. */
  function EditGrid(g: Grid, r: int, e: Edit): Grid
    requires r >= 1
  {
    match e
    case Assign(c, v) => Assigned(g, r, c, v)
    case Put(c, v) => WithValue(g, r, c, v)
    case SetBorder(c, b) => WithStyle(g, r, c, Get(g, r, c).style.(border := b))
    case SetFill(c, f) => WithStyle(g, r, c, Get(g, r, c).style.(fill := f))
    case SetFont(c, f) => WithStyle(g, r, c, Get(g, r, c).style.(font := f))
    case SetAlignment(c, al) => WithStyle(g, r, c, Get(g, r, c).style.(alignment := al))
    case Restyle(c, st) => WithStyle(g, r, c, st)
  }

  /** On a sheet whose row r is a replaced row, a worksheet operation on
      row r is the edit of that row. */
  lemma EditGridSetRow(g: Grid, r: int, row: Row, e: Edit)
    requires r >= 1
    ensures EditGrid(SetRow(g, r, row), r, e) == SetRow(g, r, ApplyEdit(row, e))
  {
    var g1 := SetRow(g, r, row);
    assert Padded(g1.rows, r) == g1.rows;
    if !(e.Assign? && e.v == Empty) {
      assert EditGrid(g1, r, e).rows == SetRow(g, r, ApplyEdit(row, e)).rows;
    }
  }

  /** The row functions take over after a first write of a non-empty value. */
  lemma EditGridAsRow(g: Grid, r: int, e: Edit)
    requires r >= 1 && !(e.Assign? && e.v == Empty)
    ensures EditGrid(g, r, e) == SetRow(g, r, ApplyEdit(RowOf(g, r), e))
  {
    assert EditGrid(g, r, e).rows == SetRow(g, r, ApplyEdit(RowOf(g, r), e)).rows;
  }

  /** The edits es made, in order, on row r. */
  function RowApplied(g: Grid, r: int, es: seq<Edit>): Grid
    requires r >= 1
  {
    SetRow(g, r, Apply(RowOf(g, r), es))
  }

  lemma RowAppliedAt(g: Grid, r: int, es: seq<Edit>, r': int, c': int)
    requires r >= 1
    ensures Get(RowApplied(g, r, es), r', c') == if r' == r then Edited(Get(g, r, c'), es, c') else Get(g, r', c')
    ensures MaxRow(RowApplied(g, r, es)) == if r > MaxRow(g) then r else MaxRow(g)
    ensures RowApplied(g, r, es).merged == g.merged && RowApplied(g, r, es).rowHeight == g.rowHeight
    ensures RowApplied(g, r, es).colWidth == g.colWidth
  {
    GetSetRow(g, r, Apply(RowOf(g, r), es), r', c');
    ApplyAt(RowOf(g, r), es, c');
    GetIsCellIn(g, r, c');
  }

  function Min(a: int, b: int): int {
    if a < b then a else b
  }

  /** ws.delete_rows(start, count): the rows start .. start+count-1 go away
      and every row below moves up by count. Merged ranges, row heights and
      column widths stay where they are, as openpyxl leaves them. */
  function RowsDeleted(g: Grid, start: nat, count: nat): (g': Grid)
    requires start >= 1
  {
    var lo := Min(start - 1, |g.rows|);
    var hi := Min(start - 1 + count, |g.rows|);
    g.(rows := g.rows[..lo] + g.rows[hi..])
  }

  /** What a row deletion does, cell by cell. */
  lemma RowsDeletedAt(g: Grid, start: nat, count: nat, r: int, c: int)
    requires start >= 1
    ensures Get(RowsDeleted(g, start, count), r, c)
         == if r < start then Get(g, r, c) else Get(g, r + count, c)
  {
  }

  /** Deleting no rows changes nothing. */
  lemma RowsDeletedNone(g: Grid, start: nat)
    requires start >= 1
    ensures RowsDeleted(g, start, 0) == g
  {
    var lo := Min(start - 1, |g.rows|);
    assert g.rows[..lo] + g.rows[lo..] == g.rows;
  }

  /** Deleting the row just above a deleted block extends the block:
      deleting rows one at a time from the bottom up is one block delete. */
  lemma RowsDeletedExtend(g: Grid, start: nat, count: nat)
    requires start >= 1
    ensures RowsDeleted(RowsDeleted(g, start + 1, count), start, 1) == RowsDeleted(g, start, count + 1)
  {
    var n := |g.rows|;
    var h := RowsDeleted(g, start + 1, count).rows;
    if start - 1 < n {
      assert h == g.rows[..start] + g.rows[Min(start + count, n)..];
      assert h[..start - 1] == g.rows[..start - 1];
      assert h[start..] == g.rows[Min(start + count, n)..];
    }
  }

  /** Whether (r, c) is covered by rng without being its top-left anchor. */
  predicate NonAnchor(rng: Range, r: int, c: int) {
    rng.minRow <= r <= rng.maxRow && rng.minCol <= c <= rng.maxCol
    && (r, c) != (rng.minRow, rng.minCol)
  }

  function MergedRow(row: Row, r: int, rng: Range): Row {
    if rng.minRow <= r <= rng.maxRow then
      row + (map c | rng.minCol <= c <= rng.maxCol && NonAnchor(rng, r, c) :: DefaultCell)
    else row
  }

  /** ws.merge_cells(rng): every cell but the anchor becomes an empty merged
      cell. */
  function WithMerge(g: Grid, rng: Range): (g': Grid)
    requires 1 <= rng.minRow <= rng.maxRow
  {
    var p := Padded(g.rows, rng.maxRow);
    g.(rows := seq(|p|, i requires 0 <= i < |p| => MergedRow(p[i], i + 1, rng)),
       merged := g.merged + {rng})
  }

  lemma GetWithMerge(g: Grid, rng: Range, r: int, c: int)
    requires 1 <= rng.minRow <= rng.maxRow
    ensures Get(WithMerge(g, rng), r, c) == if NonAnchor(rng, r, c) then DefaultCell else Get(g, r, c)
    ensures MaxRow(WithMerge(g, rng)) == if rng.maxRow > MaxRow(g) then rng.maxRow else MaxRow(g)
  {
  }

  function UnmergedRow(row: Row, r: int, rng: Range): Row {
    map c | c in row && !NonAnchor(rng, r, c) :: row[c]
  }

  /** ws.unmerge_cells(rng): the range is no longer merged and the cells it
      covered, other than the anchor, are removed. */
  function WithoutMerge(g: Grid, rng: Range): (g': Grid) {
    g.(rows := seq(|g.rows|, i requires 0 <= i < |g.rows| => UnmergedRow(g.rows[i], i + 1, rng)),
       merged := g.merged - {rng})
  }

  lemma GetWithoutMerge(g: Grid, rng: Range, r: int, c: int)
    ensures Get(WithoutMerge(g, rng), r, c) == if NonAnchor(rng, r, c) then DefaultCell else Get(g, r, c)
    ensures MaxRow(WithoutMerge(g, rng)) == MaxRow(g)
  {
  }

  /** An empty string is written to the file as a cell without a value,
      which reads back as None. */
  function PersistValue(v: Value): (r: Value)
    ensures r != Text("")
    ensures v != Text("") ==> r == v
  {
    if v == Text("") then Empty else v
  }

  function PersistedRow(row: Row): Row {
    map c | c in row :: Cell(PersistValue(row[c].value), row[c].style)
  }

  /** wb.save(path) followed by a later load_workbook(path). */
  function Persisted(g: Grid): Grid {
    g.(rows := seq(|g.rows|, i requires 0 <= i < |g.rows| => PersistedRow(g.rows[i])))
  }

  lemma GetPersisted(g: Grid, r: int, c: int)
    ensures Get(Persisted(g), r, c) == Cell(PersistValue(Get(g, r, c).value), Get(g, r, c).style)
    ensures MaxRow(Persisted(g)) == MaxRow(g) && Persisted(g).merged == g.merged
  {
  }

  /** A row height the sheet does not store reads as None, false in
      Python, here 0. */
  function RowHeight(g: Grid, r: int): real {
    if r in g.rowHeight then g.rowHeight[r] else 0.0
  }

  /** The width openpyxl reports for a column whose width was never set. */
  const UNSET_COLUMN_WIDTH: real := 13.0

  function ColumnWidth(g: Grid, c: int): real {
    if c in g.colWidth then g.colWidth[c] else UNSET_COLUMN_WIDTH
  }

  /** The loaded, mutable worksheet. */
  class Worksheet {
    var rows: seq<Row>
    var merged: set<Range>
    var rowHeight: map<int, real>
    var colWidth: map<int, real>

    function Snapshot(): Grid
      reads this
    {
      Grid(rows, merged, rowHeight, colWidth)
    }

    /** load_workbook(...).active */
    constructor Load(g: Grid)
      ensures Snapshot() == g
    {
      rows, merged, rowHeight, colWidth := g.rows, g.merged, g.rowHeight, g.colWidth;
    }

    function At(r: int, c: int): Cell
      reads this
    {
      Get(Snapshot(), r, c)
    }

    method SetValue(r: int, c: int, v: Value)
      requires r >= 1
      modifies this
      ensures Snapshot() == WithValue(old(Snapshot()), r, c, v)
    {
      rows := WithValue(Snapshot(), r, c, v).rows;
    }

    /** ws.cell(row=r, column=c, value=v) */
    method Assign(r: int, c: int, v: Value)
      requires r >= 1
      modifies this
      ensures Snapshot() == Assigned(old(Snapshot()), r, c, v)
    {
      if v != Empty {
        rows := WithValue(Snapshot(), r, c, v).rows;
      }
    }

    method SetStyle(r: int, c: int, s: Style)
      requires r >= 1
      modifies this
      ensures Snapshot() == WithStyle(old(Snapshot()), r, c, s)
    {
      rows := WithStyle(Snapshot(), r, c, s).rows;
    }

    /** ws._cells[(r, c)] = cell */
    method PutCell(r: int, c: int, cell: Cell)
      requires r >= 1
      modifies this
      ensures Snapshot() == WithCell(old(Snapshot()), r, c, cell)
    {
      rows := WithCell(Snapshot(), r, c, cell).rows;
    }

    method DeleteRows(start: nat, count: nat)
      requires start >= 1
      modifies this
      ensures Snapshot() == RowsDeleted(old(Snapshot()), start, count)
    {
      var lo := Min(start - 1, |rows|);
      var hi := Min(start - 1 + count, |rows|);
      rows := rows[..lo] + rows[hi..];
    }

    method MergeCells(rng: Range)
      requires 1 <= rng.minRow <= rng.maxRow
      modifies this
      ensures Snapshot() == WithMerge(old(Snapshot()), rng)
    {
      var g := WithMerge(Snapshot(), rng);
      rows, merged := g.rows, g.merged;
    }

    method UnmergeCells(rng: Range)
      modifies this
      ensures Snapshot() == WithoutMerge(old(Snapshot()), rng)
    {
      var g := WithoutMerge(Snapshot(), rng);
      rows, merged := g.rows, g.merged;
    }

    /** ws.row_dimensions[r].height = h */
    method SetRowHeight(r: int, h: real)
      modifies this
      ensures Snapshot() == old(Snapshot()).(rowHeight := old(rowHeight)[r := h])
    {
      rowHeight := rowHeight[r := h];
    }

    /** ws.column_dimensions[letter].width = w */
    method SetColumnWidth(c: int, w: real)
      modifies this
      ensures Snapshot() == old(Snapshot()).(colWidth := old(colWidth)[c := w])
    {
      colWidth := colWidth[c := w];
    }
  }
}
