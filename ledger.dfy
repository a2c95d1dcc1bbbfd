// The replace-all save of the hearings ledger, guardar_audiencias_excel
// (excel_utils.py:148-323), on the loaded worksheet: clearing the old data
// rows, writing one row per hearing, removing stale totals rows, and
// writing the totals row and the per-reason totals row. Each step is a
// function on the sheet's value and a method on the Worksheet proved to
// perform it; lemmas say what each step leaves in every cell.

module Ledger {
  import opened PyText
  import opened Schema
  import opened Cells
  import opened FechaHora
  import opened Hearings
  import opened Ordering
  import opened Styles

  // ---------------------------------------------------------------------
  // Clearing the old data rows (excel_utils.py:171-174)

  /** Rows 11 .. min(max_row, 299) deleted. */
  function Cleared(g: Grid): Grid {
    var m := Min(MaxRow(g), MAX_FILA_PERMITIDA - 1);
    if m > FILA_ENCABEZADO then RowsDeleted(g, FILA_ENCABEZADO + 1, m - FILA_ENCABEZADO) else g
  }

  /** The header rows stay. Below them the sheet is empty when it ended by
      row 299; otherwise delete_rows moves everything from row 300 on up by
      289 rows, so what was at row 300 lands on row 11. */
  lemma ClearedAt(g: Grid, r: int, c: int)
    ensures Get(Cleared(g), r, c)
         == if r <= FILA_ENCABEZADO then Get(g, r, c)
            else if MaxRow(g) < MAX_FILA_PERMITIDA then DefaultCell
            else Get(g, r + (MAX_FILA_PERMITIDA - 1 - FILA_ENCABEZADO), c)
    ensures MaxRow(Cleared(g))
         == if MaxRow(g) <= FILA_ENCABEZADO then MaxRow(g)
            else if MaxRow(g) < MAX_FILA_PERMITIDA then FILA_ENCABEZADO
            else MaxRow(g) - (MAX_FILA_PERMITIDA - 1 - FILA_ENCABEZADO)
    ensures Cleared(g).merged == g.merged && Cleared(g).rowHeight == g.rowHeight && Cleared(g).colWidth == g.colWidth
  {
    var m := Min(MaxRow(g), MAX_FILA_PERMITIDA - 1);
    if m > FILA_ENCABEZADO {
      RowsDeletedAt(g, FILA_ENCABEZADO + 1, m - FILA_ENCABEZADO, r, c);
    }
  }

  method ClearDataRows(ws: Worksheet)
    modifies ws
    ensures ws.Snapshot() == Cleared(old(ws.Snapshot()))
  {
    var maxRow := Min(|ws.rows|, MAX_FILA_PERMITIDA - 1);
    if maxRow > FILA_ENCABEZADO {
      ws.DeleteRows(FILA_ENCABEZADO + 1, maxRow - FILA_ENCABEZADO);
    }
  }

  // ---------------------------------------------------------------------
  // One data row (excel_utils.py:199-231)

  predicate HeldSi(d: Record) {
    Field(d, K_SE_REALIZO) == Text(SI)
  }

  predicate HeldNo(d: Record) {
    Field(d, K_SE_REALIZO) == Text(NO)
  }

  /** d.get("motivos", [])[k] if k < len(...) else "" */
  function ReasonValue(d: Record, k: int): Value {
    if 0 <= k < |d.motivos| then d.motivos[k] else Text("")
  }

  /** The value the row of record d, numbered idx, is given in column c. */
  function RowValue(idx: int, d: Record, c: int): Value {
    if c == COL_NRO then Num(idx)
    else if c == COL_RADICADO then Field(d, K_RADICADO)
    else if c == COL_TIPO then Field(d, K_TIPO)
    else if c == COL_FECHA then Field(d, K_FECHA)
    else if c == COL_HORA then Field(d, K_HORA)
    else if c == COL_JUZGADO then Field(d, K_JUZGADO)
    else if c == COL_REALIZADO_SI then (if HeldSi(d) then Text(X) else Text(""))
    else if c == COL_REALIZADO_NO then (if !HeldSi(d) && HeldNo(d) then Text(X) else Text(""))
    else if COL_MOTIVOS_INICIO <= c <= COL_MOTIVOS_FIN then ReasonValue(d, c - COL_MOTIVOS_INICIO)
    else if c == COL_OBSERVACIONES then FieldOr(d, K_OBSERVACIONES, Text(""))
    else Empty
  }

  /** A validated record gets an "X" in exactly one of G and H, G when it
      was held and H when it was not, and "" in the other; reason k goes to
      column I + k, so reasons past the eighth are dropped and missing ones
      are written as "". */
  lemma RowMarkers(idx: int, d: Record)
    requires HeldSi(d) || HeldNo(d)
    ensures (RowValue(idx, d, COL_REALIZADO_SI) == Text(X)) <==> HeldSi(d)
    ensures (RowValue(idx, d, COL_REALIZADO_NO) == Text(X)) <==> HeldNo(d)
    ensures RowValue(idx, d, COL_REALIZADO_SI) == Text(X) <==> RowValue(idx, d, COL_REALIZADO_NO) == Text("")
    ensures forall k :: 0 <= k < NUM_MOTIVOS ==>
      RowValue(idx, d, COL_MOTIVOS_INICIO + k) == if k < |d.motivos| then d.motivos[k] else Text("")
  {
    forall k | 0 <= k < NUM_MOTIVOS
      ensures RowValue(idx, d, COL_MOTIVOS_INICIO + k) == if k < |d.motivos| then d.motivos[k] else Text("")
    {
      assert COL_MOTIVOS_INICIO <= COL_MOTIVOS_INICIO + k <= COL_MOTIVOS_FIN;
    }
  }

  /** Columns A..H and Q of the row, in the order they are written: number,
      the five fields, G and H cleared, the "X", observations. */
  function FieldEdits(idx: int, d: Record): seq<Edit> {
    [Assign(COL_NRO, Num(idx)), Assign(COL_RADICADO, Field(d, K_RADICADO)), Assign(COL_TIPO, Field(d, K_TIPO)),
     Assign(COL_FECHA, Field(d, K_FECHA)), Assign(COL_HORA, Field(d, K_HORA)), Assign(COL_JUZGADO, Field(d, K_JUZGADO)),
     Assign(COL_REALIZADO_SI, Text("")), Assign(COL_REALIZADO_NO, Text(""))]
    + MarkerEdits(d)
    + [Assign(COL_OBSERVACIONES, FieldOr(d, K_OBSERVACIONES, Text("")))]
  }

  /** The same edits, one at a time. */
  lemma FieldEditsOneByOne(idx: int, d: Record)
    ensures FieldEdits(idx, d)
         == [Assign(COL_NRO, Num(idx))] + [Assign(COL_RADICADO, Field(d, K_RADICADO))] + [Assign(COL_TIPO, Field(d, K_TIPO))]
          + [Assign(COL_FECHA, Field(d, K_FECHA))] + [Assign(COL_HORA, Field(d, K_HORA))] + [Assign(COL_JUZGADO, Field(d, K_JUZGADO))]
          + [Assign(COL_REALIZADO_SI, Text(""))] + [Assign(COL_REALIZADO_NO, Text(""))]
          + MarkerEdits(d)
          + [Assign(COL_OBSERVACIONES, FieldOr(d, K_OBSERVACIONES, Text("")))]
  {
  }

  function MarkerEdits(d: Record): seq<Edit> {
    if HeldSi(d) then [Assign(COL_REALIZADO_SI, Text(X))]
    else if HeldNo(d) then [Assign(COL_REALIZADO_NO, Text(X))]
    else []
  }

  predicate InFieldColumns(c: int) {
    COL_NRO <= c <= COL_REALIZADO_NO || c == COL_OBSERVACIONES
  }

  lemma FieldEditsAt(cell: Cell, idx: int, d: Record, c: int)
    ensures Edited(cell, FieldEdits(idx, d), c)
         == if InFieldColumns(c) then Cell(Written(RowValue(idx, d, c), cell.value), cell.style) else cell
  {
    var e1 := Assign(COL_NRO, Num(idx));
    var p2 := [e1] + [Assign(COL_RADICADO, Field(d, K_RADICADO))];
    var p3 := p2 + [Assign(COL_TIPO, Field(d, K_TIPO))];
    var p4 := p3 + [Assign(COL_FECHA, Field(d, K_FECHA))];
    var p5 := p4 + [Assign(COL_HORA, Field(d, K_HORA))];
    var p6 := p5 + [Assign(COL_JUZGADO, Field(d, K_JUZGADO))];
    var p7 := p6 + [Assign(COL_REALIZADO_SI, Text(""))];
    var p8 := p7 + [Assign(COL_REALIZADO_NO, Text(""))];
    var m := MarkerEdits(d);
    var o := Assign(COL_OBSERVACIONES, FieldOr(d, K_OBSERVACIONES, Text("")));
    FieldEditsOneByOne(idx, d);
    EditedOne(cell, e1, c);
    EditedSnoc(cell, [e1], Assign(COL_RADICADO, Field(d, K_RADICADO)), c);
    EditedSnoc(cell, p2, Assign(COL_TIPO, Field(d, K_TIPO)), c);
    EditedSnoc(cell, p3, Assign(COL_FECHA, Field(d, K_FECHA)), c);
    EditedSnoc(cell, p4, Assign(COL_HORA, Field(d, K_HORA)), c);
    EditedSnoc(cell, p5, Assign(COL_JUZGADO, Field(d, K_JUZGADO)), c);
    EditedSnoc(cell, p6, Assign(COL_REALIZADO_SI, Text("")), c);
    EditedSnoc(cell, p7, Assign(COL_REALIZADO_NO, Text("")), c);
    EditedAppend(cell, p8, m, c);
    if HeldSi(d) {
      EditedOne(Edited(cell, p8, c), Assign(COL_REALIZADO_SI, Text(X)), c);
    } else if HeldNo(d) {
      EditedOne(Edited(cell, p8, c), Assign(COL_REALIZADO_NO, Text(X)), c);
    }
    EditedSnoc(cell, p8 + m, o, c);
  }

  /** The reason columns I..P from column I + k on, each written twice. */
  function ReasonEdits(d: Record, k: int): seq<Edit>
    requires k >= 0
    decreases NUM_MOTIVOS - k
  {
    if k >= NUM_MOTIVOS then []
    else [Assign(COL_MOTIVOS_INICIO + k, ReasonValue(d, k)), Assign(COL_MOTIVOS_INICIO + k, ReasonValue(d, k))] + ReasonEdits(d, k + 1)
  }

  lemma {:induction false} ReasonEditsAt(cell: Cell, d: Record, k: int, c: int)
    requires k >= 0
    ensures Edited(cell, ReasonEdits(d, k), c)
         == if COL_MOTIVOS_INICIO + k <= c <= COL_MOTIVOS_FIN
            then Cell(Written(ReasonValue(d, c - COL_MOTIVOS_INICIO), cell.value), cell.style)
            else cell
    decreases NUM_MOTIVOS - k
  {
    if k < NUM_MOTIVOS {
      var e := Assign(COL_MOTIVOS_INICIO + k, ReasonValue(d, k));
      assert [e, e] == [e] + [e];
      EditedAppend(cell, [e, e], ReasonEdits(d, k + 1), c);
      EditedSnoc(cell, [e], e, c);
      EditedOne(cell, e, c);
      ReasonEditsAt(Edited(cell, [e, e], c), d, k + 1, c);
    }
  }

  /** Applying one reason's two writes. */
  lemma ApplyReasonStep(row: Row, d: Record, k: int)
    requires 0 <= k < NUM_MOTIVOS
    ensures var e := Assign(COL_MOTIVOS_INICIO + k, ReasonValue(d, k));
      Apply(row, ReasonEdits(d, k)) == Apply(ApplyEdit(ApplyEdit(row, e), e), ReasonEdits(d, k + 1))
  {
    var e := Assign(COL_MOTIVOS_INICIO + k, ReasonValue(d, k));
    assert [e, e] == [e] + [e];
    ApplyAppend(row, [e, e], ReasonEdits(d, k + 1));
    ApplySnoc(row, [e], e);
    ApplyOne(row, e);
  }

  /** Thin borders on I..P from column col on. */
  function BorderEdits(col: int): seq<Edit>
    decreases COL_MOTIVOS_FIN + 1 - col
  {
    if col > COL_MOTIVOS_FIN then [] else [SetBorder(col, ThinBox)] + BorderEdits(col + 1)
  }

  lemma {:induction false} BorderEditsAt(cell: Cell, col: int, c: int)
    ensures Edited(cell, BorderEdits(col), c)
         == if col <= c <= COL_MOTIVOS_FIN then Cell(cell.value, cell.style.(border := ThinBox)) else cell
    decreases COL_MOTIVOS_FIN + 1 - col
  {
    if col <= COL_MOTIVOS_FIN {
      var e := SetBorder(col, ThinBox);
      EditedAppend(cell, [e], BorderEdits(col + 1), c);
      EditedOne(cell, e, c);
      BorderEditsAt(EditStep(cell, e, c), col + 1, c);
    }
  }

  /** A style as the writing loop leaves it in column c: thin borders on
      I..P. */
  function Bordered(s: Style, c: int): Style {
    if COL_MOTIVOS_INICIO <= c <= COL_MOTIVOS_FIN then s.(border := ThinBox) else s
  }

  /** The style every data row ends up with in column c: row 11's style,
      with thin borders on I..P. */
  function DataStyle(g: Grid, c: int): Style {
    Bordered(Get(g, FILA_ENCABEZADO + 1, c).style, c)
  }

  /** Everything one iteration writes on its row before the styles of row
      11 are copied onto it. */
  function RowEdits(idx: int, d: Record): seq<Edit> {
    FieldEdits(idx, d) + ReasonEdits(d, 0) + BorderEdits(COL_MOTIVOS_INICIO)
  }

  lemma RowEditsAt(cell: Cell, idx: int, d: Record, c: int)
    ensures Edited(cell, RowEdits(idx, d), c)
         == if 1 <= c <= LAST_COL then Cell(Written(RowValue(idx, d, c), cell.value), Bordered(cell.style, c)) else cell
  {
    var f := FieldEdits(idx, d);
    var re := ReasonEdits(d, 0);
    EditedAppend(cell, f + re, BorderEdits(COL_MOTIVOS_INICIO), c);
    EditedAppend(cell, f, re, c);
    FieldEditsAt(cell, idx, d, c);
    ReasonEditsAt(Edited(cell, f, c), d, 0, c);
    BorderEditsAt(Edited(cell, f + re, c), COL_MOTIVOS_INICIO, c);
  }

  function RowFilled(g: Grid, idx: int, d: Record): Grid
    requires idx >= 1
  {
    RowApplied(g, FILA_ENCABEZADO + idx, RowEdits(idx, d))
  }

  /** Outside its row and outside A..Q nothing changes. */
  lemma RowFilledElsewhere(g: Grid, idx: int, d: Record, r: int, c: int)
    requires idx >= 1
    requires r != FILA_ENCABEZADO + idx || !(1 <= c <= LAST_COL)
    ensures Get(RowFilled(g, idx, d), r, c) == Get(g, r, c)
  {
    RowAppliedAt(g, FILA_ENCABEZADO + idx, RowEdits(idx, d), r, c);
    RowEditsAt(Get(g, r, c), idx, d, c);
  }

  /** Each cell of A..Q of the row gets the record's value (kept as it was
      where that value is None) and keeps its style, with thin borders on
      I..P. */
  lemma RowFilledCell(g: Grid, idx: int, d: Record, c: int)
    requires idx >= 1 && 1 <= c <= LAST_COL
    ensures Get(RowFilled(g, idx, d), FILA_ENCABEZADO + idx, c)
         == Cell(Written(RowValue(idx, d, c), Get(g, FILA_ENCABEZADO + idx, c).value), Bordered(Get(g, FILA_ENCABEZADO + idx, c).style, c))
  {
    RowAppliedAt(g, FILA_ENCABEZADO + idx, RowEdits(idx, d), FILA_ENCABEZADO + idx, c);
    RowEditsAt(Get(g, FILA_ENCABEZADO + idx, c), idx, d, c);
  }

  lemma RowFilledDimensions(g: Grid, idx: int, d: Record)
    requires idx >= 1
    ensures var g' := RowFilled(g, idx, d);
      && MaxRow(g') == (if FILA_ENCABEZADO + idx > MaxRow(g) then FILA_ENCABEZADO + idx else MaxRow(g))
      && g'.merged == g.merged && g'.rowHeight == g.rowHeight && g'.colWidth == g.colWidth
  {
    RowAppliedAt(g, FILA_ENCABEZADO + idx, RowEdits(idx, d), 1, 1);
  }

  /** The whole of one iteration of the writing loop, for the idx-th
      record: its values, its reasons, the borders of I..P, then the styles
      of row 11 copied onto it. */
  function RowWritten(g: Grid, idx: int, d: Record): Grid
    requires idx >= 1
  {
    RowStylesCopied(RowFilled(g, idx, d), FILA_ENCABEZADO + 1, FILA_ENCABEZADO + idx)
  }

  lemma RowWrittenElsewhere(g: Grid, idx: int, d: Record, r: int, c: int)
    requires idx >= 1
    requires r != FILA_ENCABEZADO + idx || !(1 <= c <= LAST_COL)
    ensures Get(RowWritten(g, idx, d), r, c) == Get(g, r, c)
  {
    RowStylesCopiedAt(RowFilled(g, idx, d), FILA_ENCABEZADO + 1, FILA_ENCABEZADO + idx, r, c);
    RowFilledElsewhere(g, idx, d, r, c);
  }

  /** The row of the idx-th record: its values over row 11's styles; the
      first row copies its own styles, thin borders on I..P included. */
  lemma RowWrittenCell(g: Grid, idx: int, d: Record, c: int)
    requires idx >= 1 && 1 <= c <= LAST_COL
    ensures Get(RowWritten(g, idx, d), FILA_ENCABEZADO + idx, c)
         == Cell(Written(RowValue(idx, d, c), Get(g, FILA_ENCABEZADO + idx, c).value),
                 if idx == 1 then DataStyle(g, c) else Get(g, FILA_ENCABEZADO + 1, c).style)
  {
    var fila := FILA_ENCABEZADO + idx;
    RowStylesCopiedAt(RowFilled(g, idx, d), FILA_ENCABEZADO + 1, fila, fila, c);
    RowFilledCell(g, idx, d, c);
    if idx != 1 {
      RowFilledElsewhere(g, idx, d, FILA_ENCABEZADO + 1, c);
    }
  }

  lemma RowWrittenHeight(g: Grid, idx: int, d: Record, r: int)
    requires idx >= 1
    ensures RowHeight(RowWritten(g, idx, d), r)
         == if r == FILA_ENCABEZADO + idx then HeightOrDefault(RowHeight(g, FILA_ENCABEZADO + 1)) else RowHeight(g, r)
  {
    RowFilledDimensions(g, idx, d);
    RowStylesCopiedDimensions(RowFilled(g, idx, d), FILA_ENCABEZADO + 1, FILA_ENCABEZADO + idx, r, 1);
  }

  lemma RowWrittenWidth(g: Grid, idx: int, d: Record, c: int)
    requires idx >= 1
    ensures ColumnWidth(RowWritten(g, idx, d), c)
         == if 1 <= c <= LAST_COL then WidthOrDefault(ColumnWidth(g, c)) else ColumnWidth(g, c)
  {
    RowFilledDimensions(g, idx, d);
    RowStylesCopiedDimensions(RowFilled(g, idx, d), FILA_ENCABEZADO + 1, FILA_ENCABEZADO + idx, 1, c);
  }

  lemma RowWrittenShape(g: Grid, idx: int, d: Record)
    requires idx >= 1
    ensures RowWritten(g, idx, d).merged == g.merged
    ensures MaxRow(RowWritten(g, idx, d)) == if FILA_ENCABEZADO + idx > MaxRow(g) then FILA_ENCABEZADO + idx else MaxRow(g)
  {
    RowFilledDimensions(g, idx, d);
    RowStylesCopiedDimensions(RowFilled(g, idx, d), FILA_ENCABEZADO + 1, FILA_ENCABEZADO + idx, 1, 1);
  }

  /** What the first i iterations leave in cell (r, c): row 10 + k
      (1 <= k <= i) holds the values of the k-th record over whatever the
      sheet had in the cells a None value leaves alone, with row 11's styles
      and thin borders on I..P; every other cell is as it was. */
  function CellAfter(g: Grid, recs: seq<Record>, i: nat, r: int, c: int): Cell
    requires i <= |recs|
  {
    if FILA_ENCABEZADO + 1 <= r <= FILA_ENCABEZADO + i && 1 <= c <= LAST_COL
    then Cell(Written(RowValue(r - FILA_ENCABEZADO, recs[r - FILA_ENCABEZADO - 1], c), Get(g, r, c).value), DataStyle(g, c))
    else Get(g, r, c)
  }

  /** Each written row takes row 11's height, or 20 when row 11 has none. */
  function HeightAfter(g: Grid, i: nat, r: int): real {
    if FILA_ENCABEZADO + 1 <= r <= FILA_ENCABEZADO + i then HeightOrDefault(RowHeight(g, FILA_ENCABEZADO + 1)) else RowHeight(g, r)
  }

  /** Once a row is written, no width of A..Q reads as zero. */
  function WidthAfter(g: Grid, i: nat, c: int): real {
    if i >= 1 && 1 <= c <= LAST_COL then WidthOrDefault(ColumnWidth(g, c)) else ColumnWidth(g, c)
  }

  function MaxRowAfter(g: Grid, i: nat): int {
    if i >= 1 && FILA_ENCABEZADO + i > MaxRow(g) then FILA_ENCABEZADO + i else MaxRow(g)
  }

  ghost predicate CellsAfter(g: Grid, recs: seq<Record>, i: nat, h: Grid)
    requires i <= |recs|
  {
    forall r, c :: Get(h, r, c) == CellAfter(g, recs, i, r, c)
  }

  ghost predicate HeightsAfter(g: Grid, i: nat, h: Grid) {
    forall r :: RowHeight(h, r) == HeightAfter(g, i, r)
  }

  ghost predicate WidthsAfter(g: Grid, i: nat, h: Grid) {
    forall c :: ColumnWidth(h, c) == WidthAfter(g, i, c)
  }

  predicate ShapeAfter(g: Grid, i: nat, h: Grid) {
    h.merged == g.merged && MaxRow(h) == MaxRowAfter(g, i)
  }

  /** h is g after the first i iterations of the writing loop over recs:
      every cell, every row height and column width, the merged ranges and
      the extent of the sheet. */
  ghost predicate RowsWritten(g: Grid, recs: seq<Record>, i: nat, h: Grid)
    requires i <= |recs|
  {
    CellsAfter(g, recs, i, h) && HeightsAfter(g, i, h) && WidthsAfter(g, i, h) && ShapeAfter(g, i, h)
  }

  lemma RowsWrittenStart(g: Grid, recs: seq<Record>)
    ensures RowsWritten(g, recs, 0, g)
  {
  }

  lemma CellStepOn(g: Grid, recs: seq<Record>, i: nat, prev: Grid, c: int)
    requires i < |recs| && 1 <= c <= LAST_COL
    requires Get(prev, FILA_ENCABEZADO + i + 1, c) == Get(g, FILA_ENCABEZADO + i + 1, c)
    requires Get(prev, FILA_ENCABEZADO + 1, c) == CellAfter(g, recs, i, FILA_ENCABEZADO + 1, c)
    ensures Get(RowWritten(prev, i + 1, recs[i]), FILA_ENCABEZADO + i + 1, c) == CellAfter(g, recs, i + 1, FILA_ENCABEZADO + i + 1, c)
  {
    RowWrittenCell(prev, i + 1, recs[i], c);
  }

  lemma CellStepOff(g: Grid, recs: seq<Record>, i: nat, prev: Grid, r: int, c: int)
    requires i < |recs|
    requires r != FILA_ENCABEZADO + i + 1 || !(1 <= c <= LAST_COL)
    requires Get(prev, r, c) == CellAfter(g, recs, i, r, c)
    ensures Get(RowWritten(prev, i + 1, recs[i]), r, c) == CellAfter(g, recs, i + 1, r, c)
  {
    RowWrittenElsewhere(prev, i + 1, recs[i], r, c);
  }

  lemma CellsStep(g: Grid, recs: seq<Record>, i: nat, prev: Grid)
    requires i < |recs| && CellsAfter(g, recs, i, prev)
    ensures CellsAfter(g, recs, i + 1, RowWritten(prev, i + 1, recs[i]))
  {
    var next, j := RowWritten(prev, i + 1, recs[i]), i + 1;
    forall r, c ensures Get(next, r, c) == CellAfter(g, recs, j, r, c) {
      if r == FILA_ENCABEZADO + i + 1 && 1 <= c <= LAST_COL {
        assert Get(prev, r, c) == CellAfter(g, recs, i, r, c);
        assert Get(prev, FILA_ENCABEZADO + 1, c) == CellAfter(g, recs, i, FILA_ENCABEZADO + 1, c);
        CellStepOn(g, recs, i, prev, c);
      } else {
        assert Get(prev, r, c) == CellAfter(g, recs, i, r, c);
        CellStepOff(g, recs, i, prev, r, c);
      }
    }
  }

  lemma HeightsStep(g: Grid, recs: seq<Record>, i: nat, prev: Grid)
    requires i < |recs| && HeightsAfter(g, i, prev)
    ensures HeightsAfter(g, i + 1, RowWritten(prev, i + 1, recs[i]))
  {
    var next, j := RowWritten(prev, i + 1, recs[i]), i + 1;
    forall r ensures RowHeight(next, r) == HeightAfter(g, j, r) {
      assert RowHeight(prev, r) == HeightAfter(g, i, r);
      assert RowHeight(prev, FILA_ENCABEZADO + 1) == HeightAfter(g, i, FILA_ENCABEZADO + 1);
      RowWrittenHeight(prev, i + 1, recs[i], r);
    }
  }

  lemma WidthsStep(g: Grid, recs: seq<Record>, i: nat, prev: Grid)
    requires i < |recs| && WidthsAfter(g, i, prev)
    ensures WidthsAfter(g, i + 1, RowWritten(prev, i + 1, recs[i]))
  {
    var next, j := RowWritten(prev, i + 1, recs[i]), i + 1;
    forall c ensures ColumnWidth(next, c) == WidthAfter(g, j, c) {
      assert ColumnWidth(prev, c) == WidthAfter(g, i, c);
      RowWrittenWidth(prev, i + 1, recs[i], c);
    }
  }

  lemma ShapeStep(g: Grid, recs: seq<Record>, i: nat, prev: Grid)
    requires i < |recs| && ShapeAfter(g, i, prev)
    ensures ShapeAfter(g, i + 1, RowWritten(prev, i + 1, recs[i]))
  {
    RowWrittenShape(prev, i + 1, recs[i]);
  }

  /** One more iteration of the writing loop. */
  lemma RowsWrittenStep(g: Grid, recs: seq<Record>, i: nat, prev: Grid)
    requires i < |recs| && RowsWritten(g, recs, i, prev)
    ensures RowsWritten(g, recs, i + 1, RowWritten(prev, i + 1, recs[i]))
  {
    CellsStep(g, recs, i, prev);
    HeightsStep(g, recs, i, prev);
    WidthsStep(g, recs, i, prev);
    ShapeStep(g, recs, i, prev);
  }

  method WriteFields(ws: Worksheet, fila: int, idx: int, d: Record)
    requires fila >= 1
    modifies ws
    ensures ws.Snapshot() == SetRow(old(ws.Snapshot()), fila, Apply(RowOf(old(ws.Snapshot()), fila), FieldEdits(idx, d)))
  {
    ghost var g0 := ws.Snapshot();
    ghost var row0 := RowOf(g0, fila);
    FieldEditsOneByOne(idx, d);
    ghost var e := Assign(COL_NRO, Num(idx));
    EditGridAsRow(g0, fila, e);
    ws.Assign(fila, COL_NRO, Num(idx));
    ApplyOne(row0, e);
    ghost var done := [e];
    ghost var row := ApplyEdit(row0, e);

    e := Assign(COL_RADICADO, Field(d, K_RADICADO));
    EditGridSetRow(g0, fila, row, e);
    ws.Assign(fila, COL_RADICADO, Field(d, K_RADICADO));
    ApplySnoc(row0, done, e);
    done, row := done + [e], ApplyEdit(row, e);

    e := Assign(COL_TIPO, Field(d, K_TIPO));
    EditGridSetRow(g0, fila, row, e);
    ws.Assign(fila, COL_TIPO, Field(d, K_TIPO));
    ApplySnoc(row0, done, e);
    done, row := done + [e], ApplyEdit(row, e);

    e := Assign(COL_FECHA, Field(d, K_FECHA));
    EditGridSetRow(g0, fila, row, e);
    ws.Assign(fila, COL_FECHA, Field(d, K_FECHA));
    ApplySnoc(row0, done, e);
    done, row := done + [e], ApplyEdit(row, e);

    e := Assign(COL_HORA, Field(d, K_HORA));
    EditGridSetRow(g0, fila, row, e);
    ws.Assign(fila, COL_HORA, Field(d, K_HORA));
    ApplySnoc(row0, done, e);
    done, row := done + [e], ApplyEdit(row, e);

    e := Assign(COL_JUZGADO, Field(d, K_JUZGADO));
    EditGridSetRow(g0, fila, row, e);
    ws.Assign(fila, COL_JUZGADO, Field(d, K_JUZGADO));
    ApplySnoc(row0, done, e);
    done, row := done + [e], ApplyEdit(row, e);

    e := Assign(COL_REALIZADO_SI, Text(""));
    EditGridSetRow(g0, fila, row, e);
    ws.Assign(fila, COL_REALIZADO_SI, Text(""));
    ApplySnoc(row0, done, e);
    done, row := done + [e], ApplyEdit(row, e);

    e := Assign(COL_REALIZADO_NO, Text(""));
    EditGridSetRow(g0, fila, row, e);
    ws.Assign(fila, COL_REALIZADO_NO, Text(""));
    ApplySnoc(row0, done, e);
    done, row := done + [e], ApplyEdit(row, e);

    ghost var fixed := done;
    if Field(d, K_SE_REALIZO) == Text(SI) {
      e := Assign(COL_REALIZADO_SI, Text(X));
      EditGridSetRow(g0, fila, row, e);
      ws.Assign(fila, COL_REALIZADO_SI, Text(X));
      ApplySnoc(row0, done, e);
      done, row := done + [e], ApplyEdit(row, e);
    } else if Field(d, K_SE_REALIZO) == Text(NO) {
      e := Assign(COL_REALIZADO_NO, Text(X));
      EditGridSetRow(g0, fila, row, e);
      ws.Assign(fila, COL_REALIZADO_NO, Text(X));
      ApplySnoc(row0, done, e);
      done, row := done + [e], ApplyEdit(row, e);
    } else {
      assert fixed + [] == fixed;
    }
    assert done == fixed + MarkerEdits(d);

    e := Assign(COL_OBSERVACIONES, FieldOr(d, K_OBSERVACIONES, Text("")));
    EditGridSetRow(g0, fila, row, e);
    ws.Assign(fila, COL_OBSERVACIONES, FieldOr(d, K_OBSERVACIONES, Text("")));
    ApplySnoc(row0, done, e);
  }

  /** The first reason loop of one iteration: each reason written twice. */
  method WriteReasons(ws: Worksheet, fila: int, d: Record, ghost g0: Grid, ghost row0: Row)
    requires fila >= 1
    requires ws.Snapshot() == SetRow(g0, fila, row0)
    modifies ws
    ensures ws.Snapshot() == SetRow(g0, fila, Apply(row0, ReasonEdits(d, 0)))
  {
    ghost var row := row0;
    var k := 0;
    while k < NUM_MOTIVOS
      invariant 0 <= k <= NUM_MOTIVOS
      invariant ws.Snapshot() == SetRow(g0, fila, row)
      invariant Apply(row, ReasonEdits(d, k)) == Apply(row0, ReasonEdits(d, 0))
      decreases NUM_MOTIVOS - k
    {
      var motivo := ReasonValue(d, k);
      ghost var e := Assign(COL_MOTIVOS_INICIO + k, motivo);
      ApplyReasonStep(row, d, k);
      EditGridSetRow(g0, fila, row, e);
      ws.Assign(fila, COL_MOTIVOS_INICIO + k, motivo);
      row := ApplyEdit(row, e);
      EditGridSetRow(g0, fila, row, e);
      ws.Assign(fila, COL_MOTIVOS_INICIO + k, motivo);
      row := ApplyEdit(row, e);
      k := k + 1;
    }
  }

  /** Setting the border of one cell of a row that was set whole is
      applying that edit to the row. */
  lemma BorderSetRow(g0: Grid, fila: int, row: Row, col: int, b: Border)
    requires fila >= 1
    ensures var g := SetRow(g0, fila, row);
      WithStyle(g, fila, col, Get(g, fila, col).style.(border := b)) == SetRow(g0, fila, ApplyEdit(row, SetBorder(col, b)))
  {
    EditGridSetRow(g0, fila, row, SetBorder(col, b));
  }

  /** The second reason loop: thin borders on I..P. */
  method WriteReasonBorders(ws: Worksheet, fila: int, ghost g0: Grid, ghost row0: Row)
    requires fila >= 1
    requires ws.Snapshot() == SetRow(g0, fila, row0)
    modifies ws
    ensures ws.Snapshot() == SetRow(g0, fila, Apply(row0, BorderEdits(COL_MOTIVOS_INICIO)))
  {
    ghost var row := row0;
    var col := COL_MOTIVOS_INICIO;
    while col <= COL_MOTIVOS_FIN
      invariant COL_MOTIVOS_INICIO <= col <= COL_MOTIVOS_FIN + 1
      invariant ws.Snapshot() == SetRow(g0, fila, row)
      invariant Apply(row, BorderEdits(col)) == Apply(row0, BorderEdits(COL_MOTIVOS_INICIO))
      decreases COL_MOTIVOS_FIN + 1 - col
    {
      ghost var e := SetBorder(col, ThinBox);
      ApplyCons(row, e, BorderEdits(col + 1));
      BorderSetRow(g0, fila, row, col, ThinBox);
      ws.SetStyle(fila, col, ws.At(fila, col).style.(border := ThinBox));
      row := ApplyEdit(row, e);
      col := col + 1;
    }
  }

  lemma ApplyRowEdits(row: Row, idx: int, d: Record)
    ensures Apply(row, RowEdits(idx, d))
         == Apply(Apply(Apply(row, FieldEdits(idx, d)), ReasonEdits(d, 0)), BorderEdits(COL_MOTIVOS_INICIO))
  {
    var f, re, b := FieldEdits(idx, d), ReasonEdits(d, 0), BorderEdits(COL_MOTIVOS_INICIO);
    ApplyAppend(row, f + re, b);
    ApplyAppend(row, f, re);
  }

  /** One iteration of the writing loop of guardar_audiencias_excel. */
  method WriteRow(ws: Worksheet, idx: int, d: Record)
    requires idx >= 1
    modifies ws
    ensures ws.Snapshot() == RowWritten(old(ws.Snapshot()), idx, d)
  {
    var fila := FILA_ENCABEZADO + idx;
    ghost var g0 := ws.Snapshot();
    ghost var row0 := RowOf(g0, fila);
    WriteFields(ws, fila, idx, d);
    ghost var row1 := Apply(row0, FieldEdits(idx, d));
    WriteReasons(ws, fila, d, g0, row1);
    ghost var row2 := Apply(row1, ReasonEdits(d, 0));
    WriteReasonBorders(ws, fila, g0, row2);
    ApplyRowEdits(row0, idx, d);
    assert ws.Snapshot() == RowFilled(g0, idx, d);
    CopyRowStyles(ws, FILA_ENCABEZADO + 1, fila);
  }

  /** The writing loop over the sorted records, numbered from 1. */
  method WriteRows(ws: Worksheet, recs: seq<Record>)
    modifies ws
    ensures RowsWritten(old(ws.Snapshot()), recs, |recs|, ws.Snapshot())
  {
    ghost var g0 := ws.Snapshot();
    RowsWrittenStart(g0, recs);
    var i := 0;
    while i < |recs|
      invariant 0 <= i <= |recs|
      invariant RowsWritten(g0, recs, i, ws.Snapshot())
    {
      ghost var prev := ws.Snapshot();
      WriteRow(ws, i + 1, recs[i]);
      RowsWrittenStep(g0, recs, i, prev);
      i := i + 1;
    }
  }
}
