// The rows below the data that guardar_audiencias_excel rebuilds on every
// save: the removal of totals rows a previous save left behind
// (excel_utils.py:233-247), the row of held and not-held totals
// (lines 249-275) and the row of per-reason totals (lines 277-319).

module Totals {
  import opened PyText
  import opened Schema
  import opened Cells
  import opened Styles

  // ---------------------------------------------------------------------
  // Stale totals rows (excel_utils.py:233-247)

  /** The marker that identifies a totals row. */
  const TOTAL_PREFIX: string := "TOTAL DE"

  /** The loop test: G or H holds a truthy value. */
  predicate MarkerColumnsFilled(g: Grid, r: int) {
    Truthy(ValueAt(g, r, COL_REALIZADO_SI)) || Truthy(ValueAt(g, r, COL_REALIZADO_NO))
  }

  /** str(value or "") */
  function MarkerText(v: Value): string {
    Str(OrEmpty(v))
  }

  /** G or H starts with "TOTAL DE". */
  predicate IsTotalsRow(g: Grid, r: int) {
    StartsWith(MarkerText(ValueAt(g, r, COL_REALIZADO_SI)), TOTAL_PREFIX)
    || StartsWith(MarkerText(ValueAt(g, r, COL_REALIZADO_NO)), TOTAL_PREFIX)
  }

  /** The walk takes row r and goes on to the next one. */
  predicate Collected(g: Grid, r: int) {
    MarkerColumnsFilled(g, r) && IsTotalsRow(g, r)
  }

  /** How many rows the walk from row r collects: the rows r, r + 1, ...
      are collected up to the first one that is not. */
  function StaleRun(g: Grid, r: int): (k: nat)
    requires r >= 1
    ensures forall j :: r <= j < r + k ==> Collected(g, j)
    ensures !Collected(g, r + k)
    decreases MaxRow(g) + 1 - r
  {
    if Collected(g, r) then
      assert r <= MaxRow(g);
      1 + StaleRun(g, r + 1)
    else 0
  }

  /** The walk reads nothing but columns G and H: two sheets that agree
      there from row r on give the same run. */
  lemma {:induction false} StaleRunReadsMarkersOnly(g: Grid, h: Grid, r: int)
    requires r >= 1
    requires forall j :: j >= r ==> ValueAt(g, j, COL_REALIZADO_SI) == ValueAt(h, j, COL_REALIZADO_SI)
    requires forall j :: j >= r ==> ValueAt(g, j, COL_REALIZADO_NO) == ValueAt(h, j, COL_REALIZADO_NO)
    ensures StaleRun(g, r) == StaleRun(h, r)
    decreases StaleRun(g, r)
  {
    assert Collected(g, r) <==> Collected(h, r);
    if Collected(g, r) {
      StaleRunReadsMarkersOnly(g, h, r + 1);
    }
  }

  /** Once the collected rows are deleted, the walk from the same row finds
      nothing more: removing stale totals twice is removing them once. */
  lemma StaleRemovalIdempotent(g: Grid, start: nat)
    requires start >= 1
    ensures StaleRun(RowsDeleted(g, start, StaleRun(g, start)), start) == 0
  {
    var k := StaleRun(g, start);
    RowsDeletedAt(g, start, k, start, COL_REALIZADO_SI);
    RowsDeletedAt(g, start, k, start, COL_REALIZADO_NO);
  }

  /** The collecting loop (lines 234-243): the rows start, start + 1, ...
      the walk takes. */
  method CollectStale(ws: Worksheet, start: nat) returns (filas: seq<nat>)
    requires start >= 1
    ensures |filas| == StaleRun(ws.Snapshot(), start)
    ensures forall j :: 0 <= j < |filas| ==> filas[j] == start + j
  {
    ghost var g := ws.Snapshot();
    filas := [];
    var fila := start;
    while Truthy(ws.At(fila, COL_REALIZADO_SI).value) || Truthy(ws.At(fila, COL_REALIZADO_NO).value)
      invariant start <= fila
      invariant |filas| == fila - start
      invariant forall j :: 0 <= j < |filas| ==> filas[j] == start + j
      invariant StaleRun(g, start) == |filas| + StaleRun(g, fila)
      decreases MaxRow(g) + 1 - fila
    {
      assert MarkerColumnsFilled(g, fila);
      var valorG := MarkerText(ws.At(fila, COL_REALIZADO_SI).value);
      var valorH := MarkerText(ws.At(fila, COL_REALIZADO_NO).value);
      if StartsWith(valorG, TOTAL_PREFIX) || StartsWith(valorH, TOTAL_PREFIX) {
        assert Collected(g, fila);
        filas := filas + [fila];
        fila := fila + 1;
      } else {
        assert !IsTotalsRow(g, fila);
        break;
      }
    }
  }

  /** The deleting loop (lines 246-247): the rows start .. start + k - 1,
      one at a time from the bottom up, which deletes the block. */
  method DeleteBottomUp(ws: Worksheet, start: nat, filas: seq<nat>)
    requires start >= 1
    requires forall j :: 0 <= j < |filas| ==> filas[j] == start + j
    modifies ws
    ensures ws.Snapshot() == RowsDeleted(old(ws.Snapshot()), start, |filas|)
  {
    ghost var g0 := ws.Snapshot();
    ghost var k := |filas|;
    RowsDeletedNone(g0, start + k);
    var j := |filas|;
    while j > 0
      invariant 0 <= j <= k
      invariant ws.Snapshot() == RowsDeleted(g0, start + j, k - j)
    {
      j := j - 1;
      RowsDeletedExtend(g0, start + j, k - j - 1);
      ws.DeleteRows(filas[j], 1);
    }
  }

  /** The stale totals rows below the data, found by the walk, are
      deleted. */
  method RemoveStaleTotals(ws: Worksheet, start: nat)
    requires start >= 1
    modifies ws
    ensures ws.Snapshot() == RowsDeleted(old(ws.Snapshot()), start, StaleRun(old(ws.Snapshot()), start))
  {
    var filas := CollectStale(ws, start);
    DeleteBottomUp(ws, start, filas);
  }

  // ---------------------------------------------------------------------
  // The totals row (excel_utils.py:249-275)

  /** "TOTAL DE AUDIENCIAS REALIZADAS: " */
  const SI_LABEL: string := TOTAL_PREFIX + " AUDIENCIAS REALIZADAS: "
  /** "TOTAL DE AUDIENCIAS NO REALIZADAS: " */
  const NO_LABEL: string := TOTAL_PREFIX + " AUDIENCIAS NO REALIZADAS: "

  /** The light grey fill the totals cells get first, before
      aplicar_estilos_totales replaces it. */
  const TotalsBackground: Fill := Fill("solid", "E0E0E0", "E0E0E0")

  const TOO_MANY_MSG: string := "Demasiadas audiencias: podrías sobrescribir la firma del defensor."
  const NO_ROOM_MSG: string :=
    "No hay espacio suficiente para escribir los totales de motivos " +
    "sin sobrescribir la firma del defensor."

  function SiText(n: nat): string {
    SI_LABEL + NatToString(n)
  }

  function NoText(n: nat): string {
    NO_LABEL + NatToString(n)
  }

  /** The assignments lines 262-275 make on row fila: the two labelled
      counts, a grey fill and a thin border on each, and then
      aplicar_estilos_totales on each. */
  function TotalsEdits(si: nat, no: nat): seq<Edit> {
    TotalsLabelEdits(si, no) + TotalsBorderEdits
    + TotalsStyleEdits(COL_REALIZADO_SI) + TotalsStyleEdits(COL_REALIZADO_NO)
  }

  function TotalsLabelEdits(si: nat, no: nat): seq<Edit> {
    [Assign(COL_REALIZADO_SI, Text(SiText(si))), Assign(COL_REALIZADO_NO, Text(NoText(no))),
     SetFill(COL_REALIZADO_SI, TotalsBackground), SetFill(COL_REALIZADO_NO, TotalsBackground)]
  }

  const TotalsBorderEdits: seq<Edit> := [SetBorder(COL_REALIZADO_SI, ThinBox), SetBorder(COL_REALIZADO_NO, ThinBox)]

  function TotalsWritten(g: Grid, fila: int, si: nat, no: nat): Grid
    requires fila >= 1
  {
    RowApplied(g, fila, TotalsEdits(si, no))
  }

  lemma TotalsEditsAt(cell: Cell, si: nat, no: nat, c: int)
    ensures Edited(cell, TotalsEdits(si, no), c)
         == if c == COL_REALIZADO_SI then Cell(Text(SiText(si)), TotalsStyled(cell.style))
            else if c == COL_REALIZADO_NO then Cell(Text(NoText(no)), TotalsStyled(cell.style))
            else cell
  {
    var head := TotalsLabelEdits(si, no) + TotalsBorderEdits;
    var s1, s2 := TotalsStyleEdits(COL_REALIZADO_SI), TotalsStyleEdits(COL_REALIZADO_NO);
    EditedAppend(cell, head + s1, s2, c);
    EditedAppend(cell, head, s1, c);
    TotalsHeadAt(cell, si, no, c);
    var x := Edited(cell, head, c);
    TotalsStyleAt(x, COL_REALIZADO_SI, c);
    TotalsStyleAt(Edited(x, s1, c), COL_REALIZADO_NO, c);
  }

  /** The labels, the fill and the borders the totals loop writes. */
  lemma TotalsHeadAt(cell: Cell, si: nat, no: nat, c: int)
    ensures Edited(cell, TotalsLabelEdits(si, no) + TotalsBorderEdits, c)
         == if c == COL_REALIZADO_SI then Cell(Text(SiText(si)), cell.style.(fill := TotalsBackground, border := ThinBox))
            else if c == COL_REALIZADO_NO then Cell(Text(NoText(no)), cell.style.(fill := TotalsBackground, border := ThinBox))
            else cell
  {
    var a1, a2 := Assign(COL_REALIZADO_SI, Text(SiText(si))), Assign(COL_REALIZADO_NO, Text(NoText(no)));
    var f1, f2 := SetFill(COL_REALIZADO_SI, TotalsBackground), SetFill(COL_REALIZADO_NO, TotalsBackground);
    var b1, b2 := SetBorder(COL_REALIZADO_SI, ThinBox), SetBorder(COL_REALIZADO_NO, ThinBox);
    assert TotalsLabelEdits(si, no) + TotalsBorderEdits == [a1, a2] + [f1, f2] + [b1, b2];
    EditedAppend(cell, [a1, a2] + [f1, f2], [b1, b2], c);
    EditedAppend(cell, [a1, a2], [f1, f2], c);
    var x1 := Edited(cell, [a1, a2], c);
    EditedTwo(cell, a1, a2, c);
    var x2 := Edited(x1, [f1, f2], c);
    EditedTwo(x1, f1, f2, c);
    EditedTwo(x2, b1, b2, c);
  }

  /** aplicar_estilos_totales on column c' restyles that cell only. */
  lemma TotalsStyleAt(cell: Cell, c': int, c: int)
    ensures Edited(cell, TotalsStyleEdits(c'), c) == if c == c' then cell.(style := TotalsStyled(cell.style)) else cell
  {
    var s := TotalsStyleEdits(c');
    EditedThree(cell, s[0], s[1], s[2], c);
  }

  /** G and H of the row hold the two labelled counts in the totals style;
      no other cell changes. */
  lemma TotalsWrittenAt(g: Grid, fila: int, si: nat, no: nat, r: int, c: int)
    requires fila >= 1
    ensures var t := TotalsWritten(g, fila, si, no);
      && Get(t, r, c)
         == (if r == fila && c == COL_REALIZADO_SI then Cell(Text(SiText(si)), TotalsStyled(Get(g, r, c).style))
             else if r == fila && c == COL_REALIZADO_NO then Cell(Text(NoText(no)), TotalsStyled(Get(g, r, c).style))
             else Get(g, r, c))
      && MaxRow(t) == (if fila > MaxRow(g) then fila else MaxRow(g))
      && t.merged == g.merged && t.rowHeight == g.rowHeight && t.colWidth == g.colWidth
  {
    RowAppliedAt(g, fila, TotalsEdits(si, no), r, c);
    TotalsEditsAt(Get(g, fila, c), si, no, c);
  }

  /** The totals row is exactly what the next save's walk removes. */
  lemma TotalsRowIsStale(g: Grid, fila: int, si: nat, no: nat)
    requires fila >= 1
    ensures Collected(TotalsWritten(g, fila, si, no), fila)
  {
    TotalsWrittenAt(g, fila, si, no, fila, COL_REALIZADO_SI);
    var rest := " AUDIENCIAS REALIZADAS: " + NatToString(si);
    assert SiText(si) == TOTAL_PREFIX + rest;
    StartsWithAppend(TOTAL_PREFIX, rest);
    assert MarkerText(ValueAt(TotalsWritten(g, fila, si, no), fila, COL_REALIZADO_SI)) == SiText(si);
  }

  /** A row already replaced by the edits done, edited once more. */
  lemma EditMore(g0: Grid, fila: int, row0: Row, done: seq<Edit>, e: Edit)
    requires fila >= 1
    ensures EditGrid(SetRow(g0, fila, Apply(row0, done)), fila, e) == SetRow(g0, fila, Apply(row0, done + [e]))
  {
    EditGridSetRow(g0, fila, Apply(row0, done), e);
    ApplySnoc(row0, done, e);
  }

  /** aplicar_estilos_totales on a replaced row. */
  lemma TotalsStyleMore(g0: Grid, fila: int, row0: Row, done: seq<Edit>, c: int)
    requires fila >= 1
    ensures var row := Apply(row0, done);
      WithStyle(SetRow(g0, fila, row), fila, c, TotalsStyled(Get(SetRow(g0, fila, row), fila, c).style))
      == SetRow(g0, fila, Apply(row0, done + TotalsStyleEdits(c)))
  {
    var row := Apply(row0, done);
    GetSetRow(g0, fila, row, fila, c);
    EditGridSetRow(g0, fila, row, Restyle(c, TotalsStyled(CellIn(row, c).style)));
    TotalsRestyleAsEdits(row, c);
    ApplyAppend(row0, done, TotalsStyleEdits(c));
  }

  /** Lines 262-267: the two labelled counts, then the grey fills. */
  method WriteTotalsLabels(ws: Worksheet, fila: int, si: nat, no: nat)
    requires fila >= 1
    modifies ws
    ensures ws.Snapshot() == RowApplied(old(ws.Snapshot()), fila, TotalsLabelEdits(si, no))
  {
    ghost var g0 := ws.Snapshot();
    ghost var row0 := RowOf(g0, fila);
    ghost var e := Assign(COL_REALIZADO_SI, Text(SiText(si)));
    EditGridAsRow(g0, fila, e);
    ApplyOne(row0, e);
    ws.Assign(fila, COL_REALIZADO_SI, Text(SiText(si)));
    ghost var done := [e];

    e := Assign(COL_REALIZADO_NO, Text(NoText(no)));
    EditMore(g0, fila, row0, done, e);
    ws.Assign(fila, COL_REALIZADO_NO, Text(NoText(no)));
    done := done + [e];

    e := SetFill(COL_REALIZADO_SI, TotalsBackground);
    EditMore(g0, fila, row0, done, e);
    ws.SetStyle(fila, COL_REALIZADO_SI, ws.At(fila, COL_REALIZADO_SI).style.(fill := TotalsBackground));
    done := done + [e];

    e := SetFill(COL_REALIZADO_NO, TotalsBackground);
    EditMore(g0, fila, row0, done, e);
    ws.SetStyle(fila, COL_REALIZADO_NO, ws.At(fila, COL_REALIZADO_NO).style.(fill := TotalsBackground));
    done := done + [e];
    assert done == TotalsLabelEdits(si, no);
  }

  /** The totals row: the labels and fills, thin borders (lines 269-270),
      and aplicar_estilos_totales on both cells (lines 274-275). */
  method WriteTotalsRow(ws: Worksheet, fila: int, si: nat, no: nat)
    requires fila >= 1
    modifies ws
    ensures ws.Snapshot() == TotalsWritten(old(ws.Snapshot()), fila, si, no)
  {
    ghost var g0 := ws.Snapshot();
    ghost var row0 := RowOf(g0, fila);
    WriteTotalsLabels(ws, fila, si, no);
    ghost var done := TotalsLabelEdits(si, no);

    ghost var e := SetBorder(COL_REALIZADO_SI, ThinBox);
    EditMore(g0, fila, row0, done, e);
    ws.SetStyle(fila, COL_REALIZADO_SI, ws.At(fila, COL_REALIZADO_SI).style.(border := ThinBox));
    done := done + [e];

    e := SetBorder(COL_REALIZADO_NO, ThinBox);
    EditMore(g0, fila, row0, done, e);
    ws.SetStyle(fila, COL_REALIZADO_NO, ws.At(fila, COL_REALIZADO_NO).style.(border := ThinBox));
    assert done + [e] == TotalsLabelEdits(si, no) + TotalsBorderEdits;
    done := TotalsLabelEdits(si, no) + TotalsBorderEdits;

    TotalsStyleMore(g0, fila, row0, done, COL_REALIZADO_SI);
    ApplyTotalsStyle(ws, fila, COL_REALIZADO_SI);
    done := done + TotalsStyleEdits(COL_REALIZADO_SI);

    TotalsStyleMore(g0, fila, row0, done, COL_REALIZADO_NO);
    ApplyTotalsStyle(ws, fila, COL_REALIZADO_NO);
  }

  // ---------------------------------------------------------------------
  // Counting the reasons (excel_utils.py:298-306)

  /** Row r counts for reason k: H holds exactly "X" and column I + k a
      truthy value. */
  predicate CountsReason(g: Grid, r: int, k: int) {
    ValueAt(g, r, COL_REALIZADO_NO) == Text(X) && Truthy(ValueAt(g, r, COL_MOTIVOS_INICIO + k))
  }

  /** The number of rows lo .. hi - 1 that count for reason k. */
  function ReasonCount(g: Grid, lo: int, hi: int, k: int): nat
    decreases hi - lo
  {
    if hi <= lo then 0 else ReasonCount(g, lo, hi - 1, k) + (if CountsReason(g, hi - 1, k) then 1 else 0)
  }

  function ReasonCounts(g: Grid, lo: int, hi: int): (counts: seq<nat>)
    ensures |counts| == NUM_MOTIVOS
  {
    seq(NUM_MOTIVOS, k requires 0 <= k < NUM_MOTIVOS => ReasonCount(g, lo, hi, k))
  }

  /** The counting loop over rows 11 .. hi - 1 and, in each row whose H is
      "X", over the reason columns. */
  method CountReasons(ws: Worksheet, hi: int) returns (counts: seq<nat>)
    ensures counts == ReasonCounts(ws.Snapshot(), FILA_ENCABEZADO + 1, hi)
  {
    ghost var g := ws.Snapshot();
    var lo := FILA_ENCABEZADO + 1;
    counts := seq(NUM_MOTIVOS, _ => 0);
    var fila := lo;
    while fila < hi
      invariant lo <= fila <= (if hi >= lo then hi else lo)
      invariant |counts| == NUM_MOTIVOS
      invariant forall j :: 0 <= j < NUM_MOTIVOS ==> counts[j] == ReasonCount(g, lo, fila, j)
    {
      if ws.At(fila, COL_REALIZADO_NO).value == Text(X) {
        var k := 0;
        while k < NUM_MOTIVOS
          invariant 0 <= k <= NUM_MOTIVOS && |counts| == NUM_MOTIVOS
          invariant forall j :: 0 <= j < k ==> counts[j] == ReasonCount(g, lo, fila + 1, j)
          invariant forall j :: k <= j < NUM_MOTIVOS ==> counts[j] == ReasonCount(g, lo, fila, j)
        {
          if Truthy(ws.At(fila, COL_MOTIVOS_INICIO + k).value) {
            counts := counts[k := counts[k] + 1];
          }
          k := k + 1;
        }
      } else {
        assert forall j :: 0 <= j < NUM_MOTIVOS ==> ReasonCount(g, lo, fila + 1, j) == ReasonCount(g, lo, fila, j);
      }
      fila := fila + 1;
    }
    assert forall j :: 0 <= j < NUM_MOTIVOS ==> counts[j] == ReasonCount(g, lo, hi, j);
  }

  // ---------------------------------------------------------------------
  // The per-reason totals row (excel_utils.py:308-319)

  /** f"{motivos_nombres[col]}: {total}" */
  function ReasonText(k: int, total: nat): string
    requires 0 <= k < NUM_MOTIVOS
  {
    MOTIVOS_NOMBRES[k] + ": " + NatToString(total)
  }

  /** The assignments of lines 312-319 on the reason columns from I + k
      on: the labelled count, then aplicar_estilos_totales_motivos. */
  function ReasonTotalsEdits(counts: seq<nat>, k: nat): seq<Edit>
    requires |counts| == NUM_MOTIVOS
    decreases NUM_MOTIVOS - k
  {
    if k >= NUM_MOTIVOS then []
    else
      [Assign(COL_MOTIVOS_INICIO + k, Text(ReasonText(k, counts[k])))]
      + ReasonTotalsStyleEdits(COL_MOTIVOS_INICIO + k) + ReasonTotalsEdits(counts, k + 1)
  }

  lemma {:induction false} ReasonTotalsEditsAt(cell: Cell, counts: seq<nat>, k: nat, c: int)
    requires |counts| == NUM_MOTIVOS
    ensures Edited(cell, ReasonTotalsEdits(counts, k), c)
         == if COL_MOTIVOS_INICIO + k <= c <= COL_MOTIVOS_FIN
            then Cell(Text(ReasonText(c - COL_MOTIVOS_INICIO, counts[c - COL_MOTIVOS_INICIO])), ReasonTotalsStyled(cell.style))
            else cell
    decreases NUM_MOTIVOS - k
  {
    if k < NUM_MOTIVOS {
      var col := COL_MOTIVOS_INICIO + k;
      var e := Assign(col, Text(ReasonText(k, counts[k])));
      var st := ReasonTotalsStyleEdits(col);
      var rest := ReasonTotalsEdits(counts, k + 1);
      EditedAppend(cell, [e] + st, rest, c);
      ReasonTotalAt(cell, counts, k, c);
      ReasonTotalsEditsAt(Edited(cell, [e] + st, c), counts, k + 1, c);
    }
  }

  /** Reason k's labelled count and style touch column I + k only. */
  lemma ReasonTotalAt(cell: Cell, counts: seq<nat>, k: nat, c: int)
    requires |counts| == NUM_MOTIVOS && k < NUM_MOTIVOS
    ensures var col := COL_MOTIVOS_INICIO + k;
      Edited(cell, [Assign(col, Text(ReasonText(k, counts[k])))] + ReasonTotalsStyleEdits(col), c)
      == if c == col then Cell(Text(ReasonText(k, counts[k])), ReasonTotalsStyled(cell.style)) else cell
  {
    var col := COL_MOTIVOS_INICIO + k;
    var e := Assign(col, Text(ReasonText(k, counts[k])));
    var st := ReasonTotalsStyleEdits(col);
    EditedAppend(cell, [e], st, c);
    EditedOne(cell, e, c);
    EditedThree(EditStep(cell, e, c), st[0], st[1], st[2], c);
  }

  function ReasonTotalsWritten(g: Grid, fila: int, counts: seq<nat>): Grid
    requires fila >= 1 && |counts| == NUM_MOTIVOS
  {
    RowApplied(g, fila, ReasonTotalsEdits(counts, 0))
  }

  /** Column I + k of the row holds "<reason>: <count>" in the reason
      totals style; no other cell changes. */
  lemma ReasonTotalsWrittenAt(g: Grid, fila: int, counts: seq<nat>, r: int, c: int)
    requires fila >= 1 && |counts| == NUM_MOTIVOS
    ensures var t := ReasonTotalsWritten(g, fila, counts);
      && Get(t, r, c)
         == (if r == fila && COL_MOTIVOS_INICIO <= c <= COL_MOTIVOS_FIN
             then Cell(Text(ReasonText(c - COL_MOTIVOS_INICIO, counts[c - COL_MOTIVOS_INICIO])), ReasonTotalsStyled(Get(g, r, c).style))
             else Get(g, r, c))
      && MaxRow(t) == (if fila > MaxRow(g) then fila else MaxRow(g))
      && t.merged == g.merged && t.rowHeight == g.rowHeight && t.colWidth == g.colWidth
  {
    RowAppliedAt(g, fila, ReasonTotalsEdits(counts, 0), r, c);
    ReasonTotalsEditsAt(Get(g, fila, c), counts, 0, c);
  }

  /** The row once reason k's labelled count is written and styled. */
  ghost function ReasonTotalRow(row: Row, counts: seq<nat>, k: nat): Row
    requires |counts| == NUM_MOTIVOS && k < NUM_MOTIVOS
  {
    var col := COL_MOTIVOS_INICIO + k;
    Apply(ApplyEdit(row, Assign(col, Text(ReasonText(k, counts[k])))), ReasonTotalsStyleEdits(col))
  }

  lemma ReasonTotalsStep(row: Row, counts: seq<nat>, k: nat)
    requires |counts| == NUM_MOTIVOS && k < NUM_MOTIVOS
    ensures Apply(row, ReasonTotalsEdits(counts, k)) == Apply(ReasonTotalRow(row, counts, k), ReasonTotalsEdits(counts, k + 1))
  {
    var col := COL_MOTIVOS_INICIO + k;
    var e := Assign(col, Text(ReasonText(k, counts[k])));
    var row1 := ApplyEdit(row, e);
    var st := ReasonTotalsStyleEdits(col);
    var rest := ReasonTotalsEdits(counts, k + 1);
    assert ReasonTotalsEdits(counts, k) == [e] + (st + rest);
    ApplyCons(row, e, st + rest);
    ApplyAppend(row1, st, rest);
  }

  /** aplicar_estilos_totales_motivos on a replaced row. */
  lemma ReasonStyleMore(g0: Grid, fila: int, row: Row, c: int)
    requires fila >= 1
    ensures WithStyle(SetRow(g0, fila, row), fila, c, ReasonTotalsStyled(Get(SetRow(g0, fila, row), fila, c).style))
      == SetRow(g0, fila, Apply(row, ReasonTotalsStyleEdits(c)))
  {
    GetSetRow(g0, fila, row, fila, c);
    EditGridSetRow(g0, fila, row, Restyle(c, ReasonTotalsStyled(CellIn(row, c).style)));
    TotalsRestyleAsEdits(row, c);
  }

  /** One pass of the loop of lines 312-319 on a row already replaced:
      the labelled count of reason k, then its style. */
  method WriteReasonTotal(ws: Worksheet, fila: int, counts: seq<nat>, k: nat, ghost g0: Grid, ghost row: Row, ghost first: bool)
    requires fila >= 1 && |counts| == NUM_MOTIVOS && k < NUM_MOTIVOS
    requires ws.Snapshot() == (if first then g0 else SetRow(g0, fila, row))
    requires first ==> row == RowOf(g0, fila)
    modifies ws
    ensures ws.Snapshot() == SetRow(g0, fila, ReasonTotalRow(row, counts, k))
  {
    var col := COL_MOTIVOS_INICIO + k;
    ghost var e := Assign(col, Text(ReasonText(k, counts[k])));
    if first {
      EditGridAsRow(g0, fila, e);
    } else {
      EditGridSetRow(g0, fila, row, e);
    }
    ws.Assign(fila, col, Text(ReasonText(k, counts[k])));
    ReasonStyleMore(g0, fila, ApplyEdit(row, e), col);
    ApplyReasonTotalsStyle(ws, fila, col);
  }

  method WriteReasonTotals(ws: Worksheet, fila: int, counts: seq<nat>)
    requires fila >= 1 && |counts| == NUM_MOTIVOS
    modifies ws
    ensures ws.Snapshot() == ReasonTotalsWritten(old(ws.Snapshot()), fila, counts)
  {
    ghost var g0 := ws.Snapshot();
    ghost var row0 := RowOf(g0, fila);
    ghost var final := Apply(row0, ReasonTotalsEdits(counts, 0));
    ghost var row := row0;
    var k := 0;
    while k < NUM_MOTIVOS
      invariant 0 <= k <= NUM_MOTIVOS
      invariant ws.Snapshot() == (if k == 0 then g0 else SetRow(g0, fila, row))
      invariant k == 0 ==> row == row0
      invariant Apply(row, ReasonTotalsEdits(counts, k)) == final
      decreases NUM_MOTIVOS - k
    {
      ReasonTotalsStep(row, counts, k);
      WriteReasonTotal(ws, fila, counts, k, g0, row, k == 0);
      row := ReasonTotalRow(row, counts, k);
      k := k + 1;
    }
    assert ReasonTotalsEdits(counts, k) == [];
    assert Apply(row, []) == row;
  }
}
