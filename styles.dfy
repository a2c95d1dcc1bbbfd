// The style helpers of the ledger: copying one row's styles onto another
// (excel_utils.py:489-589), the styles of the totals cells, of the
// per-reason totals cells and of the signature row (excel_utils.py:594-663),
// and the removal of every merged range (excel_utils.py:93-99).

module Styles {
  import opened Schema
  import opened Cells

  const ThinBox: Border := Border(Thin, Thin, Thin, Thin)
  const ThickBox: Border := Border(Thick, Thick, Thick, Thick)
  const CenteredWrapped: Alignment := Alignment("center", "center", true)

  /** PatternFill(fill_type='solid', fgColor='D9D9D9'): the end colour keeps
      openpyxl's default. */
  const TotalsFill: Fill := Fill("solid", "D9D9D9", "00000000")

  /** Font(name='Calibri', size=11, color='000000'), neither bold nor italic. */
  const BlackCalibri: Font := Font("Calibri", 11, false, false, "000000")

  const DEFAULT_ROW_HEIGHT: real := 20.0
  const DEFAULT_COLUMN_WIDTH: real := 15.0

  // ---------------------------------------------------------------------
  // copiar_estilos_fila

  /** `height or 20.0` */
  function HeightOrDefault(h: real): real {
    if h != 0.0 then h else DEFAULT_ROW_HEIGHT
  }

  /** `width or 15.0`: a stored width of zero becomes 15. */
  function WidthOrDefault(w: real): real {
    if w != 0.0 then w else DEFAULT_COLUMN_WIDTH
  }

  /** The cell re-creations of the copy for columns 1..n: each cell of row
      dst keeps its value and takes the style of the cell of srcRow, the
      source row as it was when the copy began (the source cell is fetched
      before the destination cell is re-created, so a row copied onto itself
      keeps its styles). */
  function StyleEdits(srcRow: Row, n: int): seq<Edit>
    decreases n
  {
    if n < 1 then [] else StyleEdits(srcRow, n - 1) + [Restyle(n, CellIn(srcRow, n).style)]
  }

  function WidthOf(w: map<int, real>, c: int): real {
    if c in w then w[c] else UNSET_COLUMN_WIDTH
  }

  /** The column widths once those stored as zero among columns 1..n are
      15. */
  function Widened(w: map<int, real>, n: int): map<int, real>
    decreases n
  {
    if n < 1 then w
    else
      var w' := Widened(w, n - 1);
      if WidthOf(w', n) == 0.0 then w'[n := DEFAULT_COLUMN_WIDTH] else w'
  }

  /** copiar_estilos_fila(ws, src, dst) */
  function RowStylesCopied(g: Grid, src: int, dst: int): Grid
    requires src >= 1 && dst >= 1
  {
    RowApplied(g, dst, StyleEdits(RowOf(g, src), LAST_COL))
      .(rowHeight := g.rowHeight[dst := HeightOrDefault(RowHeight(g, src))],
        colWidth := Widened(g.colWidth, LAST_COL))
  }

  lemma {:induction false} StyleEditsAt(cell: Cell, srcRow: Row, n: int, c: int)
    ensures Edited(cell, StyleEdits(srcRow, n), c) == if 1 <= c <= n then Cell(cell.value, CellIn(srcRow, c).style) else cell
    decreases n
  {
    if n >= 1 {
      StyleEditsAt(cell, srcRow, n - 1, c);
      EditedSnoc(cell, StyleEdits(srcRow, n - 1), Restyle(n, CellIn(srcRow, n).style), c);
    }
  }

  lemma {:induction false} WidenedAt(w: map<int, real>, n: int, c: int)
    ensures WidthOf(Widened(w, n), c) == if 1 <= c <= n then WidthOrDefault(WidthOf(w, c)) else WidthOf(w, c)
    decreases n
  {
    if n >= 1 {
      WidenedAt(w, n - 1, c);
      WidenedAt(w, n - 1, n);
    }
  }

  /** The copy, cell by cell: row dst keeps its values and takes row src's
      styles in columns A..Q, and nothing else changes. */
  lemma RowStylesCopiedAt(g: Grid, src: int, dst: int, r: int, c: int)
    requires src >= 1 && dst >= 1
    ensures Get(RowStylesCopied(g, src, dst), r, c)
         == if r == dst && 1 <= c <= LAST_COL then Cell(Get(g, dst, c).value, Get(g, src, c).style) else Get(g, r, c)
  {
    RowAppliedAt(g, dst, StyleEdits(RowOf(g, src), LAST_COL), r, c);
    StyleEditsAt(Get(g, dst, c), RowOf(g, src), LAST_COL, c);
    GetIsCellIn(g, src, c);
  }

  /** The copy's dimensions: dst takes src's height, or 20 when src has
      none; every width of A..Q stored as zero becomes 15; the merged
      ranges stay and the sheet reaches at least row dst. */
  lemma RowStylesCopiedDimensions(g: Grid, src: int, dst: int, r: int, c: int)
    requires src >= 1 && dst >= 1
    ensures var g' := RowStylesCopied(g, src, dst);
      && RowHeight(g', r) == (if r == dst then HeightOrDefault(RowHeight(g, src)) else RowHeight(g, r))
      && ColumnWidth(g', c) == (if 1 <= c <= LAST_COL then WidthOrDefault(ColumnWidth(g, c)) else ColumnWidth(g, c))
      && g'.merged == g.merged
      && MaxRow(g') == (if dst > MaxRow(g) then dst else MaxRow(g))
  {
    RowAppliedAt(g, dst, StyleEdits(RowOf(g, src), LAST_COL), r, c);
    WidenedAt(g.colWidth, LAST_COL, c);
  }

  /** The sheet part-way through the copy: columns 1..n done, on a sheet
      whose row dst already has its new height. */
  function CopiedUpTo(g: Grid, src: int, dst: int, n: int): Grid
    requires src >= 1 && dst >= 1
  {
    RowApplied(g, dst, StyleEdits(RowOf(g, src), n))
      .(rowHeight := g.rowHeight[dst := HeightOrDefault(RowHeight(g, src))],
        colWidth := Widened(g.colWidth, n))
  }

  /** One column of the copy: the sheet with columns 1..col-1 done, after
      dst's cell in column col takes src's style and column col gets its
      default width when it has none, has columns 1..col done. */
  lemma CopyColumnStep(g0: Grid, src: int, dst: int, col: int)
    requires src >= 1 && dst >= 1 && 1 <= col <= LAST_COL
    ensures var pre := if col == 1 then g0.(rowHeight := g0.rowHeight[dst := HeightOrDefault(RowHeight(g0, src))])
                       else CopiedUpTo(g0, src, dst, col - 1);
      var put := WithCell(pre, dst, col, Cell(Get(pre, dst, col).value, Get(pre, src, col).style));
      (if ColumnWidth(put, col) == 0.0 then put.(colWidth := put.colWidth[col := DEFAULT_COLUMN_WIDTH]) else put)
        == CopiedUpTo(g0, src, dst, col)
  {
    var srcRow := RowOf(g0, src);
    var gb := g0.(rowHeight := g0.rowHeight[dst := HeightOrDefault(RowHeight(g0, src))], colWidth := Widened(g0.colWidth, col - 1));
    var done := StyleEdits(srcRow, col - 1);
    var e := Restyle(col, CellIn(srcRow, col).style);
    RowAppliedAt(gb, dst, done, src, col);
    StyleEditsAt(Get(gb, src, col), srcRow, col - 1, col);
    GetIsCellIn(g0, src, col);
    if col == 1 {
      EditGridAsRow(gb, dst, e);
    } else {
      EditGridSetRow(gb, dst, Apply(RowOf(gb, dst), done), e);
    }
    ApplySnoc(RowOf(gb, dst), done, e);
  }

  method CopyRowStyles(ws: Worksheet, src: int, dst: int)
    requires src >= 1 && dst >= 1
    modifies ws
    ensures ws.Snapshot() == RowStylesCopied(old(ws.Snapshot()), src, dst)
  {
    ghost var g0 := ws.Snapshot();
    var h := HeightOrDefault(RowHeight(ws.Snapshot(), src));
    ws.SetRowHeight(dst, h);
    var col := 1;
    while col <= LAST_COL
      invariant 1 <= col <= LAST_COL + 1
      invariant col == 1 ==> ws.Snapshot() == g0.(rowHeight := g0.rowHeight[dst := h])
      invariant col > 1 ==> ws.Snapshot() == CopiedUpTo(g0, src, dst, col - 1)
      decreases LAST_COL + 1 - col
    {
      CopyColumnStep(g0, src, dst, col);
      var source := ws.At(src, col);
      var target := ws.At(dst, col);
      ws.PutCell(dst, col, Cell(target.value, source.style));
      if ColumnWidth(ws.Snapshot(), col) == 0.0 {
        ws.SetColumnWidth(col, DEFAULT_COLUMN_WIDTH);
      }
      col := col + 1;
    }
  }

  // ---------------------------------------------------------------------
  // aplicar_estilos_totales, aplicar_estilos_totales_motivos

  /** aplicar_estilos_totales on a cell's style. */
  function TotalsStyled(s: Style): Style {
    s.(fill := TotalsFill, border := ThinBox, alignment := CenteredWrapped)
  }

  /** aplicar_estilos_totales_motivos on a cell's style: no fill. */
  function ReasonTotalsStyled(s: Style): Style {
    s.(border := ThinBox, alignment := CenteredWrapped, font := BlackCalibri)
  }

  /** Either helper replaces what it sets whatever was there before, so
      applying it twice is applying it once, and two cells end alike exactly
      when they agreed on the attributes it leaves alone. */
  lemma TotalsStylesOverwrite(s: Style, t: Style)
    ensures TotalsStyled(TotalsStyled(s)) == TotalsStyled(s)
    ensures ReasonTotalsStyled(ReasonTotalsStyled(s)) == ReasonTotalsStyled(s)
    ensures TotalsStyled(s) == TotalsStyled(t) <==> s.font == t.font && s.numberFormat == t.numberFormat
    ensures ReasonTotalsStyled(s) == ReasonTotalsStyled(t) <==> s.fill == t.fill && s.numberFormat == t.numberFormat
  {
  }

  method ApplyTotalsStyle(ws: Worksheet, r: int, c: int)
    requires r >= 1
    modifies ws
    ensures ws.Snapshot() == WithStyle(old(ws.Snapshot()), r, c, TotalsStyled(old(ws.At(r, c)).style))
  {
    ws.SetStyle(r, c, TotalsStyled(ws.At(r, c).style));
  }

  method ApplyReasonTotalsStyle(ws: Worksheet, r: int, c: int)
    requires r >= 1
    modifies ws
    ensures ws.Snapshot() == WithStyle(old(ws.Snapshot()), r, c, ReasonTotalsStyled(old(ws.At(r, c)).style))
  {
    ws.SetStyle(r, c, ReasonTotalsStyled(ws.At(r, c).style));
  }

  /** The attribute assignments aplicar_estilos_totales makes, as edits. */
  function TotalsStyleEdits(c: int): seq<Edit> {
    [SetFill(c, TotalsFill), SetBorder(c, ThinBox), SetAlignment(c, CenteredWrapped)]
  }

  /** The attribute assignments aplicar_estilos_totales_motivos makes. */
  function ReasonTotalsStyleEdits(c: int): seq<Edit> {
    [SetBorder(c, ThinBox), SetAlignment(c, CenteredWrapped), SetFont(c, BlackCalibri)]
  }

  /** Styling a cell in one go is making the helper's assignments one by one. */
  lemma TotalsRestyleAsEdits(row: Row, c: int)
    ensures ApplyEdit(row, Restyle(c, TotalsStyled(CellIn(row, c).style))) == Apply(row, TotalsStyleEdits(c))
    ensures ApplyEdit(row, Restyle(c, ReasonTotalsStyled(CellIn(row, c).style))) == Apply(row, ReasonTotalsStyleEdits(c))
  {
    var es := TotalsStyleEdits(c);
    ApplyCons(row, es[0], es[1..]);
    ApplyCons(ApplyEdit(row, es[0]), es[1], es[2..]);
    ApplyOne(ApplyEdit(ApplyEdit(row, es[0]), es[1]), es[2]);
    var fs := ReasonTotalsStyleEdits(c);
    ApplyCons(row, fs[0], fs[1..]);
    ApplyCons(ApplyEdit(row, fs[0]), fs[1], fs[2..]);
    ApplyOne(ApplyEdit(ApplyEdit(row, fs[0]), fs[1]), fs[2]);
  }

  // ---------------------------------------------------------------------
  // aplicar_estilos_firma

  /** The border aplicar_estilos_firma gives column col: thick top and
      bottom everywhere, thick left on A, thick right on Q. */
  function FirmaBorder(col: int): Border {
    if col == 1 then Border(Thick, NoSide, Thick, Thick)
    else if col == LAST_COL then Border(NoSide, Thick, Thick, Thick)
    else Border(NoSide, NoSide, Thick, Thick)
  }

  function FirmaStyledFrom(g: Grid, fila: int, col: int): Grid
    requires fila >= 1
    decreases LAST_COL + 1 - col
  {
    if col > LAST_COL then g
    else FirmaStyledFrom(WithStyle(g, fila, col, Get(g, fila, col).style.(border := FirmaBorder(col))), fila, col + 1)
  }

  lemma {:induction false} FirmaStyledFromAt(g: Grid, fila: int, col: int, r: int, c: int)
    requires fila >= 1 && col >= 1
    ensures var g' := FirmaStyledFrom(g, fila, col);
      && Get(g', r, c) == (if r == fila && col <= c <= LAST_COL then Cell(Get(g, r, c).value, Get(g, r, c).style.(border := FirmaBorder(c))) else Get(g, r, c))
      && g'.merged == g.merged
    decreases LAST_COL + 1 - col
  {
    if col <= LAST_COL {
      var g1 := WithStyle(g, fila, col, Get(g, fila, col).style.(border := FirmaBorder(col)));
      FirmaStyledFromAt(g1, fila, col + 1, r, c);
      GetWithCell(g, fila, col, Cell(Get(g, fila, col).value, Get(g, fila, col).style.(border := FirmaBorder(col))), r, c);
    }
  }

  /** aplicar_estilos_firma(ws, fila): the row A..Q framed by one thick box
      (A has no right side, Q no left side, the cells between neither), every
      value and every other style attribute kept. */
  lemma FirmaFrame(g: Grid, fila: int, r: int, c: int)
    requires fila >= 1
    ensures var g' := FirmaStyledFrom(g, fila, 1);
      && Get(g', r, c).value == Get(g, r, c).value
      && (r != fila || c < 1 || c > LAST_COL ==> Get(g', r, c) == Get(g, r, c))
      && (r == fila && 1 <= c <= LAST_COL ==>
            var b := Get(g', r, c).style.border;
            && b.top == Thick && b.bottom == Thick
            && (b.left == Thick <==> c == 1) && (b.right == Thick <==> c == LAST_COL)
            && Get(g', r, c).style.(border := NoBorder) == Get(g, r, c).style.(border := NoBorder))
  {
    FirmaStyledFromAt(g, fila, 1, r, c);
  }

  method ApplySignatureStyles(ws: Worksheet, fila: int)
    requires fila >= 1
    modifies ws
    ensures ws.Snapshot() == FirmaStyledFrom(old(ws.Snapshot()), fila, 1)
  {
    ghost var g0 := ws.Snapshot();
    var col := 1;
    while col <= LAST_COL
      invariant 1 <= col <= LAST_COL + 1
      invariant FirmaStyledFrom(ws.Snapshot(), fila, col) == FirmaStyledFrom(g0, fila, 1)
      decreases LAST_COL + 1 - col
    {
      ws.SetStyle(fila, col, ws.At(fila, col).style.(border := FirmaBorder(col)));
      col := col + 1;
    }
  }

  // ---------------------------------------------------------------------
  // limpiar_celdas_combinadas

  /** (r, c) lies inside one of the ranges without being its anchor. */
  predicate Covered(ranges: set<Range>, r: int, c: int) {
    exists rng :: rng in ranges && NonAnchor(rng, r, c)
  }

  function UncoveredRow(row: Row, r: int, ranges: set<Range>): Row {
    map c | c in row && !Covered(ranges, r, c) :: row[c]
  }

  /** The grid once each range of done has been unmerged, in any order. */
  function Unmerged(g: Grid, done: set<Range>): Grid {
    g.(rows := seq(|g.rows|, i requires 0 <= i < |g.rows| => UncoveredRow(g.rows[i], i + 1, done)),
       merged := g.merged - done)
  }

  lemma UnmergedAt(g: Grid, done: set<Range>, r: int, c: int)
    ensures Get(Unmerged(g, done), r, c) == if Covered(done, r, c) then DefaultCell else Get(g, r, c)
    ensures MaxRow(Unmerged(g, done)) == MaxRow(g)
  {
  }

  lemma UnmergedNone(g: Grid)
    ensures Unmerged(g, {}) == g
  {
    forall i | 0 <= i < |g.rows| ensures UncoveredRow(g.rows[i], i + 1, {}) == g.rows[i] {
    }
  }

  /** Unmerging one more range is taking it into done. */
  lemma UnmergeStep(g: Grid, done: set<Range>, rng: Range)
    requires rng !in done
    ensures WithoutMerge(Unmerged(g, done), rng) == Unmerged(g, done + {rng})
  {
    var u := Unmerged(g, done);
    var a := WithoutMerge(u, rng).rows;
    var b := Unmerged(g, done + {rng}).rows;
    forall i | 0 <= i < |g.rows| ensures a[i] == b[i] {
      var r := i + 1;
      forall c ensures Covered(done + {rng}, r, c) <==> Covered(done, r, c) || NonAnchor(rng, r, c) {
        if NonAnchor(rng, r, c) {
          assert rng in done + {rng};
        }
        if Covered(done + {rng}, r, c) && !NonAnchor(rng, r, c) {
          var q :| q in done + {rng} && NonAnchor(q, r, c);
          assert q in done;
        }
      }
      assert a[i].Keys == b[i].Keys;
    }
    assert a == b;
  }

  /** limpiar_celdas_combinadas(ws): no range is left merged, and every
      cell a range covered other than its anchor is gone. */
  method ClearMerged(ws: Worksheet)
    modifies ws
    ensures ws.Snapshot() == Unmerged(old(ws.Snapshot()), old(ws.merged))
    ensures ws.merged == {}
  {
    ghost var g0 := ws.Snapshot();
    ghost var done: set<Range> := {};
    UnmergedNone(g0);
    if ws.merged != {} {
      while ws.merged != {}
        invariant done <= g0.merged && ws.merged == g0.merged - done
        invariant ws.Snapshot() == Unmerged(g0, done)
        decreases |ws.merged|
      {
        var rng :| rng in ws.merged;
        UnmergeStep(g0, done, rng);
        ws.UnmergeCells(rng);
        done := done + {rng};
      }
    }
    assert done == g0.merged;
  }
}
