// guardar_audiencias_excel on the active sheet of an open workbook
// (excel_utils.py:168-319): merged ranges cleared, the old data rows
// deleted, every record validated and parse-checked, the records written
// latest first, stale totals rows removed, then the totals row and the
// per-reason totals row. The checks of the file name and of the file come
// before this and live in the Archive module.

module Save {
  import opened Schema
  import opened Cells
  import opened FechaHora
  import opened Hearings
  import opened Ordering
  import opened Styles
  import opened Ledger
  import opened Totals

  // ---------------------------------------------------------------------
  // The validation loop (excel_utils.py:177-179)

  /** What the loop makes of one record: validar_campos_audiencia, then
      parse_fecha_hora on the record as validation leaves it. */
  function Verdict(d: Record): Result<Record> {
    match Validated(d)
    case Err(e) => Err(e)
    case Ok(v) => if ParseFechaHora(v).Err? then Err(ParseFechaHora(v).error) else Ok(v)
  }

  predicate Accepted(d: Record) {
    Verdict(d).Ok?
  }

  /** The error the loop raises for a record that is not accepted. */
  function RecordError(d: Record): Error
    requires !Accepted(d)
  {
    Verdict(d).error
  }

  /** A loop over the records that stops at the first failing one: every
      result, or the first error. */
  function CheckAll(check: Record -> Result<Record>, datos: seq<Record>): (r: Result<seq<Record>>)
    ensures r.Ok? ==> |r.value| == |datos|
  {
    if datos == [] then Ok([])
    else
      var init, d := datos[..|datos| - 1], datos[|datos| - 1];
      match CheckAll(check, init)
      case Err(e) => Err(e)
      case Ok(vs) => if check(d).Ok? then Ok(vs + [check(d).value]) else Err(check(d).error)
  }

  /** One more record that passes extends the checked prefix by its
      checked value. */
  lemma CheckAllSnoc(check: Record -> Result<Record>, datos: seq<Record>, i: int, vs: seq<Record>)
    requires 0 <= i < |datos| && CheckAll(check, datos[..i]) == Ok(vs) && check(datos[i]).Ok?
    ensures CheckAll(check, datos[..i + 1]) == Ok(vs + [check(datos[i]).value])
  {
    assert datos[..i + 1][..i] == datos[..i];
  }

  /** A record that fails after a prefix that passed stops the loop with
      its error. */
  lemma CheckAllStop(check: Record -> Result<Record>, datos: seq<Record>, i: int, vs: seq<Record>)
    requires 0 <= i < |datos| && CheckAll(check, datos[..i]) == Ok(vs) && check(datos[i]).Err?
    ensures CheckAll(check, datos) == Err(check(datos[i]).error)
  {
    assert datos[..i + 1][..i] == datos[..i];
    CheckAllPrefixError(check, datos, i + 1);
  }

  lemma {:induction false} CheckAllValues(check: Record -> Result<Record>, datos: seq<Record>)
    ensures CheckAll(check, datos).Ok? ==> forall i :: 0 <= i < |datos| ==>
      check(datos[i]).Ok? && CheckAll(check, datos).value[i] == check(datos[i]).value
  {
    if datos != [] && CheckAll(check, datos).Ok? {
      var init := datos[..|datos| - 1];
      CheckAllValues(check, init);
      assert forall i :: 0 <= i < |init| ==> datos[i] == init[i];
    }
  }

  /** Once a prefix fails, the whole list fails with the same error. */
  lemma {:induction false} CheckAllPrefixError(check: Record -> Result<Record>, datos: seq<Record>, i: nat)
    requires i <= |datos| && CheckAll(check, datos[..i]).Err?
    ensures CheckAll(check, datos) == CheckAll(check, datos[..i])
    decreases |datos| - i
  {
    if i < |datos| {
      assert datos[..i + 1][..i] == datos[..i];
      CheckAllPrefixError(check, datos, i + 1);
    } else {
      assert datos[..i] == datos;
    }
  }

  /** The loop gets through exactly when every record passes. */
  lemma {:induction false} CheckAllAccepts(check: Record -> Result<Record>, datos: seq<Record>)
    ensures CheckAll(check, datos).Ok? <==> forall i :: 0 <= i < |datos| ==> check(datos[i]).Ok?
  {
    CheckAllValues(check, datos);
    if datos != [] && forall i :: 0 <= i < |datos| ==> check(datos[i]).Ok? {
      var init := datos[..|datos| - 1];
      CheckAllAccepts(check, init);
    }
  }

  /** The error raised is that of the first record that fails. */
  lemma CheckAllFirstError(check: Record -> Result<Record>, datos: seq<Record>, i: nat)
    requires i < |datos| && check(datos[i]).Err?
    requires forall j :: 0 <= j < i ==> check(datos[j]).Ok?
    ensures CheckAll(check, datos) == Err(check(datos[i]).error)
  {
    var pre := datos[..i];
    CheckAllAccepts(check, pre);
    assert datos[..i + 1][..i] == pre;
    CheckAllPrefixError(check, datos, i + 1);
  }

  /** The validation loop of guardar_audiencias_excel. */
  function Checked(datos: seq<Record>): (r: Result<seq<Record>>)
    ensures r.Ok? ==> |r.value| == |datos|
    ensures r.Ok? ==> forall i :: 0 <= i < |datos| ==> Verdict(datos[i]).Ok? && r.value[i] == Verdict(datos[i]).value
  {
    CheckAllValues(Verdict, datos);
    CheckAll(Verdict, datos)
  }

  /** Each record the loop hands back is the record as validation leaves
      it, and its date and time parse. */
  lemma CheckedValues(datos: seq<Record>)
    ensures Checked(datos).Ok? ==> forall i :: 0 <= i < |datos| ==>
      Validated(datos[i]).Ok? && Checked(datos).value[i] == Validated(datos[i]).value
      && ParseFechaHora(Checked(datos).value[i]).Ok?
  {
    VerdictsOk(datos);
  }

  /** Every record that gets through has a date and time that parse. */
  lemma CheckedParses(datos: seq<Record>)
    ensures Checked(datos).Ok? ==> forall i :: 0 <= i < |Checked(datos).value| ==> ParseFechaHora(Checked(datos).value[i]).Ok?
  {
    VerdictsOk(datos);
  }

  lemma VerdictOk(d: Record)
    ensures Verdict(d).Ok? ==> Validated(d).Ok? && Verdict(d).value == Validated(d).value && ParseFechaHora(Verdict(d).value).Ok?
  {
  }

  lemma VerdictsOk(datos: seq<Record>)
    ensures forall i :: 0 <= i < |datos| && Verdict(datos[i]).Ok? ==>
      Validated(datos[i]).Ok? && Verdict(datos[i]).value == Validated(datos[i]).value && ParseFechaHora(Verdict(datos[i]).value).Ok?
  {
    forall i | 0 <= i < |datos| {
      VerdictOk(datos[i]);
    }
  }

  /** It gets through exactly when every record is accepted, and then holds
      each record as validation leaves it. */
  lemma CheckedAccepts(datos: seq<Record>)
    ensures Checked(datos).Ok? <==> forall i :: 0 <= i < |datos| ==> Accepted(datos[i])
  {
    CheckAllAccepts(Verdict, datos);
  }

  /** Otherwise it raises the error of the first record not accepted. */
  lemma CheckedFirstError(datos: seq<Record>, i: nat)
    requires i < |datos| && !Accepted(datos[i])
    requires forall j :: 0 <= j < i ==> Accepted(datos[j])
    ensures Checked(datos) == Err(RecordError(datos[i]))
  {
    CheckAllFirstError(Verdict, datos, i);
  }

  /** One pass of the loop: validar_campos_audiencia, then
      parse_fecha_hora on the record it leaves. */
  method CheckRecord(d: Record) returns (r: Result<Record>)
    ensures r == Verdict(d)
  {
    var v := Validated(d);
    if v.Err? {
      return Err(v.error);
    }
    var parsed := ParseFechaHora(v.value);
    if parsed.Err? {
      return Err(parsed.error);
    }
    r := Ok(v.value);
  }

  method CheckRecords(datos: seq<Record>) returns (r: Result<seq<Record>>)
    ensures r == Checked(datos)
  {
    var valid: seq<Record> := [];
    var i := 0;
    while i < |datos|
      invariant 0 <= i <= |datos|
      invariant CheckAll(Verdict, datos[..i]) == Ok(valid)
    {
      var v := CheckRecord(datos[i]);
      if v.Err? {
        CheckAllStop(Verdict, datos, i, valid);
        return Err(v.error);
      }
      CheckAllSnoc(Verdict, datos, i, valid);
      valid := valid + [v.value];
      i := i + 1;
    }
    assert datos[..i] == datos;
    r := Ok(valid);
  }

  // ---------------------------------------------------------------------
  // The save

  /** Each record's parse_fecha_hora, the sort key. */
  function Keys(valid: seq<Record>): (keys: seq<DateTime>)
    requires forall i :: 0 <= i < |valid| ==> ParseFechaHora(valid[i]).Ok?
    ensures |keys| == |valid|
  {
    seq(|valid|, i requires 0 <= i < |valid| => ParseFechaHora(valid[i]).value)
  }

  function Sorted(valid: seq<Record>): (s: seq<Record>)
    requires forall i :: 0 <= i < |valid| ==> ParseFechaHora(valid[i]).Ok?
    ensures |s| == |valid|
  {
    SortedByDate(valid, Keys(valid))
  }

  /** The sheet once merged ranges are cleared and the old data rows
      deleted. */
  function Prepared(g: Grid): Grid {
    Cleared(Unmerged(g, g.merged))
  }

  /** After the data rows: stale totals removed, the totals row and the
      per-reason totals row, counted on the sheet as it then is. */
  function Finished(s3: Grid, sorted: seq<Record>): Grid {
    var n := |sorted|;
    var s4 := RowsDeleted(s3, FILA_ENCABEZADO + n + 1, StaleRun(s3, FILA_ENCABEZADO + n + 1));
    var s5 := TotalsWritten(s4, FILA_ENCABEZADO + n + 1, CountIf(HeldSi, sorted), CountIf(HeldNo, sorted));
    ReasonTotalsWritten(s5, FILA_ENCABEZADO + n + 2, ReasonCounts(s5, FILA_ENCABEZADO + 1, FILA_ENCABEZADO + n + 1))
  }

  /** res is what saving datos onto sheet g yields: the error raised, or
      the sheet as it is handed to wb.save. */
  ghost predicate Saves(g: Grid, datos: seq<Record>, res: Result<Grid>) {
    CheckedParses(datos);
    match Checked(datos)
    case Err(e) => res == Err(e)
    case Ok(valid) =>
      var n := |valid|;
      if FILA_ENCABEZADO + n + 1 > MAX_FILA_PERMITIDA then res == Err(ValueError(TOO_MANY_MSG))
      else if FILA_ENCABEZADO + n + 2 >= MAX_FILA_PERMITIDA then res == Err(ValueError(NO_ROOM_MSG))
      else exists s3 :: RowsWritten(Prepared(g), Sorted(valid), n, s3) && res == Ok(Finished(s3, Sorted(valid)))
  }

  method SaveToSheet(ws: Worksheet, datos: seq<Record>) returns (o: Outcome)
    modifies ws
    ensures o.Fail? ==> Saves(old(ws.Snapshot()), datos, Err(o.error))
    ensures o.Pass? ==> Saves(old(ws.Snapshot()), datos, Ok(ws.Snapshot()))
  {
    ghost var g0 := ws.Snapshot();
    ClearMerged(ws);
    ClearDataRows(ws);
    assert ws.Snapshot() == Prepared(g0);
    var checked := CheckRecords(datos);
    CheckedParses(datos);
    if checked.Err? {
      return Fail(checked.error);
    }
    var valid := checked.value;
    var sorted := Sorted(valid);
    WriteRows(ws, sorted);
    ghost var s3 := ws.Snapshot();
    var n := |sorted|;
    var filaTotales := FILA_ENCABEZADO + n + 1;
    RemoveStaleTotals(ws, filaTotales);
    var totalSi := CountIf(HeldSi, sorted);
    var totalNo := CountIf(HeldNo, sorted);
    if filaTotales > MAX_FILA_PERMITIDA {
      return Fail(ValueError(TOO_MANY_MSG));
    }
    WriteTotalsRow(ws, filaTotales, totalSi, totalNo);
    var filaMotivos := filaTotales + 1;
    if filaMotivos >= MAX_FILA_PERMITIDA {
      return Fail(ValueError(NO_ROOM_MSG));
    }
    var counts := CountReasons(ws, filaTotales);
    WriteReasonTotals(ws, filaMotivos, counts);
    assert RowsWritten(Prepared(g0), Sorted(valid), n, s3) && ws.Snapshot() == Finished(s3, Sorted(valid));
    o := Pass;
  }

  /** A save succeeds exactly when every record is accepted and there are
      at most 287 of them; 288 and 289 leave no room for the per-reason
      totals, 290 or more none for the totals. */
  lemma SavesOutcome(g: Grid, datos: seq<Record>, res: Result<Grid>)
    requires Saves(g, datos, res)
    ensures res.Ok? <==> (forall i :: 0 <= i < |datos| ==> Accepted(datos[i])) && |datos| <= 287
    ensures (exists i :: 0 <= i < |datos| && !Accepted(datos[i])) ==> res == Err(Checked(datos).error)
    ensures Checked(datos).Ok? && |datos| >= 290 ==> res == Err(ValueError(TOO_MANY_MSG))
    ensures Checked(datos).Ok? && 288 <= |datos| < 290 ==> res == Err(ValueError(NO_ROOM_MSG))
  {
    CheckedAccepts(datos);
  }

  // ---------------------------------------------------------------------
  // The saved ledger, on a sheet that ended before row 300

  /** A record counts for reason k: it was not held and its k-th reason is
      truthy. */
  function ReasonFilter(k: int): Record -> bool {
    d => HeldNo(d) && Truthy(ReasonValue(d, k))
  }

  /** The reference layout of the saved sheet: rows 1-10 of the sheet with
      its merges cleared; then one row per record in the order given, its
      values over unstyled cells with thin borders on I..P; then the totals
      row, labelled counts in G and H; then the per-reason totals row,
      labelled counts in I..P; nothing below. */
  function LedgerCell(u: Grid, recs: seq<Record>, r: int, c: int): Cell {
    var n := |recs|;
    if r <= FILA_ENCABEZADO then Get(u, r, c)
    else if r <= FILA_ENCABEZADO + n then
      if 1 <= c <= LAST_COL
      then Cell(RowValue(r - FILA_ENCABEZADO, recs[r - FILA_ENCABEZADO - 1], c), Bordered(DefaultStyle, c))
      else DefaultCell
    else if r == FILA_ENCABEZADO + n + 1 then
      if c == COL_REALIZADO_SI then Cell(Text(SiText(CountIf(HeldSi, recs))), TotalsStyled(DefaultStyle))
      else if c == COL_REALIZADO_NO then Cell(Text(NoText(CountIf(HeldNo, recs))), TotalsStyled(DefaultStyle))
      else DefaultCell
    else if r == FILA_ENCABEZADO + n + 2 && COL_MOTIVOS_INICIO <= c <= COL_MOTIVOS_FIN then
      var k := c - COL_MOTIVOS_INICIO;
      Cell(Text(ReasonText(k, CountIf(ReasonFilter(k), recs))), ReasonTotalsStyled(DefaultStyle))
    else DefaultCell
  }

  /** Clearing leaves the header rows and nothing below them. */
  lemma PreparedAt(g: Grid, r: int, c: int)
    requires MaxRow(g) < MAX_FILA_PERMITIDA
    ensures Get(Prepared(g), r, c) == if r <= FILA_ENCABEZADO then Get(Unmerged(g, g.merged), r, c) else DefaultCell
    ensures MaxRow(Prepared(g)) <= FILA_ENCABEZADO && Prepared(g).merged == {}
  {
    UnmergedAt(g, g.merged, r, c);
    ClearedAt(Unmerged(g, g.merged), r, c);
  }

  /** Counting on the sheet is counting the records whose rows it holds. */
  lemma {:induction false} ReasonCountMatches(h: Grid, recs: seq<Record>, m: nat, k: int, col: int)
    requires m <= |recs| && col == COL_MOTIVOS_INICIO + k
    requires forall r :: FILA_ENCABEZADO < r <= FILA_ENCABEZADO + m ==>
      ValueAt(h, r, COL_REALIZADO_NO) == RowValue(r - FILA_ENCABEZADO, recs[r - FILA_ENCABEZADO - 1], COL_REALIZADO_NO)
    requires forall r :: FILA_ENCABEZADO < r <= FILA_ENCABEZADO + m ==>
      ValueAt(h, r, col) == ReasonValue(recs[r - FILA_ENCABEZADO - 1], k)
    ensures ReasonCount(h, FILA_ENCABEZADO + 1, FILA_ENCABEZADO + 1 + m, k) == CountIf(ReasonFilter(k), recs[..m])
  {
    if m > 0 {
      ReasonCountMatches(h, recs, m - 1, k, col);
      assert recs[..m][..m - 1] == recs[..m - 1];
    }
  }

  /** Every record is held or not held, never both, so the two totals add
      up to the number of records. */
  lemma {:induction false} TotalsAddUp(recs: seq<Record>)
    requires forall i :: 0 <= i < |recs| ==> Held(recs[i])
    ensures CountIf(HeldSi, recs) + CountIf(HeldNo, recs) == |recs|
  {
    if recs != [] {
      TotalsAddUp(recs[..|recs| - 1]);
    }
  }

  /** On a cleared sheet, the writing loop leaves the header rows, each
      record's values on its row over unstyled cells, and nothing else. */
  lemma WrittenCleanAt(g: Grid, sorted: seq<Record>, s3: Grid, r: int, c: int)
    requires MaxRow(g) < MAX_FILA_PERMITIDA
    requires CellsAfter(Prepared(g), sorted, |sorted|, s3)
    ensures r > FILA_ENCABEZADO + |sorted| ==> Get(s3, r, c) == DefaultCell
    ensures r <= FILA_ENCABEZADO + |sorted| ==> Get(s3, r, c) == LedgerCell(Unmerged(g, g.merged), sorted, r, c)
  {
    assert Get(s3, r, c) == CellAfter(Prepared(g), sorted, |sorted|, r, c);
    PreparedAt(g, r, c);
    PreparedAt(g, FILA_ENCABEZADO + 1, c);
  }

  /** A data row of the written sheet holds its record's values. */
  lemma WrittenDataValue(g: Grid, sorted: seq<Record>, s3: Grid, r: int, c: int)
    requires MaxRow(g) < MAX_FILA_PERMITIDA
    requires CellsAfter(Prepared(g), sorted, |sorted|, s3)
    requires FILA_ENCABEZADO < r <= FILA_ENCABEZADO + |sorted| && 1 <= c <= LAST_COL
    ensures ValueAt(s3, r, c) == RowValue(r - FILA_ENCABEZADO, sorted[r - FILA_ENCABEZADO - 1], c)
  {
    assert Get(s3, r, c) == CellAfter(Prepared(g), sorted, |sorted|, r, c);
    PreparedAt(g, r, c);
  }

  /** Nothing stands below the data rows, so no stale totals row is
      removed. */
  lemma CleanStale(g: Grid, sorted: seq<Record>, s3: Grid)
    requires MaxRow(g) < MAX_FILA_PERMITIDA
    requires CellsAfter(Prepared(g), sorted, |sorted|, s3)
    ensures StaleRun(s3, FILA_ENCABEZADO + |sorted| + 1) == 0
  {
    var fila := FILA_ENCABEZADO + |sorted| + 1;
    WrittenCleanAt(g, sorted, s3, fila, COL_REALIZADO_SI);
  }

  /** The k-th per-reason count taken on the sheet is the number of records
      not held whose k-th reason is set. */
  lemma CleanReasonCount(g: Grid, sorted: seq<Record>, s3: Grid, si: nat, no: nat, k: int)
    requires MaxRow(g) < MAX_FILA_PERMITIDA && 0 <= k < NUM_MOTIVOS
    requires CellsAfter(Prepared(g), sorted, |sorted|, s3)
    ensures var fila := FILA_ENCABEZADO + |sorted| + 1;
      ReasonCount(TotalsWritten(s3, fila, si, no), FILA_ENCABEZADO + 1, fila, k) == CountIf(ReasonFilter(k), sorted)
  {
    var n := |sorted|;
    var fila := FILA_ENCABEZADO + n + 1;
    var s5 := TotalsWritten(s3, fila, si, no);
    var col := COL_MOTIVOS_INICIO + k;
    forall row | FILA_ENCABEZADO < row <= FILA_ENCABEZADO + n
      ensures ValueAt(s5, row, COL_REALIZADO_NO) == RowValue(row - FILA_ENCABEZADO, sorted[row - FILA_ENCABEZADO - 1], COL_REALIZADO_NO)
      ensures ValueAt(s5, row, col) == ReasonValue(sorted[row - FILA_ENCABEZADO - 1], k)
    {
      CleanRowCounted(g, sorted, s3, si, no, k, row);
    }
    ReasonCountMatches(s5, sorted, n, k, col);
    assert sorted[..n] == sorted;
  }

  lemma CleanRowCounted(g: Grid, sorted: seq<Record>, s3: Grid, si: nat, no: nat, k: int, row: int)
    requires MaxRow(g) < MAX_FILA_PERMITIDA && 0 <= k < NUM_MOTIVOS
    requires CellsAfter(Prepared(g), sorted, |sorted|, s3)
    requires FILA_ENCABEZADO < row <= FILA_ENCABEZADO + |sorted|
    ensures var s5 := TotalsWritten(s3, FILA_ENCABEZADO + |sorted| + 1, si, no);
      && ValueAt(s5, row, COL_REALIZADO_NO) == RowValue(row - FILA_ENCABEZADO, sorted[row - FILA_ENCABEZADO - 1], COL_REALIZADO_NO)
      && ValueAt(s5, row, COL_MOTIVOS_INICIO + k) == ReasonValue(sorted[row - FILA_ENCABEZADO - 1], k)
  {
    var fila, col := FILA_ENCABEZADO + |sorted| + 1, COL_MOTIVOS_INICIO + k;
    TotalsWrittenAt(s3, fila, si, no, row, COL_REALIZADO_NO);
    TotalsWrittenAt(s3, fila, si, no, row, col);
    WrittenDataValue(g, sorted, s3, row, COL_REALIZADO_NO);
    WrittenDataValue(g, sorted, s3, row, col);
  }

  /** The sheet after the totals row, before the per-reason totals. */
  function TotalsStage(s3: Grid, sorted: seq<Record>): Grid {
    TotalsWritten(s3, FILA_ENCABEZADO + |sorted| + 1, CountIf(HeldSi, sorted), CountIf(HeldNo, sorted))
  }

  /** On a clean sheet no row is removed, so the save ends with the two
      totals rows written over the data rows. */
  lemma FinishedClean(g: Grid, sorted: seq<Record>, s3: Grid)
    requires MaxRow(g) < MAX_FILA_PERMITIDA
    requires CellsAfter(Prepared(g), sorted, |sorted|, s3)
    ensures var s5 := TotalsStage(s3, sorted);
      Finished(s3, sorted) == ReasonTotalsWritten(s5, FILA_ENCABEZADO + |sorted| + 2, ReasonCounts(s5, FILA_ENCABEZADO + 1, FILA_ENCABEZADO + |sorted| + 1))
  {
    CleanStale(g, sorted, s3);
    RowsDeletedNone(s3, FILA_ENCABEZADO + |sorted| + 1);
  }

  /** The cells of the totals row and everything above it. */
  lemma TotalsStageAt(g: Grid, sorted: seq<Record>, s3: Grid, r: int, c: int)
    requires MaxRow(g) < MAX_FILA_PERMITIDA
    requires CellsAfter(Prepared(g), sorted, |sorted|, s3)
    requires r == FILA_ENCABEZADO + |sorted| + 2 ==> !(COL_MOTIVOS_INICIO <= c <= COL_MOTIVOS_FIN)
    ensures Get(TotalsStage(s3, sorted), r, c) == LedgerCell(Unmerged(g, g.merged), sorted, r, c)
  {
    var fila := FILA_ENCABEZADO + |sorted| + 1;
    TotalsWrittenAt(s3, fila, CountIf(HeldSi, sorted), CountIf(HeldNo, sorted), r, c);
    WrittenCleanAt(g, sorted, s3, r, c);
  }

  /** The cells of the per-reason totals row. */
  lemma ReasonRowAt(g: Grid, sorted: seq<Record>, s3: Grid, c: int)
    requires MaxRow(g) < MAX_FILA_PERMITIDA && COL_MOTIVOS_INICIO <= c <= COL_MOTIVOS_FIN
    requires CellsAfter(Prepared(g), sorted, |sorted|, s3)
    ensures var fila := FILA_ENCABEZADO + |sorted| + 2; var s5 := TotalsStage(s3, sorted);
      Get(ReasonTotalsWritten(s5, fila, ReasonCounts(s5, FILA_ENCABEZADO + 1, fila - 1)), fila, c)
      == LedgerCell(Unmerged(g, g.merged), sorted, fila, c)
  {
    var fila := FILA_ENCABEZADO + |sorted| + 2;
    var k := c - COL_MOTIVOS_INICIO;
    var si, no := CountIf(HeldSi, sorted), CountIf(HeldNo, sorted);
    var s5 := TotalsStage(s3, sorted);
    var counts := ReasonCounts(s5, FILA_ENCABEZADO + 1, fila - 1);
    WrittenCleanAt(g, sorted, s3, fila, c);
    TotalsWrittenAt(s3, fila - 1, si, no, fila, c);
    assert Get(s5, fila, c) == DefaultCell;
    CleanReasonCount(g, sorted, s3, si, no, k);
    assert counts[k] == CountIf(ReasonFilter(k), sorted);
    ReasonTotalsWrittenAt(s5, fila, counts, fila, c);
  }

  /** The whole of the sheet a clean save leaves, cell by cell. */
  lemma FinishedAt(g: Grid, sorted: seq<Record>, s3: Grid, r: int, c: int)
    requires MaxRow(g) < MAX_FILA_PERMITIDA && FILA_ENCABEZADO + |sorted| + 2 < MAX_FILA_PERMITIDA
    requires CellsAfter(Prepared(g), sorted, |sorted|, s3)
    ensures Get(Finished(s3, sorted), r, c) == LedgerCell(Unmerged(g, g.merged), sorted, r, c)
  {
    var fila := FILA_ENCABEZADO + |sorted| + 2;
    var s5 := TotalsStage(s3, sorted);
    FinishedClean(g, sorted, s3);
    if r == fila && COL_MOTIVOS_INICIO <= c <= COL_MOTIVOS_FIN {
      ReasonRowAt(g, sorted, s3, c);
    } else {
      ReasonTotalsWrittenAt(s5, fila, ReasonCounts(s5, FILA_ENCABEZADO + 1, fila - 1), r, c);
      TotalsStageAt(g, sorted, s3, r, c);
    }
  }

  /** Every record validation hands back was held or not held and has a
      truthy radicado. */
  lemma CheckedHeld(datos: seq<Record>)
    ensures Checked(datos).Ok? ==> forall i :: 0 <= i < |Checked(datos).value| ==>
      Held(Checked(datos).value[i]) && HasRadicado(Checked(datos).value[i])
  {
    CheckedValues(datos);
    if Checked(datos).Ok? {
      forall i | 0 <= i < |Checked(datos).value|
        ensures Held(Checked(datos).value[i]) && HasRadicado(Checked(datos).value[i])
      {
        ValidatedNormalises(datos[i]);
        ValidatedRadicado(datos[i]);
      }
    }
  }

  predicate HasRadicado(d: Record) {
    Truthy(Field(d, K_RADICADO))
  }

  /** Validation leaves radicado as it was, so a record it accepts has a
      truthy one. */
  lemma ValidatedRadicado(d: Record)
    requires Validated(d).Ok?
    ensures Truthy(Field(Validated(d).value, K_RADICADO))
  {
    ValidatedAccepts(d);
    assert Truthy(Field(d, OBLIGATORIOS[0]));
    ValidatedNormalises(d);
  }

  /** The same holds of the sorted list. */
  lemma SortedHeld(datos: seq<Record>)
    requires Checked(datos).Ok? && forall i :: 0 <= i < |Checked(datos).value| ==> ParseFechaHora(Checked(datos).value[i]).Ok?
    ensures var sorted := Sorted(Checked(datos).value);
      forall k :: 0 <= k < |sorted| ==> Held(sorted[k]) && HasRadicado(sorted[k])
  {
    CheckedHeld(datos);
    var valid := Checked(datos).value;
    SortedAll(valid, d => Held(d) && HasRadicado(d));
  }

  /** Sorting brings in no record that was not there: whatever holds of
      every record holds of every record of the sorted list. */
  lemma SortedAll(valid: seq<Record>, P: Record -> bool)
    requires forall i :: 0 <= i < |valid| ==> ParseFechaHora(valid[i]).Ok?
    requires forall i :: 0 <= i < |valid| ==> P(valid[i])
    ensures forall k :: 0 <= k < |Sorted(valid)| ==> P(Sorted(valid)[k])
  {
    SortedByDateSpec(valid, Keys(valid));
  }

  /** Either marker. */
  predicate Held(d: Record) {
    HeldSi(d) || HeldNo(d)
  }

  /** On a clean sheet the saved ledger ends with the per-reason totals
      row, two rows below the last record, and holds no merged range. */
  lemma FinishedShape(g: Grid, sorted: seq<Record>, s3: Grid)
    requires MaxRow(g) < MAX_FILA_PERMITIDA
    requires RowsWritten(Prepared(g), sorted, |sorted|, s3)
    ensures MaxRow(Finished(s3, sorted)) == FILA_ENCABEZADO + |sorted| + 2
    ensures Finished(s3, sorted).merged == {}
  {
    var fila := FILA_ENCABEZADO + |sorted| + 2;
    var s5 := TotalsStage(s3, sorted);
    FinishedClean(g, sorted, s3);
    PreparedAt(g, 1, 1);
    TotalsWrittenAt(s3, fila - 1, CountIf(HeldSi, sorted), CountIf(HeldNo, sorted), 1, 1);
    ReasonTotalsWrittenAt(s5, fila, ReasonCounts(s5, FILA_ENCABEZADO + 1, fila - 1), 1, 1);
  }

  /** Sheet h is the reference layout of recs over header rows u. */
  ghost predicate LaidOut(h: Grid, u: Grid, recs: seq<Record>) {
    forall r, c {:trigger LedgerCell(u, recs, r, c)} :: Get(h, r, c) == LedgerCell(u, recs, r, c)
  }

  /** The sheet a save leaves on a sheet that ended before row 300 is the
      reference layout of the sorted records over the header rows with
      their merges cleared; it ends two rows below the last record and
      has no merged range left. */
  lemma SavedLayout(g: Grid, datos: seq<Record>, h: Grid)
    requires Saves(g, datos, Ok(h)) && MaxRow(g) < MAX_FILA_PERMITIDA
    ensures Checked(datos).Ok? && forall i :: 0 <= i < |Checked(datos).value| ==> ParseFechaHora(Checked(datos).value[i]).Ok?
    ensures LaidOut(h, Unmerged(g, g.merged), Sorted(Checked(datos).value))
    ensures MaxRow(h) == FILA_ENCABEZADO + |datos| + 2 && h.merged == {}
  {
    CheckedParses(datos);
    var valid := Checked(datos).value;
    var s3 :| RowsWritten(Prepared(g), Sorted(valid), |valid|, s3) && h == Finished(s3, Sorted(valid));
    forall r, c ensures Get(h, r, c) == LedgerCell(Unmerged(g, g.merged), Sorted(valid), r, c) {
      FinishedAt(g, Sorted(valid), s3, r, c);
    }
    FinishedShape(g, Sorted(valid), s3);
  }

  /** Row 10 + i shows record d numbered i: every cell of A..Q holds its
      value with the bordered style, G holds "X" exactly when d was held and
      H exactly when it was not, never both, and I..P hold d's first eight
      reasons. */
  ghost predicate RowShows(h: Grid, i: int, d: Record) {
    var fila := FILA_ENCABEZADO + i;
    && (forall c :: 1 <= c <= LAST_COL ==> Get(h, fila, c) == Cell(RowValue(i, d, c), Bordered(DefaultStyle, c)))
    && (ValueAt(h, fila, COL_REALIZADO_SI) == Text(X) <==> HeldSi(d))
    && (ValueAt(h, fila, COL_REALIZADO_NO) == Text(X) <==> HeldNo(d))
    && (ValueAt(h, fila, COL_REALIZADO_SI) == Text(X) <==> ValueAt(h, fila, COL_REALIZADO_NO) == Text(""))
    && (forall k :: 0 <= k < NUM_MOTIVOS ==> ValueAt(h, fila, COL_MOTIVOS_INICIO + k) == ReasonValue(d, k))
  }

  lemma LaidOutRow(h: Grid, u: Grid, recs: seq<Record>, i: int)
    requires LaidOut(h, u, recs) && 1 <= i <= |recs|
    requires HeldSi(recs[i - 1]) || HeldNo(recs[i - 1])
    ensures RowShows(h, i, recs[i - 1])
  {
    var d, fila := recs[i - 1], FILA_ENCABEZADO + i;
    RowMarkers(i, d);
    assert Get(h, fila, COL_REALIZADO_SI) == LedgerCell(u, recs, fila, COL_REALIZADO_SI);
    assert Get(h, fila, COL_REALIZADO_NO) == LedgerCell(u, recs, fila, COL_REALIZADO_NO);
    forall k | 0 <= k < NUM_MOTIVOS ensures ValueAt(h, fila, COL_MOTIVOS_INICIO + k) == ReasonValue(d, k) {
      assert Get(h, fila, COL_MOTIVOS_INICIO + k) == LedgerCell(u, recs, fila, COL_MOTIVOS_INICIO + k);
    }
    forall c | 1 <= c <= LAST_COL ensures Get(h, fila, c) == Cell(RowValue(i, d, c), Bordered(DefaultStyle, c)) {
      assert Get(h, fila, c) == LedgerCell(u, recs, fila, c);
    }
  }

  /** On the reference layout of the sorted records, row 10 + i shows the
      i-th of them. */
  lemma LaidOutSortedRow(u: Grid, datos: seq<Record>, h: Grid, i: int)
    requires Checked(datos).Ok? && forall j :: 0 <= j < |Checked(datos).value| ==> ParseFechaHora(Checked(datos).value[j]).Ok?
    requires LaidOut(h, u, Sorted(Checked(datos).value))
    requires 1 <= i <= |datos|
    ensures RowShows(h, i, Sorted(Checked(datos).value)[i - 1])
  {
    CheckedHeld(datos);
    var valid := Checked(datos).value;
    SortedAll(valid, Held);
    LaidOutRow(h, u, Sorted(valid), i);
  }

  /** Row 10 + i of the saved sheet holds the i-th record of the sorted
      list, numbered i, with an "X" in G when it was held and in H when it
      was not, never in both, and its first eight reasons in I..P. */
  lemma SavedRow(g: Grid, datos: seq<Record>, h: Grid, i: int)
    requires Saves(g, datos, Ok(h)) && MaxRow(g) < MAX_FILA_PERMITIDA
    requires 1 <= i <= |datos|
    ensures Checked(datos).Ok? && forall j :: 0 <= j < |Checked(datos).value| ==> ParseFechaHora(Checked(datos).value[j]).Ok?
    ensures RowShows(h, i, Sorted(Checked(datos).value)[i - 1])
  {
    SavedLayout(g, datos, h);
    LaidOutSortedRow(Unmerged(g, g.merged), datos, h, i);
  }

  lemma LaidOutTotals(h: Grid, u: Grid, recs: seq<Record>)
    requires LaidOut(h, u, recs)
    ensures var fila := FILA_ENCABEZADO + |recs| + 1;
      && Get(h, fila, COL_REALIZADO_SI) == Cell(Text(SiText(CountIf(HeldSi, recs))), TotalsStyled(DefaultStyle))
      && Get(h, fila, COL_REALIZADO_NO) == Cell(Text(NoText(CountIf(HeldNo, recs))), TotalsStyled(DefaultStyle))
  {
    var fila := FILA_ENCABEZADO + |recs| + 1;
    assert Get(h, fila, COL_REALIZADO_SI) == LedgerCell(u, recs, fila, COL_REALIZADO_SI);
    assert Get(h, fila, COL_REALIZADO_NO) == LedgerCell(u, recs, fila, COL_REALIZADO_NO);
  }

  /** Counting over the sorted list is counting over the input. */
  lemma SortedCount(valid: seq<Record>, P: Record -> bool)
    requires forall i :: 0 <= i < |valid| ==> ParseFechaHora(valid[i]).Ok?
    ensures CountIf(P, Sorted(valid)) == CountIf(P, valid)
  {
    CountSortedByDate(P, valid, Keys(valid));
  }

  /** The totals row, right below the records, counts the held records in
      G and the others in H, and the two counts add up to the number of
      records. */
  lemma SavedTotals(g: Grid, datos: seq<Record>, h: Grid)
    requires Saves(g, datos, Ok(h)) && MaxRow(g) < MAX_FILA_PERMITIDA
    ensures Checked(datos).Ok?
    ensures var valid, fila := Checked(datos).value, FILA_ENCABEZADO + |datos| + 1;
      && Get(h, fila, COL_REALIZADO_SI) == Cell(Text(SiText(CountIf(HeldSi, valid))), TotalsStyled(DefaultStyle))
      && Get(h, fila, COL_REALIZADO_NO) == Cell(Text(NoText(CountIf(HeldNo, valid))), TotalsStyled(DefaultStyle))
      && CountIf(HeldSi, valid) + CountIf(HeldNo, valid) == |datos|
  {
    SavedLayout(g, datos, h);
    LaidOutSortedTotals(Unmerged(g, g.merged), datos, h);
  }

  lemma LaidOutSortedTotals(u: Grid, datos: seq<Record>, h: Grid)
    requires Checked(datos).Ok? && forall j :: 0 <= j < |Checked(datos).value| ==> ParseFechaHora(Checked(datos).value[j]).Ok?
    requires LaidOut(h, u, Sorted(Checked(datos).value))
    ensures var valid, fila := Checked(datos).value, FILA_ENCABEZADO + |datos| + 1;
      && Get(h, fila, COL_REALIZADO_SI) == Cell(Text(SiText(CountIf(HeldSi, valid))), TotalsStyled(DefaultStyle))
      && Get(h, fila, COL_REALIZADO_NO) == Cell(Text(NoText(CountIf(HeldNo, valid))), TotalsStyled(DefaultStyle))
      && CountIf(HeldSi, valid) + CountIf(HeldNo, valid) == |datos|
  {
    CheckedHeld(datos);
    var valid := Checked(datos).value;
    LaidOutTotals(h, u, Sorted(valid));
    SortedCount(valid, HeldSi);
    SortedCount(valid, HeldNo);
    TotalsAddUp(valid);
  }

  /** The per-reason totals row counts, for each reason column, the records
      not held whose reason in that column is set. */
  lemma SavedReasonTotals(g: Grid, datos: seq<Record>, h: Grid, k: int)
    requires Saves(g, datos, Ok(h)) && MaxRow(g) < MAX_FILA_PERMITIDA
    requires 0 <= k < NUM_MOTIVOS
    ensures Checked(datos).Ok?
    ensures Get(h, FILA_ENCABEZADO + |datos| + 2, COL_MOTIVOS_INICIO + k)
      == Cell(Text(ReasonText(k, CountIf(ReasonFilter(k), Checked(datos).value))), ReasonTotalsStyled(DefaultStyle))
  {
    SavedLayout(g, datos, h);
    LaidOutSortedReasonTotals(Unmerged(g, g.merged), datos, h, k);
  }

  lemma LaidOutSortedReasonTotals(u: Grid, datos: seq<Record>, h: Grid, k: int)
    requires Checked(datos).Ok? && forall j :: 0 <= j < |Checked(datos).value| ==> ParseFechaHora(Checked(datos).value[j]).Ok?
    requires LaidOut(h, u, Sorted(Checked(datos).value))
    requires 0 <= k < NUM_MOTIVOS
    ensures Get(h, FILA_ENCABEZADO + |datos| + 2, COL_MOTIVOS_INICIO + k)
      == Cell(Text(ReasonText(k, CountIf(ReasonFilter(k), Checked(datos).value))), ReasonTotalsStyled(DefaultStyle))
  {
    var valid := Checked(datos).value;
    var fila := FILA_ENCABEZADO + |datos| + 2;
    assert Get(h, fila, COL_MOTIVOS_INICIO + k) == LedgerCell(u, Sorted(valid), fila, COL_MOTIVOS_INICIO + k);
    SortedCount(valid, ReasonFilter(k));
  }
}
