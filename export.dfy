// exportar_con_firma (excel_utils.py:403-484): the name of the signed copy,
// the row the signature goes on, and what signing does to the copy's sheet.
// The file operations around it are in Archive.

module Export {
  import opened PyText
  import opened Schema
  import opened Cells
  import opened Styles
  import opened Paths
  import opened FechaHora
  import opened Hearings
  import opened Ordering
  import opened Totals
  import opened Ledger
  import opened Save
  import opened ReadBack

  const XLSX: string := ".xlsx"
  const EXPORT_TAG: string := "_exportado_"

  // ---------------------------------------------------------------------
  // The name of the copy (excel_utils.py:409-419)

  /** The file name with ".xlsx" appended unless it already ends so. */
  function WithXlsx(nombre: string): (r: string)
    ensures EndsWith(r, XLSX) && StartsWith(r, nombre)
    ensures EndsWith(nombre, XLSX) ==> r == nombre
    ensures !EndsWith(nombre, XLSX) ==> r[|nombre|..] == XLSX
  {
    if EndsWith(nombre, XLSX) then nombre
    else
      var r := nombre + XLSX;
      assert r[|nombre|..] == XLSX && r[..|nombre|] == nombre;
      r
  }

  /** date.today().strftime("%Y%m%d"); only the day of today matters. */
  function DateStamp(today: DateTime): (s: string)
    requires ValidDateTime(today)
    ensures |s| == 8 && forall i :: 0 <= i < |s| ==> IsDigit(s[i])
    ensures YearToken(s[..4]) == Some(today.year)
    ensures TwoDigits(s[4..6]) == today.month && TwoDigits(s[6..]) == today.day
  {
    var y, m, d := Pad4(today.year), Pad2(today.month), Pad2(today.day);
    var s := y + m + d;
    assert s[..4] == y && s[4..6] == m && s[6..] == d;
    assert forall i :: 0 <= i < 4 ==> s[i] == y[i];
    s
  }

  /** f"{Path(nombre).stem}_exportado_{fecha}.xlsx" for the name with its
      ".xlsx" added. */
  function ExportName(nombre: string, today: DateTime): string
    requires ValidDateTime(today)
  {
    Stem(WithXlsx(nombre)) + EXPORT_TAG + DateStamp(today) + XLSX
  }

  /** The copy is named after the file's own name, without directories and
      without ".xlsx", tagged with the date; the name is one plain
      segment, so the copy lands directly in the archive directory. */
  lemma ExportNameParts(nombre: string, today: DateTime)
    requires ValidDateTime(today)
    ensures var n := Name(WithXlsx(nombre));
      && EndsWith(n, XLSX)
      && ExportName(nombre, today)
         == (if |n| > |XLSX| then n[..|n| - |XLSX|] else n) + EXPORT_TAG + DateStamp(today) + XLSX
      && Plain(ExportName(nombre, today))
  {
    var p := WithXlsx(nombre);
    StemOfXlsx(p);
    NameIsPlain(p);
    var e := ExportName(nombre, today);
    var stem, stamp := Stem(p), DateStamp(today);
    assert '/' !in stem;
    assert '/' !in e by {
      forall i | 0 <= i < |e| ensures e[i] != '/' {
        if i < |stem| {
          assert e[i] == stem[i];
        } else if i < |stem| + |EXPORT_TAG| {
          assert e[i] == EXPORT_TAG[i - |stem|];
        } else if i < |stem| + |EXPORT_TAG| + 8 {
          assert e[i] == stamp[i - |stem| - |EXPORT_TAG|];
        } else {
          assert e[i] == XLSX[i - |stem| - |EXPORT_TAG| - 8];
        }
      }
    }
  }

  /** The last segment of a name holds no '/', and a name ending in ".xlsx"
      has a plain last segment. */
  lemma NameIsPlain(p: string)
    requires EndsWith(p, XLSX)
    ensures '/' !in Name(p) && Plain(Name(p))
  {
    SplitNoSlash(p);
    NameOfSuffix(p, XLSX);
    var n := Name(p);
    assert n[|n| - 5..] == XLSX;
    assert n != "." && n != "..";
  }

  /** The copy never overwrites the file it copies: the two names resolve
      to different paths, their last segments differing in length. */
  lemma CopyIsElsewhere(cwd: seq<string>, nombre: string, today: DateTime)
    requires ValidDateTime(today)
    ensures Resolve(cwd, ExportName(nombre, today)) != Resolve(cwd, WithXlsx(nombre))
  {
    var p, e := WithXlsx(nombre), ExportName(nombre, today);
    ExportNameLength(nombre, today);
    NameIsPlain(p);
    SplitPlain(e);
    DistinctNames(cwd, e, p);
  }

  /** The copy's name is longer than the file's own name. */
  lemma ExportNameLength(nombre: string, today: DateTime)
    requires ValidDateTime(today)
    ensures Plain(ExportName(nombre, today))
    ensures |ExportName(nombre, today)| > |Name(WithXlsx(nombre))|
  {
    ExportNameParts(nombre, today);
  }

  /** Names whose last segments are plain and differ resolve apart. */
  lemma DistinctNames(cwd: seq<string>, a: string, b: string)
    requires Plain(Name(a)) && Plain(Name(b)) && Name(a) != Name(b)
    ensures Resolve(cwd, a) != Resolve(cwd, b)
  {
    ResolveLast(cwd, a);
    ResolveLast(cwd, b);
  }

  /** The last segment of the resolved path is the name's last segment. */
  lemma ResolveLast(cwd: seq<string>, nombre: string)
    requires Plain(Name(nombre))
    ensures var r := Resolve(cwd, nombre); |r| > 0 && r[|r| - 1] == Name(nombre)
  {
    var a := ArchivePath(nombre);
    ArchiveDirFacts();
    if !StartsWith(nombre, "/") {
      SplitAround(ARCHIVOS_DIR, nombre);
      assert !EndsWith(ARCHIVOS_DIR, "/");
      assert a == ARCHIVOS_DIR + "/" + nombre;
    }
    assert Name(a) == Name(nombre);
    var segs := if StartsWith(a, "/") then Split(a) else cwd + Split(a);
    assert segs[|segs| - 1] == Name(a);
    NormalizeLast(segs);
  }

  // ---------------------------------------------------------------------
  // The signature row (excel_utils.py:432-441)

  /** G or H of row r holds a value. */
  predicate HasMarker(g: Grid, r: int) {
    Truthy(ValueAt(g, r, COL_REALIZADO_SI)) || Truthy(ValueAt(g, r, COL_REALIZADO_NO))
  }

  /** How many rows from r on have G or H truthy. */
  function MarkerRun(g: Grid, r: int): (k: nat)
    ensures forall j :: r <= j < r + k ==> HasMarker(g, j)
    ensures !HasMarker(g, r + k)
    decreases MaxRow(g) + 1 - r
  {
    if !HasMarker(g, r) then 0
    else
      assert r <= MaxRow(g);
      1 + MarkerRun(g, r + 1)
  }

  /** The signature row as the walk is written: past the rows with a
      radicado, then past the rows with G or H truthy. */
  function SignatureRowAsWritten(g: Grid): int {
    var ultima := FILA_ENCABEZADO + DataRun(g, FILA_ENCABEZADO + 1);
    ultima + MarkerRun(g, ultima + 1) + 1
  }

  /** Row r is a totals row: G or H holds a value (the totals row), or I
      does (the per-reason totals row, whose every cell I..P is labelled). */
  predicate HasTotals(g: Grid, r: int) {
    HasMarker(g, r) || Truthy(ValueAt(g, r, COL_MOTIVOS_INICIO))
  }

  /** How many totals rows follow from r on. */
  function TotalsRun(g: Grid, r: int): (k: nat)
    ensures forall j :: r <= j < r + k ==> HasTotals(g, j)
    ensures !HasTotals(g, r + k)
    decreases MaxRow(g) + 1 - r
  {
    if !HasTotals(g, r) then 0
    else
      assert r <= MaxRow(g);
      1 + TotalsRun(g, r + 1)
  }

  /** The signature row the walk is meant to reach: past the rows with a
      radicado, then past both totals rows. */
  function SignatureRow(g: Grid): int {
    var ultima := FILA_ENCABEZADO + DataRun(g, FILA_ENCABEZADO + 1);
    ultima + TotalsRun(g, ultima + 1) + 1
  }

  /** The two while loops that find the signature row: the second one
      steps over the rows whose G or H holds a value, and over nothing
      else. */
  method FindSignatureRow(ws: Worksheet) returns (fila: int)
    ensures fila == SignatureRowAsWritten(ws.Snapshot())
    ensures fila > FILA_ENCABEZADO
  {
    ghost var g := ws.Snapshot();
    ghost var n := DataRun(g, FILA_ENCABEZADO + 1);
    var ultima := FILA_ENCABEZADO;
    while Truthy(ws.At(ultima + 1, COL_RADICADO).value)
      invariant FILA_ENCABEZADO <= ultima <= FILA_ENCABEZADO + n
      decreases MaxRow(g) + 1 - ultima
    {
      assert ultima + 1 <= MaxRow(g);
      ultima := ultima + 1;
    }
    assert !Truthy(ValueAt(g, ultima + 1, COL_RADICADO));
    assert ultima == FILA_ENCABEZADO + n;
    ghost var base := ultima;
    ghost var m := MarkerRun(g, base + 1);
    while Truthy(ws.At(ultima + 1, COL_REALIZADO_SI).value) || Truthy(ws.At(ultima + 1, COL_REALIZADO_NO).value)
      invariant base <= ultima <= base + m
      decreases MaxRow(g) + 1 - ultima
    {
      assert HasMarker(g, ultima + 1);
      assert ultima + 1 <= MaxRow(g);
      ultima := ultima + 1;
    }
    assert !HasMarker(g, ultima + 1);
    assert ultima == base + m;
    fila := ultima + 1;
  }

  // ---------------------------------------------------------------------
  // Signing (excel_utils.py:443-480)

  const CENTERED: Alignment := Alignment("center", "center", false)

  /** The border the loop leaves on column col of the signature row: a
      thick box on A; thick top and bottom on B..P; thick top, bottom and
      right on Q (its first assignment is overwritten). */
  function ExportBorder(col: int): Border {
    if col == 1 then ThickBox
    else if col == LAST_COL then Border(NoSide, Thick, Thick, Thick)
    else Border(NoSide, NoSide, Thick, Thick)
  }

  function SignatureRange(fila: int): Range {
    Range(fila, 1, fila, LAST_COL)
  }

  /** The label written into A and centered. */
  function SignatureLabelled(g: Grid, fila: int): Grid
    requires fila >= 1
  {
    var g1 := WithValue(g, fila, 1, Text(FIRMA_LABEL));
    WithStyle(g1, fila, 1, Get(g1, fila, 1).style.(alignment := CENTERED))
  }

  /** The borders of columns col..Q of the signature row. */
  function ExportBorderedFrom(g: Grid, fila: int, col: int): Grid
    requires fila >= 1
    decreases LAST_COL + 1 - col
  {
    if col > LAST_COL then g
    else ExportBorderedFrom(WithStyle(g, fila, col, Get(g, fila, col).style.(border := ExportBorder(col))), fila, col + 1)
  }

  /** The sheet once row fila has been signed: labelled, merged A..Q and
      bordered. */
  function Signed(g: Grid, fila: int): Grid
    requires fila >= 1
  {
    ExportBorderedFrom(WithMerge(SignatureLabelled(g, fila), SignatureRange(fila)), fila, 1)
  }

  lemma {:induction false} ExportBorderedFromAt(g: Grid, fila: int, col: int, r: int, c: int)
    requires 1 <= fila <= MaxRow(g) && col >= 1
    ensures var g' := ExportBorderedFrom(g, fila, col);
      && Get(g', r, c) == (if r == fila && col <= c <= LAST_COL then Cell(Get(g, r, c).value, Get(g, r, c).style.(border := ExportBorder(c))) else Get(g, r, c))
      && g'.merged == g.merged && MaxRow(g') == MaxRow(g)
    decreases LAST_COL + 1 - col
  {
    if col <= LAST_COL {
      var cell := Cell(Get(g, fila, col).value, Get(g, fila, col).style.(border := ExportBorder(col)));
      var g1 := WithStyle(g, fila, col, cell.style);
      GetWithCell(g, fila, col, cell, r, c);
      ExportBorderedFromAt(g1, fila, col + 1, r, c);
    }
  }

  /** Signing row fila: A holds the label, centered, with a thick box;
      B..Q are the empty cells of the merged range, with the borders of
      ExportBorder; every other cell is as it was, and A..Q of fila is
      merged. */
  lemma SignedAt(g: Grid, fila: int, r: int, c: int)
    requires fila >= 1
    ensures Get(Signed(g, fila), r, c) ==
      if r == fila && c == 1 then Cell(Text(FIRMA_LABEL), Get(g, fila, 1).style.(alignment := CENTERED, border := ThickBox))
      else if r == fila && 1 < c <= LAST_COL then Cell(Empty, DefaultStyle.(border := ExportBorder(c)))
      else Get(g, r, c)
    ensures Signed(g, fila).merged == g.merged + {SignatureRange(fila)}
    ensures MaxRow(Signed(g, fila)) == if fila > MaxRow(g) then fila else MaxRow(g)
  {
    var g1 := WithValue(g, fila, 1, Text(FIRMA_LABEL));
    var s := Get(g1, fila, 1).style.(alignment := CENTERED);
    GetWithCell(g, fila, 1, Cell(Text(FIRMA_LABEL), Get(g, fila, 1).style), fila, 1);
    GetWithCell(g, fila, 1, Cell(Text(FIRMA_LABEL), Get(g, fila, 1).style), r, c);
    var g2 := SignatureLabelled(g, fila);
    GetWithCell(g1, fila, 1, Cell(Get(g1, fila, 1).value, s), r, c);
    var g3 := WithMerge(g2, SignatureRange(fila));
    GetWithMerge(g2, SignatureRange(fila), r, c);
    ExportBorderedFromAt(g3, fila, 1, r, c);
  }

  /** Once saved and reloaded, a signed sheet with no earlier merges holds
      exactly the signature merge, and its label. */
  lemma SignedCopyLabel(g: Grid, fila: int)
    requires fila >= 1 && g.merged == {}
    ensures !Covered(Persisted(g).merged, fila, 1)
    ensures Persisted(Signed(Persisted(g), fila)).merged == {SignatureRange(fila)}
    ensures ValueAt(Persisted(Signed(Persisted(g), fila)), fila, 1) == Text(FIRMA_LABEL)
  {
    var p := Persisted(g);
    GetPersisted(g, fila, 1);
    SignedAt(p, fila, fila, 1);
    GetPersisted(Signed(p, fila), fila, 1);
  }

  /** Away from the signature row, the saved signed copy of a saved sheet
      holds the cells of that sheet. */
  lemma SignedCopyKeeps(g: Grid, fila: int, row: int, c: int)
    requires fila >= 1 && row != fila
    ensures Get(Persisted(Signed(Persisted(g), fila)), row, c) == Get(Persisted(g), row, c)
  {
    var p := Persisted(g);
    SignedAt(p, fila, row, c);
    GetPersisted(Signed(p, fila), row, c);
    GetPersisted(g, row, c);
  }

  /** The signature row as the source promises it: one thick frame around
      A..Q (A closed on its left and right, Q on its right), the label in
      A and the row merged, every other row as it was. */
  lemma SignatureFrame(g: Grid, fila: int, r: int, c: int)
    requires fila >= 1
    ensures var s := Signed(g, fila);
      && (r != fila ==> Get(s, r, c) == Get(g, r, c))
      && (r == fila && 1 <= c <= LAST_COL ==>
            var b := Get(s, r, c).style.border;
            && b.top == Thick && b.bottom == Thick
            && (b.left == Thick <==> c == 1) && (b.right == Thick <==> c == 1 || c == LAST_COL)
            && (Get(s, r, c).value == if c == 1 then Text(FIRMA_LABEL) else Empty))
      && (r == fila && c == 1 ==> Get(s, r, c).style.alignment == CENTERED)
      && SignatureRange(fila) in s.merged
  {
    SignedAt(g, fila, r, c);
  }

  /** The steps of exportar_con_firma on the copy's sheet from the label
      to the last border. */
  method AddSignature(ws: Worksheet, fila: int)
    requires fila >= 1
    modifies ws
    ensures ws.Snapshot() == Signed(old(ws.Snapshot()), fila)
  {
    ghost var g0 := ws.Snapshot();
    LabelAndMerge(ws, fila);
    var col := 1;
    while col <= LAST_COL
      invariant 1 <= col <= LAST_COL + 1
      invariant ExportBorderedFrom(ws.Snapshot(), fila, col) == Signed(g0, fila)
    {
      SetSignatureBorder(ws, fila, col);
      col := col + 1;
    }
  }

  /** The label, its alignment and the merge. */
  method LabelAndMerge(ws: Worksheet, fila: int)
    requires fila >= 1
    modifies ws
    ensures ws.Snapshot() == WithMerge(SignatureLabelled(old(ws.Snapshot()), fila), SignatureRange(fila))
  {
    ws.SetValue(fila, 1, Text(FIRMA_LABEL));
    ws.SetStyle(fila, 1, ws.At(fila, 1).style.(alignment := CENTERED));
    ws.MergeCells(SignatureRange(fila));
  }

  /** One turn of the border loop: Q has its border assigned twice, and the
      second assignment is the one that stays. */
  method SetSignatureBorder(ws: Worksheet, fila: int, col: int)
    requires fila >= 1 && 1 <= col <= LAST_COL
    modifies ws
    ensures ws.Snapshot() == WithStyle(old(ws.Snapshot()), fila, col, old(ws.At(fila, col)).style.(border := ExportBorder(col)))
  {
    ghost var g := ws.Snapshot();
    ghost var s := ws.At(fila, col).style;
    if col == 1 {
      ws.SetStyle(fila, col, ws.At(fila, col).style.(border := ThickBox));
    } else {
      ws.SetStyle(fila, col, ws.At(fila, col).style.(border := Border(NoSide, NoSide, Thick, Thick)));
      if col == LAST_COL {
        GetWithCell(g, fila, col, Cell(Get(g, fila, col).value, s.(border := Border(NoSide, NoSide, Thick, Thick))), fila, col);
        ws.SetStyle(fila, col, ws.At(fila, col).style.(border := Border(NoSide, Thick, Thick, Thick)));
        WithStyleTwice(g, fila, col, s.(border := Border(NoSide, NoSide, Thick, Thick)), s.(border := Border(NoSide, Thick, Thick, Thick)));
      }
    }
  }

  const READ_ONLY_MSG: string := "'MergedCell' object attribute 'value' is read-only"

  /** The copy's sheet from the walk to the last border. Writing the label
      into A of a row that an earlier merge covers is refused by openpyxl,
      as A is then a merged cell whose value is read-only. */
  method SignSheet(g: Grid) returns (r: Result<Grid>)
    ensures r == if Covered(g.merged, SignatureRowAsWritten(g), 1) then Err(AttributeError(READ_ONLY_MSG))
                 else Ok(Signed(g, SignatureRowAsWritten(g)))
  {
    var ws := new Worksheet.Load(g);
    var fila := FindSignatureRow(ws);
    if Covered(ws.merged, fila, 1) {
      return Err(AttributeError(READ_ONLY_MSG));
    }
    AddSignature(ws, fila);
    return Ok(ws.Snapshot());
  }

  // ---------------------------------------------------------------------
  // Signing a ledger the save left

  /** On a sheet laid out by the save, the radicado run covers the records,
      the G/H run only the totals row, and the totals run both totals
      rows. */
  lemma LaidOutRuns(h: Grid, u: Grid, recs: seq<Record>)
    requires LaidOut(h, u, recs)
    requires forall i :: 0 <= i < |recs| ==> HasRadicado(recs[i])
    ensures var p, n := Persisted(h), |recs|;
      && DataRun(p, FILA_ENCABEZADO + 1) == n
      && MarkerRun(p, FILA_ENCABEZADO + n + 1) == 1
      && TotalsRun(p, FILA_ENCABEZADO + n + 1) == 2
  {
    var p, n := Persisted(h), |recs|;
    LaidOutRun(h, u, recs);
    var t := FILA_ENCABEZADO + n + 1;
    forall r, c | t <= r <= t + 2 && c in {COL_REALIZADO_SI, COL_REALIZADO_NO, COL_MOTIVOS_INICIO}
      ensures Get(p, r, c) == Cell(PersistValue(LedgerCell(u, recs, r, c).value), LedgerCell(u, recs, r, c).style)
    {
      GetPersisted(h, r, c);
      assert Get(h, r, c) == LedgerCell(u, recs, r, c);
    }
    assert Truthy(ValueAt(p, t, COL_REALIZADO_SI));
    assert !HasMarker(p, t + 1);
    assert Truthy(ValueAt(p, t + 1, COL_MOTIVOS_INICIO));
    assert !HasTotals(p, t + 2);
  }

  /** The signature rows, as written and as meant, of a saved ledger. */
  lemma LaidOutSignatureRows(h: Grid, u: Grid, recs: seq<Record>)
    requires LaidOut(h, u, recs)
    requires forall i :: 0 <= i < |recs| ==> HasRadicado(recs[i])
    ensures SignatureRowAsWritten(Persisted(h)) == FILA_ENCABEZADO + |recs| + 2
    ensures SignatureRow(Persisted(h)) == FILA_ENCABEZADO + |recs| + 3
  {
    LaidOutRuns(h, u, recs);
  }

  lemma LaidOutReasonTotal(h: Grid, u: Grid, recs: seq<Record>, k: int)
    requires LaidOut(h, u, recs) && 0 <= k < NUM_MOTIVOS
    ensures ValueAt(Persisted(h), FILA_ENCABEZADO + |recs| + 2, COL_MOTIVOS_INICIO + k)
         == Text(ReasonText(k, CountIf(ReasonFilter(k), recs)))
  {
    var fila, c := FILA_ENCABEZADO + |recs| + 2, COL_MOTIVOS_INICIO + k;
    GetPersisted(h, fila, c);
    assert Get(h, fila, c) == LedgerCell(u, recs, fila, c);
  }

  /** Signing a row empties B..Q of it. */
  lemma SignedWipes(g: Grid, fila: int, c: int)
    requires fila >= 1 && 1 < c <= LAST_COL
    ensures ValueAt(Signed(g, fila), fila, c) == Empty
  {
    SignedAt(g, fila, fila, c);
  }

  /** Signing at the row meant leaves every cell of the ledger as it was:
      the signature goes on the first row below the per-reason totals. */
  lemma LaidOutSignatureKeeps(h: Grid, u: Grid, recs: seq<Record>, r: int, c: int)
    requires LaidOut(h, u, recs) && MaxRow(h) == FILA_ENCABEZADO + |recs| + 2
    requires forall i :: 0 <= i < |recs| ==> HasRadicado(recs[i])
    ensures var p := Persisted(h);
      && SignatureRow(p) == MaxRow(p) + 1
      && (r != SignatureRow(p) ==> Get(Signed(p, SignatureRow(p)), r, c) == Get(p, r, c))
  {
    var p := Persisted(h);
    LaidOutSignatureRows(h, u, recs);
    GetPersisted(h, r, c);
    SignedAt(p, SignatureRow(p), r, c);
  }

  /** Exporting a ledger saved with n records signs row 12 + n, as the walk
      is written, which is the per-reason totals row: each count it held is
      gone from the copy. */
  lemma SavedAsWrittenWipes(g: Grid, datos: seq<Record>, h: Grid, k: int)
    requires Saves(g, datos, Ok(h)) && MaxRow(g) < MAX_FILA_PERMITIDA && 0 <= k < NUM_MOTIVOS
    ensures Checked(datos).Ok?
    ensures var p, fila := Persisted(h), FILA_ENCABEZADO + |datos| + 2;
      && SignatureRowAsWritten(p) == fila
      && ValueAt(p, fila, COL_MOTIVOS_INICIO + k) == Text(ReasonText(k, CountIf(ReasonFilter(k), Checked(datos).value)))
      && ValueAt(Signed(p, fila), fila, COL_MOTIVOS_INICIO + k) == Empty
  {
    SavedLayout(g, datos, h);
    SigningSortedLedger(Unmerged(g, g.merged), datos, h, k);
  }

  lemma SigningSortedLedger(u: Grid, datos: seq<Record>, h: Grid, k: int)
    requires Checked(datos).Ok? && forall j :: 0 <= j < |Checked(datos).value| ==> ParseFechaHora(Checked(datos).value[j]).Ok?
    requires LaidOut(h, u, Sorted(Checked(datos).value)) && 0 <= k < NUM_MOTIVOS
    ensures var p, fila := Persisted(h), FILA_ENCABEZADO + |datos| + 2;
      && SignatureRowAsWritten(p) == fila
      && ValueAt(p, fila, COL_MOTIVOS_INICIO + k) == Text(ReasonText(k, CountIf(ReasonFilter(k), Checked(datos).value)))
      && ValueAt(Signed(p, fila), fila, COL_MOTIVOS_INICIO + k) == Empty
  {
    var valid := Checked(datos).value;
    CheckedValues(datos);
    SortedHeld(datos);
    LaidOutSignatureRows(h, u, Sorted(valid));
    LaidOutReasonTotal(h, u, Sorted(valid), k);
    SignedWipes(Persisted(h), FILA_ENCABEZADO + |datos| + 2, COL_MOTIVOS_INICIO + k);
    SortedCount(valid, ReasonFilter(k));
  }

  /** Exporting a ledger saved with n records, with the walk corrected,
      signs row 13 + n, the first row below the ledger, and changes no
      other row of the copy. */
  lemma SavedSignatureKeeps(g: Grid, datos: seq<Record>, h: Grid, r: int, c: int)
    requires Saves(g, datos, Ok(h)) && MaxRow(g) < MAX_FILA_PERMITIDA
    ensures var p := Persisted(h);
      && SignatureRow(p) == FILA_ENCABEZADO + |datos| + 3 == MaxRow(p) + 1
      && (r != SignatureRow(p) ==> Get(Signed(p, SignatureRow(p)), r, c) == Get(p, r, c))
  {
    SavedLayout(g, datos, h);
    SignedSortedLedger(Unmerged(g, g.merged), datos, h, r, c);
  }

  lemma SignedSortedLedger(u: Grid, datos: seq<Record>, h: Grid, r: int, c: int)
    requires Checked(datos).Ok? && forall j :: 0 <= j < |Checked(datos).value| ==> ParseFechaHora(Checked(datos).value[j]).Ok?
    requires LaidOut(h, u, Sorted(Checked(datos).value)) && MaxRow(h) == FILA_ENCABEZADO + |datos| + 2
    ensures var p := Persisted(h);
      && SignatureRow(p) == FILA_ENCABEZADO + |datos| + 3 == MaxRow(p) + 1
      && (r != SignatureRow(p) ==> Get(Signed(p, SignatureRow(p)), r, c) == Get(p, r, c))
  {
    var valid := Checked(datos).value;
    CheckedValues(datos);
    SortedHeld(datos);
    GetPersisted(h, r, c);
    LaidOutSignatureKeeps(h, u, Sorted(valid), r, c);
  }
}
