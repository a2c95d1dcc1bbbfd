// The file side of the ledger: the archive directory as a map from
// resolved paths to workbooks, and the three operations that open a
// workbook in it. guardar_audiencias_excel (excel_utils.py:148-322)
// replaces every record of a ledger, guardar_una_audiencia_excel
// (excel_utils.py:325-387) appends one, and exportar_con_firma
// (excel_utils.py:403-484) makes a signed copy.

module Archive {
  import opened PyText
  import opened Schema
  import opened Cells
  import opened Styles
  import opened Paths
  import opened FechaHora
  import opened Hearings
  import opened Ordering
  import opened Save
  import opened ReadBack
  import opened Export
  import opened Totals

  /** A workbook as load_workbook hands it over: without an active sheet,
      or with the grid of its active sheet. */
  datatype Book = NoActiveSheet | Sheet(grid: Grid)

  /** Files by the segments of their absolute path. */
  type Files = map<seq<string>, Book>

  /** guardar_una_audiencia_excel's reply. */
  datatype Report = Report(estado: string, audienciasGuardadas: nat)

  const OK: string := "ok"
  const NO_SHEET_MSG: string := "No se pudo cargar la hoja activa del archivo Excel."
  const EXPORT_SHEET_MSG: string := "No se pudo procesar el archivo Excel"

  function MissingMessage(nombre: string): string {
    "El archivo " + ArchivePath(nombre) + " no existe."
  }

  function ExportMissingMessage(nombre: string): string {
    "No se encontró el archivo " + ArchivePath(nombre)
  }

  /** The message of the InvalidFileException openpyxl's reader raises for
      a lower-cased extension ext it does not open. */
  function FormatMessage(ext: string): string {
    if ext == ".xls" then
      "openpyxl does not support the old .xls file format, please use xlrd to read this file, " +
      "or convert it to the more recent .xlsx file format."
    else if ext == ".xlsb" then
      "openpyxl does not support binary format .xlsb, please convert this file to .xlsx format " +
      "if you want to open it with openpyxl"
    else
      "openpyxl does not support " + ext + " file format, please check you can open it with Excel first. " +
      "Supported formats are: .xlsx,.xlsm,.xltx,.xltm"
  }

  /** The first thing load_workbook(ruta) does: refuse a path whose
      extension it does not open, before reading the file. */
  function LoadFormat(ruta: string): (o: Outcome)
    ensures o.Pass? <==> SupportedFormat(ruta)
    ensures o.Fail? ==> o.error.InvalidFileException? && o.error.msg == FormatMessage(Lower(Extension(ruta)))
  {
    if SupportedFormat(ruta) then Pass else Fail(InvalidFileException(FormatMessage(Lower(Extension(ruta)))))
  }

  // ---------------------------------------------------------------------
  // What each operation does to the files

  /** guardar_audiencias_excel(datos, nombre) with outcome o took the files
      from files to files'. The sheet is saved only once every step has
      passed; what a later load reads of it is its persisted form. */
  ghost predicate SavedAll(cwd: seq<string>, files: Files, datos: seq<Record>, nombre: string, o: Outcome, files': Files) {
    var key := Resolve(cwd, nombre);
    if ValidarNoEsPlantilla(cwd, nombre).Fail? then o == ValidarNoEsPlantilla(cwd, nombre) && files' == files
    else if key !in files then o == Fail(FileNotFoundError(MissingMessage(nombre))) && files' == files
    else if LoadFormat(ArchivePath(nombre)).Fail? then o == LoadFormat(ArchivePath(nombre)) && files' == files
    else if files[key].NoActiveSheet? then o == Fail(ValueError(NO_SHEET_MSG)) && files' == files
    else SheetSaved(files, key, datos, o, files')
  }

  /** The records saved over the sheet of files[key]. */
  ghost predicate SheetSaved(files: Files, key: seq<string>, datos: seq<Record>, o: Outcome, files': Files)
    requires key in files && files[key].Sheet?
  {
    if o.Fail? then Saves(files[key].grid, datos, Err(o.error)) && files' == files
    else exists h :: Saves(files[key].grid, datos, Ok(h)) && files' == files[key := Sheet(Persisted(h))]
  }

  /** guardar_una_audiencia_excel(d, nombre) with result r: the rows read
      back, the duplicate check, then the whole list saved again with d at
      its end. */
  ghost predicate SavedOne(cwd: seq<string>, files: Files, d: Record, nombre: string, r: Result<Report>, files': Files) {
    var key := Resolve(cwd, nombre);
    if key !in files then r == Err(FileNotFoundError(MissingMessage(nombre))) && files' == files
    else if LoadFormat(ArchivePath(nombre)).Fail? then r == Err(LoadFormat(ArchivePath(nombre)).error) && files' == files
    else if files[key].NoActiveSheet? then r == Err(ValueError(NO_SHEET_MSG)) && files' == files
    else
      var existentes := Existing(files[key].grid);
      var dup := DuplicateCheck(existentes, d);
      if dup.Fail? then r == Err(dup.error) && files' == files
      else
        SavedAll(cwd, files, existentes + [d], nombre, if r.Ok? then Pass else Fail(r.error), files')
        && (r.Ok? ==> r.value == Report(OK, |existentes| + 1))
  }

  /** exportar_con_firma(nombre) on day today with result r. The copy is
      made before the sheet is opened: it is deleted again when there is no
      active sheet, and stays unsigned when writing the label fails. */
  ghost predicate Exported(cwd: seq<string>, files: Files, nombre: string, today: DateTime, r: Result<string>, files': Files)
    requires ValidDateTime(today)
  {
    var n, e := WithXlsx(nombre), ExportName(nombre, today);
    var src, dst := Resolve(cwd, n), Resolve(cwd, e);
    if src !in files then r == Err(FileNotFoundError(ExportMissingMessage(n))) && files' == files
    else if files[src].NoActiveSheet? then r == Err(ValueError(EXPORT_SHEET_MSG)) && files' == files - {dst}
    else
      var g := files[src].grid;
      var fila := SignatureRowAsWritten(g);
      if Covered(g.merged, fila, 1) then r == Err(AttributeError(READ_ONLY_MSG)) && files' == files[dst := files[src]]
      else r == Ok(ArchivePath(e)) && files' == files[dst := Sheet(Persisted(Signed(g, fila)))]
  }

  // ---------------------------------------------------------------------
  // What the operations promise

  /** guardar_audiencias_excel passes exactly when the name is not the
      template, the file exists, load_workbook opens its extension, it has
      an active sheet, every record is valid and the records fit; on any
      error no file changes, and on success only the ledger's own file
      does. */
  lemma SavedAllOutcome(cwd: seq<string>, files: Files, datos: seq<Record>, nombre: string, o: Outcome, files': Files)
    requires SavedAll(cwd, files, datos, nombre, o, files')
    ensures var key := Resolve(cwd, nombre);
      && (o.Fail? ==> files' == files)
      && (IsTemplate(cwd, nombre) ==> o == Fail(ValueError(TEMPLATE_MSG)))
      && (!IsTemplate(cwd, nombre) && key !in files ==> o == Fail(FileNotFoundError(MissingMessage(nombre))))
      && (!IsTemplate(cwd, nombre) && key in files && !SupportedFormat(ArchivePath(nombre))
          ==> o == Fail(InvalidFileException(FormatMessage(Lower(Extension(ArchivePath(nombre)))))))
      && (o.Pass? <==> !IsTemplate(cwd, nombre) && key in files && SupportedFormat(ArchivePath(nombre)) && files[key].Sheet?
                       && (forall i :: 0 <= i < |datos| ==> Accepted(datos[i])) && |datos| <= 287)
      && (o.Pass? ==> files'.Keys == files.Keys && forall k :: k in files && k != key ==> files'[k] == files[k])
  {
    var key := Resolve(cwd, nombre);
    if !IsTemplate(cwd, nombre) && key in files && SupportedFormat(ArchivePath(nombre)) && files[key].Sheet? {
      SheetSavedOutcome(files, key, datos, o, files');
    }
  }

  /** The template's own path written with a root of two slashes passes
      the guard, but load_workbook refuses it: the template has no
      extension. The save fails and no file changes. */
  lemma TwoSlashTemplateNotOpened(w: string, files: Files, datos: seq<Record>, o: Outcome, files': Files)
    requires Plain(w) && Abspath([w], PLANTILLA_PATH) in files
    requires SavedAll([w], files, datos, TwoSlashTemplateName(w), o, files')
    ensures ValidarNoEsPlantilla([w], TwoSlashTemplateName(w)) == Pass
    ensures o == Fail(InvalidFileException(FormatMessage(""))) && files' == files
  {
    TwoSlashNameBypassesGuard(w);
    TwoSlashTemplateUnsupported(w);
  }

  /** "//w/Plantillas/plantilla_base" has no extension. */
  lemma TwoSlashTemplateUnsupported(w: string)
    requires Plain(w)
    ensures Extension(ArchivePath(TwoSlashTemplateName(w))) == "" && !SupportedFormat(ArchivePath(TwoSlashTemplateName(w)))
  {
    var n := TwoSlashTemplateName(w);
    assert StartsWith(n, "/") by { assert n[..1] == "/"; }
    assert ArchivePath(n) == n;
    assert n == ("/" + "/" + w + "/" + PLANTILLAS_DIR) + "/" + PLANTILLA_BASE;
    assert '.' !in PLANTILLA_BASE && '/' !in PLANTILLA_BASE by { TemplateDirFacts(); }
    ExtensionOfSegment("/" + "/" + w + "/" + PLANTILLAS_DIR, PLANTILLA_BASE);
    assert Lower("") == "";
  }

  lemma SheetSavedOutcome(files: Files, key: seq<string>, datos: seq<Record>, o: Outcome, files': Files)
    requires key in files && files[key].Sheet?
    requires SheetSaved(files, key, datos, o, files')
    ensures o.Fail? ==> files' == files
    ensures o.Pass? <==> (forall i :: 0 <= i < |datos| ==> Accepted(datos[i])) && |datos| <= 287
    ensures o.Pass? ==> files'.Keys == files.Keys && forall k :: k in files && k != key ==> files'[k] == files[k]
  {
    if o.Fail? {
      SheetSaveRefused(files, key, datos, o, files');
    } else {
      SheetSaveWritten(files, key, datos, files');
    }
  }

  lemma SheetSaveRefused(files: Files, key: seq<string>, datos: seq<Record>, o: Outcome, files': Files)
    requires key in files && files[key].Sheet? && o.Fail?
    requires SheetSaved(files, key, datos, o, files')
    ensures files' == files
    ensures !((forall i :: 0 <= i < |datos| ==> Accepted(datos[i])) && |datos| <= 287)
  {
    SaveFailed(files[key].grid, datos, o.error);
  }

  lemma SheetSaveWritten(files: Files, key: seq<string>, datos: seq<Record>, files': Files)
    requires key in files && files[key].Sheet?
    requires SheetSaved(files, key, datos, Pass, files')
    ensures (forall i :: 0 <= i < |datos| ==> Accepted(datos[i])) && |datos| <= 287
    ensures files'.Keys == files.Keys && forall k :: k in files && k != key ==> files'[k] == files[k]
  {
    var h := SavedSheet(files, key, datos, files');
    SavePassed(files[key].grid, datos, h);
    UpdateKeeps(files, key, Sheet(Persisted(h)));
  }

  /** Writing one file of the archive keeps the set of files and every
      other file. */
  lemma UpdateKeeps(files: Files, key: seq<string>, w: Book)
    requires key in files
    ensures files[key := w].Keys == files.Keys
    ensures forall k :: k in files && k != key ==> files[key := w][k] == files[k]
  {
  }

  lemma SaveFailed(g: Grid, datos: seq<Record>, e: Error)
    requires Saves(g, datos, Err(e))
    ensures !((forall i :: 0 <= i < |datos| ==> Accepted(datos[i])) && |datos| <= 287)
  {
    SavesOutcome(g, datos, Err(e));
  }

  lemma SavePassed(g: Grid, datos: seq<Record>, h: Grid)
    requires Saves(g, datos, Ok(h))
    ensures (forall i :: 0 <= i < |datos| ==> Accepted(datos[i])) && |datos| <= 287
  {
    SavesOutcome(g, datos, Ok(h));
  }

  /** After a successful guardar_audiencias_excel on a sheet that ended
      before row 300, reading the file back gives the stored form of the
      records, sorted latest first. */
  lemma SavedAllReadsBack(cwd: seq<string>, files: Files, datos: seq<Record>, nombre: string, files': Files)
    requires SavedAll(cwd, files, datos, nombre, Pass, files')
    requires var key := Resolve(cwd, nombre); key in files && files[key].Sheet? && MaxRow(files[key].grid) < MAX_FILA_PERMITIDA
    ensures var key := Resolve(cwd, nombre);
      && key in files' && files'[key].Sheet?
      && Checked(datos).Ok? && (forall i :: 0 <= i < |Checked(datos).value| ==> ParseFechaHora(Checked(datos).value[i]).Ok?)
      && var recs, sorted := Existing(files'[key].grid), Sorted(Checked(datos).value);
         |recs| == |datos| && forall i :: 0 <= i < |datos| ==> recs[i] == Stored(sorted[i])
  {
    var key := Resolve(cwd, nombre);
    var h := SavedSheet(files, key, datos, files');
    SavedReadsBack(files[key].grid, datos, h);
  }

  /** The sheet a successful save stored, before persisting. */
  lemma SavedSheet(files: Files, key: seq<string>, datos: seq<Record>, files': Files) returns (h: Grid)
    requires key in files && files[key].Sheet?
    requires SheetSaved(files, key, datos, Pass, files')
    ensures Saves(files[key].grid, datos, Ok(h)) && files' == files[key := Sheet(Persisted(h))]
  {
    h :| Saves(files[key].grid, datos, Ok(h)) && files' == files[key := Sheet(Persisted(h))];
  }

  /** guardar_una_audiencia_excel passes exactly when the file exists,
      load_workbook opens its extension, it has an active sheet, no row
      read back has d's radicado, and saving the
      rows read back followed by d passes; it then reports one record more
      than it read. On any error no file changes. */
  lemma SavedOneOutcome(cwd: seq<string>, files: Files, d: Record, nombre: string, r: Result<Report>, files': Files)
    requires SavedOne(cwd, files, d, nombre, r, files')
    ensures var key := Resolve(cwd, nombre);
      && (r.Err? ==> files' == files)
      && (key !in files ==> r == Err(FileNotFoundError(MissingMessage(nombre))))
      && (key in files && !SupportedFormat(ArchivePath(nombre))
          ==> r == Err(InvalidFileException(FormatMessage(Lower(Extension(ArchivePath(nombre)))))))
      && (key in files && SupportedFormat(ArchivePath(nombre)) && files[key].Sheet?
          && (exists i :: 0 <= i < |Existing(files[key].grid)| && RadicadoKey(Existing(files[key].grid)[i]) == RadicadoKey(d))
          ==> r == Err(ValueError(DuplicateMessage(RadicadoKey(d)))))
      && (r.Ok? <==>
            (key in files && SupportedFormat(ArchivePath(nombre)) && files[key].Sheet?
             && DuplicateCheck(Existing(files[key].grid), d).Pass?
             && !IsTemplate(cwd, nombre)
             && (forall i :: 0 <= i < |Existing(files[key].grid)| + 1 ==> Accepted((Existing(files[key].grid) + [d])[i]))
             && |Existing(files[key].grid)| + 1 <= 287))
      && (r.Ok? ==> key in files && r.value == Report(OK, |Existing(files[key].grid)| + 1))
  {
    var key := Resolve(cwd, nombre);
    if key in files && SupportedFormat(ArchivePath(nombre)) && files[key].Sheet? {
      var existentes := Existing(files[key].grid);
      if DuplicateCheck(existentes, d).Pass? {
        SavedAllOutcome(cwd, files, existentes + [d], nombre, if r.Ok? then Pass else Fail(r.error), files');
      }
    }
  }

  // ---------------------------------------------------------------------
  // Appending to a saved ledger

  /** Validation leaves radicado as it was. */
  lemma ValidatedKey(d: Record)
    requires Validated(d).Ok?
    ensures RadicadoKey(Validated(d).value) == RadicadoKey(d)
  {
    ValidatedNormalises(d);
  }

  /** A record with a truthy radicado reads back with the same key. */
  lemma StoredKey(v: Record)
    requires HasRadicado(v)
    ensures RadicadoKey(Stored(v)) == RadicadoKey(v)
  {
    StoredRadicado(v);
    assert K_RADICADO in v.fields;
  }

  /** Sorting and storing keep the radicados: a stored, sorted record has
      a key exactly when an input record has it. */
  lemma StoredKeys(datos: seq<Record>, ex: seq<Record>, key: string)
    requires Checked(datos).Ok? && forall i :: 0 <= i < |Checked(datos).value| ==> ParseFechaHora(Checked(datos).value[i]).Ok?
    requires |ex| == |datos| && forall i :: 0 <= i < |datos| ==> ex[i] == Stored(Sorted(Checked(datos).value)[i])
    ensures (exists i :: 0 <= i < |ex| && RadicadoKey(ex[i]) == key) <==> (exists i :: 0 <= i < |datos| && RadicadoKey(datos[i]) == key)
  {
    var valid := Checked(datos).value;
    var sorted := Sorted(valid);
    CheckedValues(datos);
    SortedHeld(datos);
    SortedByDateSpec(valid, Keys(valid));
    var order := SortOrder(valid, Keys(valid));
    forall k | 0 <= k < |ex| ensures RadicadoKey(ex[k]) == RadicadoKey(datos[order[k]]) {
      StoredKey(sorted[k]);
      ValidatedKey(datos[order[k]]);
    }
    if i :| 0 <= i < |datos| && RadicadoKey(datos[i]) == key {
      assert i in order;
      var k :| 0 <= k < |order| && order[k] == i;
      assert RadicadoKey(ex[k]) == key;
    }
  }

  /** Reading a saved ledger back, the duplicate check refuses d exactly
      when one of the saved records has d's radicado. */
  lemma SavedDuplicate(g: Grid, datos: seq<Record>, h: Grid, d: Record)
    requires Saves(g, datos, Ok(h)) && MaxRow(g) < MAX_FILA_PERMITIDA
    ensures |Existing(Persisted(h))| == |datos|
    ensures DuplicateCheck(Existing(Persisted(h)), d).Fail? <==> exists i :: 0 <= i < |datos| && RadicadoKey(datos[i]) == RadicadoKey(d)
  {
    SavedReadsBack(g, datos, h);
    StoredKeys(datos, Existing(Persisted(h)), RadicadoKey(d));
  }

  /** guardar_una_audiencia_excel right after guardar_audiencias_excel on
      the same file refuses a record whose radicado was among those saved,
      changing nothing, and otherwise reports one record more than were
      saved. */
  lemma AppendAfterSave(cwd: seq<string>, files: Files, datos: seq<Record>, nombre: string, files1: Files,
                        d: Record, r: Result<Report>, files2: Files)
    requires var key := Resolve(cwd, nombre); key in files && files[key].Sheet? && MaxRow(files[key].grid) < MAX_FILA_PERMITIDA
    requires SavedAll(cwd, files, datos, nombre, Pass, files1)
    requires SavedOne(cwd, files1, d, nombre, r, files2)
    ensures (exists i :: 0 <= i < |datos| && RadicadoKey(datos[i]) == RadicadoKey(d))
            ==> r == Err(ValueError(DuplicateMessage(RadicadoKey(d)))) && files2 == files1
    ensures r.Ok? ==> r.value == Report(OK, |datos| + 1)
  {
    var key := Resolve(cwd, nombre);
    var h := SavedSheet(files, key, datos, files1);
    SavedDuplicate(files[key].grid, datos, h, d);
    SavedOneOutcome(cwd, files1, d, nombre, r, files2);
  }

  // ---------------------------------------------------------------------
  // Exporting

  /** The copy exportar_con_firma opens always ends in a date digit and
      ".xlsx", so load_workbook never refuses it. */
  lemma ExportCopySupported(nombre: string, today: DateTime)
    requires ValidDateTime(today)
    ensures Extension(ArchivePath(ExportName(nombre, today))) == XLSX
    ensures SupportedFormat(ArchivePath(ExportName(nombre, today)))
  {
    var e := ExportName(nombre, today);
    var x := Stem(WithXlsx(nombre)) + EXPORT_TAG + DateStamp(today);
    assert e == x + XLSX;
    assert Plain(e) by { ExportNameParts(nombre, today); }
    var dir := ARCHIVOS_DIR + "/" + x;
    assert ArchivePath(e) == dir + XLSX by { PlainArchivePath(e); }
    assert dir[|dir| - 1] != '.' && dir[|dir| - 1] != '/' by {
      var stamp := DateStamp(today);
      assert dir[|dir| - 1] == x[|x| - 1] == stamp[7];
      assert IsDigit(stamp[7]);
    }
    assert '.' !in XLSX[1..] && '/' !in XLSX by { assert XLSX[1..] == "xlsx"; }
    ExtensionOfSuffix(dir, XLSX);
    LowerXlsx();
  }

  /** ".xlsx" is already lower case. */
  lemma LowerXlsx()
    ensures Lower(XLSX) == XLSX
  {
    var l := Lower(XLSX);
    assert forall i :: 0 <= i < |XLSX| ==> XLSX[i] == '.' || 'a' <= XLSX[i] <= 'z';
    assert forall i :: 0 <= i < |XLSX| ==> l[i] == XLSX[i];
  }

  /** exportar_con_firma never changes the file it copies and creates or
      changes no file but the copy; it fails on a missing file without
      touching anything, and on success names the copy. */
  lemma ExportedFrame(cwd: seq<string>, files: Files, nombre: string, today: DateTime, r: Result<string>, files': Files)
    requires ValidDateTime(today) && Exported(cwd, files, nombre, today, r, files')
    ensures var src, dst := Resolve(cwd, WithXlsx(nombre)), Resolve(cwd, ExportName(nombre, today));
      && (src in files ==> src in files' && files'[src] == files[src])
      && (forall k :: k in files && k != dst ==> k in files' && files'[k] == files[k])
      && (forall k :: k in files' ==> k in files || k == dst)
      && (src !in files ==> r == Err(FileNotFoundError(ExportMissingMessage(WithXlsx(nombre)))) && files' == files)
      && (r.Ok? ==> r.value == ArchivePath(ExportName(nombre, today)) && dst in files' && files'[dst].Sheet?)
  {
    var src, dst := Resolve(cwd, WithXlsx(nombre)), Resolve(cwd, ExportName(nombre, today));
    CopyIsElsewhere(cwd, nombre, today);
    if src in files {
      if files[src].NoActiveSheet? {
        RemovedFrame(files, dst);
      } else {
        var g := files[src].grid;
        var v := if Covered(g.merged, SignatureRowAsWritten(g), 1) then files[src] else Sheet(Persisted(Signed(g, SignatureRowAsWritten(g))));
        assert files' == files[dst := v];
        UpdatedFrame(files, dst, v);
      }
    }
  }

  /** Removing one key leaves every other entry. */
  lemma RemovedFrame<K, V>(m: map<K, V>, k: K)
    ensures forall j :: j in m && j != k ==> j in m - {k} && (m - {k})[j] == m[j]
    ensures forall j :: j in m - {k} ==> j in m
  {
  }

  /** Writing one key leaves every other entry. */
  lemma UpdatedFrame<K, V>(m: map<K, V>, k: K, v: V)
    ensures forall j :: j in m && j != k ==> j in m[k := v] && m[k := v][j] == m[j]
    ensures forall j :: j in m[k := v] ==> j in m || j == k
  {
  }

  /** Each of the eight reason counts that row fila of p held is gone from
      that row of copy. */
  ghost predicate ReasonCountsWiped(p: Grid, copy: Grid, fila: int, valid: seq<Record>) {
    forall k :: 0 <= k < NUM_MOTIVOS ==>
      && ValueAt(p, fila, COL_MOTIVOS_INICIO + k) == Text(ReasonText(k, CountIf(ReasonFilter(k), valid)))
      && ValueAt(copy, fila, COL_MOTIVOS_INICIO + k) == Empty
  }

  /** Every row of copy but fila is that row of p. */
  ghost predicate RowsKept(p: Grid, copy: Grid, fila: int) {
    forall row, c :: row != fila ==> Get(copy, row, c) == Get(p, row, c)
  }

  /** Exporting a ledger just saved with n records, on a sheet that ended
      before row 300: the walk stops at row 12 + n, the per-reason totals
      row, so the copy carries the signature there. That row is labelled
      and merged, the eight reason counts it held are gone from I..P, and
      every other row is as saved. */
  lemma ExportSavedLedger(cwd: seq<string>, files: Files, nombre: string, today: DateTime, r: Result<string>, files': Files,
                          g: Grid, datos: seq<Record>, h: Grid)
    requires ValidDateTime(today)
    requires Saves(g, datos, Ok(h)) && MaxRow(g) < MAX_FILA_PERMITIDA
    requires var src := Resolve(cwd, WithXlsx(nombre)); src in files && files[src] == Sheet(Persisted(h))
    requires Exported(cwd, files, nombre, today, r, files')
    ensures Checked(datos).Ok?
    ensures var dst, fila := Resolve(cwd, ExportName(nombre, today)), FILA_ENCABEZADO + |datos| + 2;
      && r == Ok(ArchivePath(ExportName(nombre, today)))
      && dst in files' && files'[dst].Sheet?
      && var copy := files'[dst].grid;
         && copy.merged == {SignatureRange(fila)}
         && ValueAt(copy, fila, 1) == Text(FIRMA_LABEL)
         && ReasonCountsWiped(Persisted(h), copy, fila, Checked(datos).value)
         && RowsKept(Persisted(h), copy, fila)
  {
    SavedLayout(g, datos, h);
    ExportLaidOut(cwd, files, nombre, today, r, files', Unmerged(g, g.merged), datos, h);
  }

  lemma ExportLaidOut(cwd: seq<string>, files: Files, nombre: string, today: DateTime, r: Result<string>, files': Files,
                      u: Grid, datos: seq<Record>, h: Grid)
    requires ValidDateTime(today)
    requires Checked(datos).Ok? && forall j :: 0 <= j < |Checked(datos).value| ==> ParseFechaHora(Checked(datos).value[j]).Ok?
    requires LaidOut(h, u, Sorted(Checked(datos).value)) && h.merged == {}
    requires var src := Resolve(cwd, WithXlsx(nombre)); src in files && files[src] == Sheet(Persisted(h))
    requires Exported(cwd, files, nombre, today, r, files')
    ensures var dst, fila := Resolve(cwd, ExportName(nombre, today)), FILA_ENCABEZADO + |datos| + 2;
      && r == Ok(ArchivePath(ExportName(nombre, today)))
      && dst in files' && files'[dst].Sheet?
      && var copy := files'[dst].grid;
         && copy.merged == {SignatureRange(fila)}
         && ValueAt(copy, fila, 1) == Text(FIRMA_LABEL)
         && ReasonCountsWiped(Persisted(h), copy, fila, Checked(datos).value)
         && RowsKept(Persisted(h), copy, fila)
  {
    SignedLedgerCopy(u, datos, h);
  }

  /** The saved ledger signed where the walk puts the signature, as the
      copy persists it. */
  lemma SignedLedgerCopy(u: Grid, datos: seq<Record>, h: Grid)
    requires Checked(datos).Ok? && forall j :: 0 <= j < |Checked(datos).value| ==> ParseFechaHora(Checked(datos).value[j]).Ok?
    requires LaidOut(h, u, Sorted(Checked(datos).value)) && h.merged == {}
    ensures var p, fila := Persisted(h), FILA_ENCABEZADO + |datos| + 2;
      && SignatureRowAsWritten(p) == fila && !Covered(p.merged, fila, 1)
      && var copy := Persisted(Signed(p, fila));
         && copy.merged == {SignatureRange(fila)}
         && ValueAt(copy, fila, 1) == Text(FIRMA_LABEL)
         && ReasonCountsWiped(p, copy, fila, Checked(datos).value)
         && RowsKept(p, copy, fila)
  {
    SignedLedgerRow(u, datos, h);
    SignedLedgerWipes(u, datos, h);
    SignedLedgerKeeps(h, FILA_ENCABEZADO + |datos| + 2);
  }

  /** Where the walk stops on the saved ledger, and the label and merge
      signing puts there. */
  lemma SignedLedgerRow(u: Grid, datos: seq<Record>, h: Grid)
    requires Checked(datos).Ok? && forall j :: 0 <= j < |Checked(datos).value| ==> ParseFechaHora(Checked(datos).value[j]).Ok?
    requires LaidOut(h, u, Sorted(Checked(datos).value)) && h.merged == {}
    ensures var p, fila := Persisted(h), FILA_ENCABEZADO + |datos| + 2;
      && SignatureRowAsWritten(p) == fila && !Covered(p.merged, fila, 1)
      && Persisted(Signed(p, fila)).merged == {SignatureRange(fila)}
      && ValueAt(Persisted(Signed(p, fila)), fila, 1) == Text(FIRMA_LABEL)
  {
    SigningSortedLedger(u, datos, h, 0);
    SignedCopyLabel(h, FILA_ENCABEZADO + |datos| + 2);
  }

  /** Every reason count of the per-reason row is gone from the signed
      copy. */
  lemma SignedLedgerWipes(u: Grid, datos: seq<Record>, h: Grid)
    requires Checked(datos).Ok? && forall j :: 0 <= j < |Checked(datos).value| ==> ParseFechaHora(Checked(datos).value[j]).Ok?
    requires LaidOut(h, u, Sorted(Checked(datos).value))
    ensures var p, fila := Persisted(h), FILA_ENCABEZADO + |datos| + 2;
      ReasonCountsWiped(p, Persisted(Signed(p, fila)), fila, Checked(datos).value)
  {
    forall k | 0 <= k < NUM_MOTIVOS
      ensures var p, fila := Persisted(h), FILA_ENCABEZADO + |datos| + 2;
        && ValueAt(p, fila, COL_MOTIVOS_INICIO + k) == Text(ReasonText(k, CountIf(ReasonFilter(k), Checked(datos).value)))
        && ValueAt(Persisted(Signed(p, fila)), fila, COL_MOTIVOS_INICIO + k) == Empty
    {
      SignedCopyWipes(u, datos, h, k);
    }
  }

  /** Every row but the signature row of the signed copy is as saved. */
  lemma SignedLedgerKeeps(h: Grid, fila: int)
    requires fila >= 1
    ensures RowsKept(Persisted(h), Persisted(Signed(Persisted(h), fila)), fila)
  {
    forall row, c | row != fila ensures Get(Persisted(Signed(Persisted(h), fila)), row, c) == Get(Persisted(h), row, c) {
      SignedCopyKeeps(h, fila, row, c);
    }
  }

  /** Reason k's count on the per-reason row of the saved ledger, and its
      cell in the signed copy, emptied by the merge. */
  lemma SignedCopyWipes(u: Grid, datos: seq<Record>, h: Grid, k: int)
    requires Checked(datos).Ok? && forall j :: 0 <= j < |Checked(datos).value| ==> ParseFechaHora(Checked(datos).value[j]).Ok?
    requires LaidOut(h, u, Sorted(Checked(datos).value)) && 0 <= k < NUM_MOTIVOS
    ensures var p, fila := Persisted(h), FILA_ENCABEZADO + |datos| + 2;
      && ValueAt(p, fila, COL_MOTIVOS_INICIO + k) == Text(ReasonText(k, CountIf(ReasonFilter(k), Checked(datos).value)))
      && ValueAt(Persisted(Signed(p, fila)), fila, COL_MOTIVOS_INICIO + k) == Empty
  {
    var p, fila := Persisted(h), FILA_ENCABEZADO + |datos| + 2;
    SigningSortedLedger(u, datos, h, k);
    GetPersisted(Signed(p, fila), fila, COL_MOTIVOS_INICIO + k);
  }

  // ---------------------------------------------------------------------
  // The archive

  class Archive {
    /** The working directory the relative paths resolve against. */
    const cwd: seq<string>
    var files: Files

    constructor (cwd: seq<string>, files: Files)
      ensures this.cwd == cwd && this.files == files
    {
      this.cwd := cwd;
      this.files := files;
    }

    /** guardar_audiencias_excel */
    method SaveAll(datos: seq<Record>, nombre: string) returns (o: Outcome)
      modifies this
      ensures SavedAll(cwd, old(files), datos, nombre, o, files)
    {
      var plantilla := ValidarNoEsPlantilla(cwd, nombre);
      if plantilla.Fail? {
        return plantilla;
      }
      var key := Resolve(cwd, nombre);
      if key !in files {
        return Fail(FileNotFoundError(MissingMessage(nombre)));
      }
      var formato := LoadFormat(ArchivePath(nombre));
      if formato.Fail? {
        return formato;
      }
      if files[key].NoActiveSheet? {
        return Fail(ValueError(NO_SHEET_MSG));
      }
      o := SaveSheet(key, datos);
    }

    /** Loading the sheet, the save proper, and wb.save only when it
        passed. */
    method SaveSheet(key: seq<string>, datos: seq<Record>) returns (o: Outcome)
      requires key in files && files[key].Sheet?
      modifies this
      ensures SheetSaved(old(files), key, datos, o, files)
    {
      var h;
      o, h := SaveGrid(files[key].grid, datos);
      if o.Pass? {
        files := files[key := Sheet(Persisted(h))];
      }
    }

    /** guardar_una_audiencia_excel */
    method SaveOne(d: Record, nombre: string) returns (r: Result<Report>)
      modifies this
      ensures SavedOne(cwd, old(files), d, nombre, r, files)
    {
      var key := Resolve(cwd, nombre);
      if key !in files {
        return Err(FileNotFoundError(MissingMessage(nombre)));
      }
      var formato := LoadFormat(ArchivePath(nombre));
      if formato.Fail? {
        return Err(formato.error);
      }
      var book := files[key];
      if book.NoActiveSheet? {
        return Err(ValueError(NO_SHEET_MSG));
      }
      var ws := new Worksheet.Load(book.grid);
      var existentes := ReadExisting(ws);
      var dup := DuplicateCheck(existentes, d);
      if dup.Fail? {
        return Err(dup.error);
      }
      existentes := existentes + [d];
      var o := SaveAll(existentes, nombre);
      if o.Fail? {
        return Err(o.error);
      }
      return Ok(Report(OK, |existentes|));
    }

    /** exportar_con_firma, with the date of today as a parameter. */
    method ExportWithSignature(nombre: string, today: DateTime) returns (r: Result<string>)
      requires ValidDateTime(today)
      modifies this
      ensures Exported(cwd, old(files), nombre, today, r, files)
    {
      var n := WithXlsx(nombre);
      var src := Resolve(cwd, n);
      if src !in files {
        return Err(FileNotFoundError(ExportMissingMessage(n)));
      }
      var exportado := ExportName(nombre, today);
      var dst := Resolve(cwd, exportado);
      ghost var before := files;
      files := files[dst := files[src]];
      var book := files[dst];
      if book.NoActiveSheet? {
        files := files - {dst};
        ExportedNoSheet(cwd, before, nombre, today);
        return Err(ValueError(EXPORT_SHEET_MSG));
      }
      var signed := SignSheet(book.grid);
      if signed.Err? {
        ExportedCovered(cwd, before, nombre, today, book.grid);
        return Err(signed.error);
      }
      Overwritten(before, dst, book, Sheet(Persisted(signed.value)));
      files := files[dst := Sheet(Persisted(signed.value))];
      ExportedSigned(cwd, before, nombre, today, book.grid);
      return Ok(ArchivePath(exportado));
    }
  }

  /** The export of a ledger that has no active sheet removes the copy. */
  lemma ExportedNoSheet(cwd: seq<string>, files: Files, nombre: string, today: DateTime)
    requires ValidDateTime(today)
    requires var src := Resolve(cwd, WithXlsx(nombre)); src in files && files[src].NoActiveSheet?
    ensures var src, dst := Resolve(cwd, WithXlsx(nombre)), Resolve(cwd, ExportName(nombre, today));
      Exported(cwd, files, nombre, today, Err(ValueError(EXPORT_SHEET_MSG)), files[dst := files[src]] - {dst})
  {
    var src, dst := Resolve(cwd, WithXlsx(nombre)), Resolve(cwd, ExportName(nombre, today));
    CopyRemoved(files, src, dst);
  }

  /** The export of a ledger whose signature cell is merged fails and
      leaves the unsigned copy. */
  lemma ExportedCovered(cwd: seq<string>, files: Files, nombre: string, today: DateTime, g: Grid)
    requires ValidDateTime(today)
    requires var src := Resolve(cwd, WithXlsx(nombre)); src in files && files[src] == Sheet(g)
    requires Covered(g.merged, SignatureRowAsWritten(g), 1)
    ensures var src, dst := Resolve(cwd, WithXlsx(nombre)), Resolve(cwd, ExportName(nombre, today));
      Exported(cwd, files, nombre, today, Err(AttributeError(READ_ONLY_MSG)), files[dst := files[src]])
  {
  }

  /** The export of any other ledger stores its signed copy. */
  lemma ExportedSigned(cwd: seq<string>, files: Files, nombre: string, today: DateTime, g: Grid)
    requires ValidDateTime(today)
    requires var src := Resolve(cwd, WithXlsx(nombre)); src in files && files[src] == Sheet(g)
    requires !Covered(g.merged, SignatureRowAsWritten(g), 1)
    ensures var dst := Resolve(cwd, ExportName(nombre, today));
      Exported(cwd, files, nombre, today, Ok(ArchivePath(ExportName(nombre, today))),
               files[dst := Sheet(Persisted(Signed(g, SignatureRowAsWritten(g))))])
  {
  }

  /** Writing a key twice keeps the second value only. */
  lemma Overwritten<K, V>(m: map<K, V>, k: K, a: V, b: V)
    ensures m[k := a][k := b] == m[k := b]
  {
  }

  /** Removing a file just written leaves the archive without it, whatever
      it held before. */
  lemma CopyRemoved(files: Files, src: seq<string>, dst: seq<string>)
    requires src in files
    ensures files[dst := files[src]] - {dst} == files - {dst}
  {
  }

  /** The sheet of a workbook after the save steps; o tells whether they
      passed. */
  method SaveGrid(g: Grid, datos: seq<Record>) returns (o: Outcome, h: Grid)
    ensures o.Fail? ==> Saves(g, datos, Err(o.error))
    ensures o.Pass? ==> Saves(g, datos, Ok(h))
  {
    var ws := new Worksheet.Load(g);
    o := SaveToSheet(ws, datos);
    h := ws.Snapshot();
  }
}
