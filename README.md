# Hearings ledger: a verified model of `excel_utils.py`

`excel_utils.py` keeps the hearings (*audiencias*) of a public defender in
an Excel workbook made from a template. Rows 1-10 are the header. Each
hearing takes one row: number, radicado, type, date, time, court, an "X"
under *realizada* (G) or *no realizada* (H), eight reason columns (I..P)
and observations (Q). Below the data come two summary rows:

- a totals row, with the held and not-held counts in G and H;
- a per-reason row, which counts the reasons of the hearings not held.

The module offers three operations:

- **guardar_audiencias_excel** validates every record and sorts them,
  latest first. It then rewrites the data rows and both summary rows.
- **guardar_una_audiencia_excel** reads the rows back, refuses a
  duplicate radicado, appends the record and saves everything again.
- **exportar_con_firma** copies the workbook under a dated name. It adds a
  signature row to the copy, merged across A..Q and framed with thick
  borders.

The model is split as the program is:

- schema.dfy: the constants of lines 12-50.
- `fechahora.dfy`, `hearings.dfy`, `pytext.dfy`: validation, `strptime`,
  and the few string functions that are needed. These are pure functions.
- cells.dfy: an openpyxl worksheet. It is a `Worksheet` class whose
  methods update fields in place. `Grid` is the value snapshot a saved
  file holds, and `Persisted` maps a grid to what a later `load_workbook`
  reads.
- `ledger.dfy`, `totals.dfy`, `styles.dfy`: the loops of the saving
  routine and the style helpers. They are imperative methods, each proved
  equal to a function of the old sheet.
- ordering.dfy: the stable descending sort.
- save.dfy: the whole save, both as a method and as a relation
  `Saves(g, datos, res)`, with the lemmas about the saved ledger.
- readback.dfy: the reading loop of the append operation and the
  duplicate check.
- paths.dfy: `os.path.join`, `abspath`, `Path.stem` and the template
  guard.
- export.dfy: the export name, the walk to the signature row, and the
  signing.
- archive.dfy: the archive directory as a map from resolved paths to
  workbooks, with the three operations as methods of an `Archive` class.
  Each method is tied to a relation (`SavedAll`, `SavedOne`, `Exported`)
  that the lemmas reason about.

The date of today is a parameter of the export. The working directory is a
constant of the archive.

The export follows the code as written: it signs the first row whose G
and H are both empty below the data, which on a saved ledger is the
per-reason totals row (see "## Findings"). The comments at
excel_utils.py:433 and :438 say the walk is meant to pass the data rows and
then both the totals row and the per-reason row, and to sign the row after
them. That corrected walk is modelled beside it (`SignatureRow`), but only to
prove the finding.

The template guard also follows the code as written. It compares the
abspath strings, and posixpath keeps a root of two slashes. So a name that
spells the template's absolute path with two leading slashes gets through
it, although it resolves to the template's path (see "## Findings"). The
corrected guard (`GuardTemplateFile`) is modelled beside it.

Both saving operations open the workbook with openpyxl's `load_workbook`.
Before reading anything, it refuses, with InvalidFileException, a path
whose extension (as `os.path.splitext` finds it, lower-cased) is not
.xlsx, .xlsm, .xltx or .xltm. The model takes this check after the
existence test (`LoadFormat`). The template's own path has no extension,
so the check stops the name that gets past the guard, before anything is
saved. The export opens only its dated copy, whose name always ends in
".xlsx".

## Model

| member | source | states |
|---|---|---|
| Hearings.ParseFechaHora | excel_utils.py:101-114 | A missing or falsy fecha/hora gives the "obligatorios" error. An unparsable pair gives the "inválidas" error quoting both texts. Success yields a date and time that exists in the calendar. |
| FechaHora.ParseText | excel_utils.py:111 | strptime with "%d/%m/%Y %H:%M" only yields dates with a year 1..9999, a valid month, a day the month has, and a valid hour and minute. |
| FechaHora.ParseFormatted | excel_utils.py:111 | "dd/mm/yyyy HH:MM" text parses back to its own date exactly when the calendar has it. So 31/04, 29/02 of a common year, and year 0 are refused. |
| Hearings.ParseFechaHoraFormatted | excel_utils.py:101-114 | A record whose fecha and hora are such texts parses to that date, or else gets the error naming both texts. |
| FechaHora.EarlierIsStrictOrder | excel_utils.py:181 | The order the sort compares datetimes by is a strict total order. |
| Hearings.FirstMissing | excel_utils.py:126-129 | The position of the first falsy required field, with every earlier one truthy. |
| Hearings.ValidatedAccepts | excel_utils.py:116-146 | Validation passes if and only if all six required fields are truthy, the stripped type is one of the 18 allowed types, and the stripped, upper-cased se_realizo is SI or NO. |
| Hearings.ValidatedReportsFirstMissing | excel_utils.py:126-129 | The error names the first falsy required field, in the listed order. |
| Hearings.ValidatedNormalises | excel_utils.py:139-146 | On success se_realizo is "SI" or "NO" and tipo_audiencia is the stripped type. No other key and not the reasons list change. |
| Hearings.ValidatedIdempotent | excel_utils.py:116-146 | Validating an already validated record passes and changes nothing. |
| Hearings.ParseAfterValidation | excel_utils.py:177-181 | Validation leaves the sort key (fecha, hora) untouched. |
| Hearings.Hearing.Validate | excel_utils.py:116-146 | The in-place dict update. On an error the record is unchanged and the error is the one Validated gives. On success the record becomes the normalised one. |
| PyText.StripIdempotent | excel_utils.py:132 | str.strip applied twice strips nothing more. |
| PyText.NatToStringValue | excel_utils.py:259-262 | The decimal text written into the totals labels reads back as the count. |
| Save.CheckRecords | excel_utils.py:176-179 | The validation loop returns exactly what the reference Checked gives: every validated record, or the first error. |
| Save.CheckedAccepts | excel_utils.py:176-179 | The loop gets through if and only if every record passes both validation and parse_fecha_hora. |
| Save.CheckedFirstError | excel_utils.py:176-179 | Otherwise it raises the error of the first record that fails. |
| Save.CheckedValues | excel_utils.py:176-179 | Each record that gets through is the validated record, and its date parses. |
| Ordering.SortDescCorrect | excel_utils.py:181 | Insertion sort yields a permutation ordered by Precedes: latest date first, ties kept in input order. |
| Ordering.SortedByDateSpec | excel_utils.py:181 | `sorted(..., reverse=True)`: the k-th output is input order[k]. Order is a permutation. A later output never has a later date than an earlier one, and equal dates keep their input order (stable). |
| Ordering.CountSortedByDate | excel_utils.py:251-252 | Any count over the sorted list equals the count over the input. |
| Styles.ClearMerged | excel_utils.py:93-99 | limpiar_celdas_combinadas: no merged range is left, and every non-anchor cell of a range is emptied. |
| Styles.UnmergedAt | excel_utils.py:93-99 | After unmerging, a covered, non-anchor cell reads as empty and any other cell is unchanged. |
| Cells.Worksheet.DeleteRows | excel_utils.py:174 | `ws.delete_rows(start, count)`: the sheet becomes RowsDeleted(old, start, count), which Cells.RowsDeletedAt describes cell by cell. |
| Cells.RowsDeletedAt | excel_utils.py:247-248 | After deleting count rows at start, a cell above start is unchanged and a cell at or below start holds what stood count rows lower. |
| Ledger.ClearDataRows | excel_utils.py:171-174 | The sheet becomes Cleared(old): rows 11 .. min(max_row, 299) deleted. |
| Ledger.ClearedAt | excel_utils.py:171-174 | Header rows are kept. A sheet that ended before row 300 is empty below row 10. Otherwise what stood at row 300 and below moves up 289 rows. |
| Save.PreparedAt | excel_utils.py:168-174 | After unmerging and clearing a sheet that ended before row 300, only the header rows remain and no range is merged. |
| Ledger.WriteFields | excel_utils.py:202-218 | Columns A..H and Q of the row are written in source order. G and H are cleared first, then one of them gets the "X". |
| Ledger.WriteReasons | excel_utils.py:220-223 | Each of I..P gets the record's k-th reason, or "" past its end. |
| Ledger.WriteReasonBorders | excel_utils.py:225-228 | Thin borders on I..P. |
| Ledger.WriteRow | excel_utils.py:199-228 | One iteration equals RowWritten: the values of record idx on row 10+idx, over the styles of row 11, with borders on I..P. |
| Ledger.WriteRows | excel_utils.py:199-228 | The loop over the sorted records equals RowsWritten: each row as above, every other cell kept, plus the heights, widths and extent. |
| Ledger.RowMarkers | excel_utils.py:210-223 | G holds "X" if and only if the record was held, and H holds "X" if and only if not; exactly one of the two is "X" and the other "". Reasons beyond the eighth are not written. |
| Ledger.RowWrittenCell | excel_utils.py:199-228 | Row 10+idx holds record idx's values over row 11's styles. |
| Styles.CopyRowStyles | excel_utils.py:489-591 | copiar_estilos_fila equals RowStylesCopied(old). |
| Styles.RowStylesCopiedAt | excel_utils.py:489-591 | The destination row keeps its values and takes the source row's styles in A..Q. Nothing else changes. |
| Styles.RowStylesCopiedDimensions | excel_utils.py:530-591 | The destination row takes the source height, or 20 when the source has none. A stored zero width of A..Q becomes 15. openpyxl reports a width never set as 13, so only a stored zero takes the default. The merges are kept. |
| Totals.StaleRun | excel_utils.py:234-243 | Rows r .. r+k-1 all have a truthy G or H starting with "TOTAL DE". Row r+k does not. |
| Totals.StaleRunReadsMarkersOnly | excel_utils.py:236-243 | The stale-row walk reads only columns G and H. |
| Totals.StaleRemovalIdempotent | excel_utils.py:234-247 | Once the stale rows are deleted, the walk from the same row finds none. |
| Totals.CollectStale | excel_utils.py:234-243 | The collecting loop returns exactly rows start .. start+StaleRun-1. |
| Totals.DeleteBottomUp | excel_utils.py:245-247 | Deleting those rows one by one from the bottom deletes the block. |
| Totals.RemoveStaleTotals | excel_utils.py:234-247 | The sheet afterwards is RowsDeleted(old, start, StaleRun(old, start)). |
| Totals.WriteTotalsRow | excel_utils.py:259-275 | The totals row equals TotalsWritten: both labels, then fill, borders, and aplicar_estilos_totales on G and H. |
| Totals.TotalsWrittenAt | excel_utils.py:259-275 | "TOTAL DE AUDIENCIAS REALIZADAS: n" in G and "... NO REALIZADAS: m" in H, in the totals style. No other cell changes. |
| Totals.TotalsRowIsStale | excel_utils.py:236-265 | The totals row written is exactly what the next save's walk removes. |
| Totals.CountReasons | excel_utils.py:300-308 | The counting loop equals ReasonCounts: for each of I..P, the rows whose H is exactly "X" and whose reason cell is truthy. |
| Totals.WriteReasonTotals | excel_utils.py:309-319 | The per-reason row equals ReasonTotalsWritten. |
| Totals.ReasonTotalsWrittenAt | excel_utils.py:309-319 | Column I+k holds "<reason name>: <count>" in the reason-totals style. No other cell changes. |
| Styles.ApplyTotalsStyle | excel_utils.py:594-611 | aplicar_estilos_totales replaces fill, border and alignment of the cell. |
| Styles.ApplyReasonTotalsStyle | excel_utils.py:613-634 | aplicar_estilos_totales_motivos replaces border, alignment and font. |
| Styles.TotalsStylesOverwrite | excel_utils.py:594-634 | Both helpers are idempotent. Each depends only on the attributes it does not set. |
| Styles.ApplySignatureStyles | excel_utils.py:636-663 | aplicar_estilos_firma equals FirmaStyledFrom(old, fila, 1). |
| Styles.FirmaFrame | excel_utils.py:636-663 | On A..Q of the row: thick top and bottom, thick left only on A, thick right only on Q. Values and other style attributes are kept, and other rows are unchanged. |
| Save.SaveToSheet | excel_utils.py:164-322 | The method that runs every step on the loaded sheet. It ends with Saves(old, datos, Err(e)) or Saves(old, datos, Ok(sheet)). |
| Save.SavesOutcome | excel_utils.py:176-287 | The save succeeds if and only if every record is accepted and there are at most 287 of them. Otherwise: the first invalid record's error; failing that, "Demasiadas audiencias" from 290 records, or "No hay espacio suficiente" for 288-289. |
| Save.TotalsAddUp | excel_utils.py:251-252 | Held plus not-held equals the number of records. |
| Save.CleanStale | excel_utils.py:234-243 | On a sheet cleared as above, no stale totals row is found below the new data. |
| Save.CleanReasonCount | excel_utils.py:300-308 | On a sheet that ended before row 300, counting on the saved sheet gives, per reason, the records not held whose reason is set. |
| Save.FinishedAt | excel_utils.py:199-319 | On a sheet that ended before row 300, every cell of the saved sheet is the reference LedgerCell: header, data rows, totals row, per-reason row, nothing below. |
| Save.SavedLayout | excel_utils.py:164-319 | A successful save leaves the reference layout of the sorted records, with max_row = 12+n and no merged range. |
| Save.SavedRow | excel_utils.py:199-228 | On a sheet that ended before row 300, row 10+i shows the i-th sorted record. Its cells hold its values with the bordered style. G is "X" exactly when held and H exactly when not, never both. I..P hold its first eight reasons. |
| Save.SavedTotals | excel_utils.py:251-275 | On a sheet that ended before row 300, row 11+n holds the held and not-held counts in G and H, and they add up to n. |
| Save.SavedReasonTotals | excel_utils.py:296-319 | On a sheet that ended before row 300, row 12+n holds, in column I+k, the k-th reason name and the number of records not held with that reason set. |
| ReadBack.ReadRow | excel_utils.py:345-368 | The loop body builds RowRecord of the row: the fields, se_realizo from the "X" markers, and the eight reasons with None read as "". |
| ReadBack.MarkerReadsBack | excel_utils.py:346-352 | The G/H markers of a saved row read back as the record's se_realizo: SI when held, NO when not. |
| ReadBack.ReadExisting | excel_utils.py:343-369 | The reading loop returns Existing(sheet): one record per row from 11 while B is truthy. |
| ReadBack.DataRun | excel_utils.py:345 | Rows r .. r+k-1 have a truthy radicado and row r+k does not. |
| ReadBack.AnyWithKey | excel_utils.py:373-375 | `any(...)` if and only if some record has the stripped radicado key. |
| ReadBack.DuplicateCheck | excel_utils.py:372-377 | Refuses d if and only if some record has d's stripped radicado. The error is "Ya existe una audiencia con el radicado '<key>'." |
| ReadBack.RowReadsBack | excel_utils.py:343-369 | A saved data row, once reloaded, reads back as the record's stored form. |
| ReadBack.SavedReadsBack | excel_utils.py:343-369 | After a save, the read-back yields one record per saved record, the stored forms of the sorted records in order. Nothing comes from the totals rows. |
| Paths.ValidarNoEsPlantilla | excel_utils.py:389-401 | Fails if and only if the abspath string of archivos/nombre equals the template's: the same normalised segments and the same root, where posixpath keeps a root of exactly two slashes. The error is the template message, and every refused name resolves to the template's path. |
| Paths.GuardTemplateFile | excel_utils.py:389-393 | Corrected guard: fails if and only if the name resolves to the template's path, whatever its root. It refuses everything ValidarNoEsPlantilla refuses, with the same message. |
| Paths.TwoSlashNameBypassesGuard | excel_utils.py:394-397 | With working directory /w, the name "//w/Plantillas/plantilla_base" resolves to the template's path, yet ValidarNoEsPlantilla passes it. |
| Paths.ExtensionOfSuffix | excel_utils.py:163 | `os.path.splitext`: a path ending in a dotted suffix without further dots or slashes, after a character that is neither, has that suffix as its extension. |
| Paths.ExtensionOfSegment | excel_utils.py:163 | A path whose last segment holds no dot has no extension, whatever dots its directories hold. |
| Paths.DotNameHasNoExtension | excel_utils.py:163 | A last segment made of leading dots and a suffix, such as ".xlsx", has no extension. |
| Paths.TwoSlashNameRefused | excel_utils.py:389-393 | GuardTemplateFile refuses that same name with the template message. |
| Paths.PlainNameIsNotTemplate | excel_utils.py:389-401 | A bare file name never hits the template. |
| Paths.ClimbingNameIsTemplate | excel_utils.py:389-401 | "../Plantillas/plantilla_base" is caught by the guard. |
| Paths.StemOfXlsx | excel_utils.py:417 | Path(...).stem of a ".xlsx" name is its last segment without the suffix. |
| Export.WithXlsx | excel_utils.py:409-410 | The name ends in ".xlsx" and starts with the given name. The suffix is added only when missing. |
| Export.DateStamp | excel_utils.py:418 | Eight digits: the four-digit year, then the month and day in two digits each. |
| Export.ExportNameParts | excel_utils.py:417-419 | The copy's name is stem + "_exportado_" + date + ".xlsx", and it is a single path segment. |
| Export.CopyIsElsewhere | excel_utils.py:412-420 | The copy's path never equals the source's. |
| Export.FindSignatureRow | excel_utils.py:432-441 | The two loops return SignatureRowAsWritten: past the rows with a truthy radicado, then past the rows whose G or H is truthy, and no further. |
| Export.LaidOutSignatureRows | excel_utils.py:432-441 | On a saved ledger of n records, the walk as written stops at 12+n, the per-reason row. The corrected walk, which also steps over a row whose I is set, stops at 13+n. |
| Export.AddSignature | excel_utils.py:447-480 | The signing steps equal Signed(old, fila). |
| Export.LabelAndMerge | excel_utils.py:458-467 | The label written in A and centered, then A..Q merged. |
| Export.SetSignatureBorder | excel_utils.py:470-480 | One border-loop turn. The second assignment on Q overrides the first. |
| Export.SignedAt | excel_utils.py:443-480 | A holds the label, centered, with a thick box. B..Q are emptied by the merge and get thick top and bottom, plus a thick right on Q. The range joins the merged set, and other cells are kept. |
| Export.SignatureFrame | excel_utils.py:443-480 | The signature row's frame: top and bottom thick on A..Q, left thick only on A, right thick only on A and Q. The label is in A and the range is merged. Other rows are unchanged. |
| Export.SignSheet | excel_utils.py:432-480 | When A of the signature row lies inside an earlier merge, writing the label raises AttributeError. Otherwise the sheet is signed at the row the G/H walk finds (SignatureRowAsWritten). |
| Export.SavedAsWrittenWipes | excel_utils.py:432-467 | Finding: on a saved ledger the walk as written picks row 12+n, which holds the per-reason counts, and signing it empties I..P. |
| Export.SavedSignatureKeeps | excel_utils.py:432-480 | The corrected half of the finding, which the export does not use: signing at the corrected walk's row 13+n = max_row+1 would leave every other row of the saved ledger as it was. |
| Archive.Archive.SaveAll | excel_utils.py:148-322 | guardar_audiencias_excel on the archive satisfies SavedAll: template check, missing file, load_workbook's extension check, missing sheet, then the save. |
| Archive.SavedAllOutcome | excel_utils.py:148-322 | Success if and only if: ValidarNoEsPlantilla passes the name, the file exists, load_workbook opens its extension, it has a sheet, all records accepted, at most 287 of them. An unsupported extension gives InvalidFileException with openpyxl's message. Every error leaves all files unchanged; success changes only the ledger's file. |
| Archive.SavedAllReadsBack | excel_utils.py:148-369 | After a successful save, reading the file back gives the stored forms of the records, latest first. |
| Archive.Archive.SaveOne | excel_utils.py:325-387 | guardar_una_audiencia_excel on the archive satisfies SavedOne: missing file, load_workbook's extension check, missing sheet, read back, duplicate check, save with d appended, report. |
| Archive.LoadFormat | excel_utils.py:163 | load_workbook's first step: passes if and only if the path's lower-cased extension is one of the four openpyxl opens, otherwise InvalidFileException with openpyxl's message for that extension. |
| Archive.TwoSlashTemplateUnsupported | excel_utils.py:163 | "//w/Plantillas/plantilla_base" has no extension, so load_workbook refuses it. |
| Archive.TwoSlashTemplateNotOpened | excel_utils.py:148-163 | The save under "//w/Plantillas/plantilla_base" passes the guard, but with the template present it fails with InvalidFileException and no file changes. |
| Archive.ExportCopySupported | excel_utils.py:419-426 | The copy the export opens has the extension ".xlsx", so load_workbook never refuses it. |
| Archive.SavedOneOutcome | excel_utils.py:325-387 | Errors change no file. A missing file gives FileNotFoundError, an unsupported extension InvalidFileException, a duplicate radicado gives the duplicate error. Success holds if and only if the extension is supported, there is no duplicate and saving the read rows plus d passes. It then reports "ok" and one more record than were read. |
| Archive.SavedDuplicate | excel_utils.py:372-377 | On a ledger saved over a sheet that ended before row 300, the duplicate check refuses d if and only if one of the saved records has d's radicado. |
| Archive.AppendAfterSave | excel_utils.py:325-387 | Append right after a save: a radicado among those saved is refused and nothing changes. Success reports |datos|+1 records. |
| Archive.Archive.ExportWithSignature | excel_utils.py:403-484 | exportar_con_firma on the archive satisfies Exported: a missing source, no active sheet (copy removed again), a merged A on the signature row (AttributeError, unsigned copy kept), or the copy signed at the row the G/H walk finds. |
| Archive.ExportedFrame | excel_utils.py:403-484 | The source file is never changed and only the copy's path can change. A missing source gives FileNotFoundError and no change. Success returns archivos/<export name> with a sheet there. |
| Archive.ExportedNoSheet | excel_utils.py:428-431 | With no active sheet the copy is deleted again and the error is ValueError. |
| Archive.ExportSavedLedger | excel_utils.py:403-484 | Exporting a freshly saved ledger succeeds. The signature lands on row 12+n, the per-reason row: the copy's only merge is A..Q of that row, A holds the label, and I..P, which held the eight reason counts, are empty. Every other row equals the saved ledger. |

## Left out

- Disk I/O is modelled as the `Files` map: `os.path.exists`, `load_workbook`, `wb.save`, `shutil.copy2` and `os.unlink`. `load_workbook`'s extension check is modelled (`LoadFormat`). A file with a supported extension that is not a valid workbook archive (openpyxl's BadZipFile and the like) is not: every file in the map is a workbook. The message texts follow openpyxl's reader (openpyxl/reader/excel.py), which is not part of this model. `str.lower()` is taken on ASCII letters only, so a non-ASCII extension appears in the message as written. File metadata copied by `copy2`, `wb.close`, file locking and concurrent writers are not modelled.
- `date.today()` is a parameter of the export. The working directory behind `os.path.abspath` is a constant of the archive.
- Export.DateStamp: always pads the year to four digits. glibc's `%Y` does not pad years below 1000. Such years do not occur as the date of today.
- Row heights and column widths are `real`s, not floats. Only the `or 20.0` / `or 15.0` defaults are modelled.
- Style objects keep only the attributes the ledger reads or writes: font, fill, border sides, alignment, number format. Colour objects are opaque labels, and openpyxl's own border formatting of a new merge is not modelled, because the loop that follows overwrites those borders.
- Reading a cell with `ws.cell(...)` creates it in openpyxl and can raise `max_row`. The model's reads create nothing.
- Only the part of `str.upper` that can make a text equal "SI" or "NO" is modelled: ASCII letters plus the two characters whose upper case is an ASCII letter.
- Save.SavedLayout: proved only for sheets that ended before row 300. On a longer sheet, clearing moves the rows from 300 on up to row 11, and the laid-out form does not hold. `Save.SaveToSheet` and `Ledger.ClearedAt` model that case as written.
- ReadBack.SavedReadsBack: needs the same row-300 bound, because it is built on `Save.SavedLayout`.
- Save.FinishedAt: needs the same row-300 bound as `Save.SavedLayout`, for the same reason: on a longer sheet the old rows from 300 on move up into the laid-out rows.
- Save.SavedRow: needs the same row-300 bound as `Save.SavedLayout`, for the same reason: on a longer sheet the old rows from 300 on move up into the laid-out rows.
- Save.SavedTotals: needs the same row-300 bound as `Save.SavedLayout`, for the same reason: on a longer sheet the old rows from 300 on move up into the laid-out rows.
- Save.SavedReasonTotals: needs the same row-300 bound as `Save.SavedLayout`, for the same reason: on a longer sheet the old rows from 300 on move up into the laid-out rows.
- Save.CleanReasonCount: needs the same row-300 bound as `Save.SavedLayout`, for the same reason: on a longer sheet the old rows from 300 on move up into the laid-out rows.
- Archive.SavedDuplicate: needs the same row-300 bound as `Save.SavedLayout`, for the same reason: on a longer sheet the old rows from 300 on move up into the laid-out rows.
- Archive.SavedAllReadsBack: needs the same row-300 bound.
- Archive.AppendAfterSave: needs the same row-300 bound, and proves only the refusal direction and the count, not that a fresh record is always accepted.
- Export.SavedSignatureKeeps: needs the same row-300 bound.
- Archive.ExportSavedLedger: needs the same row-300 bound.
- Export.SavedAsWrittenWipes: needs the same row-300 bound.
- Ledger.WriteFields: openpyxl checks every text written into a cell. Text holding a control character (\x00-\x08, \x0b, \x0c, \x0e-\x1f) raises IllegalCharacterError, and text longer than 32767 characters is cut there. The model writes any text unchanged, so a radicado such as "12\x01" passes, although the source raises at line 204 and saves nothing.
- Ledger.WriteReasons: the same openpyxl text check is not modelled for the reason cells.
- Save.SavesOutcome: gives Ok for records whose text openpyxl would refuse or cut, as above. The same holds for Save.SaveToSheet, Archive.SavedAllOutcome and Archive.SavedOneOutcome, which build on it.
- Cell values are None, an integer or a text, and a record's reasons are a list of such values. The JSON body the API passes can also carry booleans, floats, lists, objects, or a reasons value that is not a list. For example, `"motivos": null` raises TypeError at `len(None)` (line 221), and `"motivos": "abc"` writes 'a', 'b', 'c' into I..K. Neither case can be expressed in the model.
- FechaHora.ParseText: reads only the ASCII digits 0-9. strptime's `\d` and `int()` also take other Unicode decimal digits, so the source also accepts a date written in Arabic-Indic digits, and the model refuses it.
- The FastAPI example at the end of the file is not modelled, nor are `crear_copia_plantilla` and `listar_archivos`. main.py, cliente_api.py and convertir.py are not part of this model.

## Findings

| source | as written | input that shows it | evidently intended | confidence | as-written member | corrected member |
|---|---|---|---|---|---|---|
| excel_utils.py:433-441 | The second walk only skips rows whose G or H holds a value. The per-reason totals row has values only in I..P, so the signature lands on it. Merging A..Q then empties the eight reason counts of the exported copy. | Any ledger saved with n records: the walk stops at row 12+n, the per-reason row. | The comments at :433 ("the last row with data, including totals and reasons") and :438 ("move past the totals and the reasons") ask for the walk to pass both summary rows. So the signature goes on row 13+n, and the data and summary rows of the copy stay as they were saved. | high, not executed | Export.SavedAsWrittenWipes | Export.SavedSignatureKeeps |
| excel_utils.py:394-397 | The guard compares the two `os.path.abspath` strings. posixpath keeps a leading "//" while the template's abspath starts with one slash, so a name that spells the template's absolute path with two slashes compares unequal. The name still resolves to the template's path. | Working directory /w and the name "//w/Plantillas/plantilla_base": the guard passes it. No current caller can overwrite the template through it: the template has no extension, and load_workbook at :163 refuses the path before anything is saved (`Archive.TwoSlashTemplateNotOpened`). The guard's own promise is broken, but it has no effect on the files today. | The docstring at :390-392 says the guard refuses any use of the template file itself, so that name is refused too. | high that the guard passes it; low impact, since load_workbook stops it; not executed | Paths.TwoSlashNameBypassesGuard | Paths.TwoSlashNameRefused |
