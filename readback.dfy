// The first half of guardar_una_audiencia_excel (excel_utils.py:343-377):
// the data rows of the sheet read back into hearing records, and the check
// that the new record's radicado is not among them.

module ReadBack {
  import opened PyText
  import opened Schema
  import opened Cells
  import opened Hearings
  import opened FechaHora
  import opened Ordering
  import opened Styles
  import opened Ledger
  import opened Save

  // ---------------------------------------------------------------------
  // Reading the rows back (excel_utils.py:344-370)

  /** se_realizo as the row shows it: "SI" for an "X" in G, else "NO" for
      one in H, else "". */
  function MarkerFromRow(g: Grid, r: int): (m: string)
    ensures m == SI || m == NO || m == ""
  {
    var si, no := ValueAt(g, r, COL_REALIZADO_SI), ValueAt(g, r, COL_REALIZADO_NO);
    if Truthy(si) && Strip(Str(si)) == X then SI
    else if Truthy(no) && Strip(Str(no)) == X then NO
    else ""
  }

  /** The reasons of row r, I..P, with empty cells read as "". */
  function RowReasons(g: Grid, r: int): (m: seq<Value>)
    ensures |m| == NUM_MOTIVOS
    ensures forall k :: 0 <= k < NUM_MOTIVOS ==> m[k] == OrEmpty(ValueAt(g, r, COL_MOTIVOS_INICIO + k))
  {
    seq(NUM_MOTIVOS, k requires 0 <= k < NUM_MOTIVOS => OrEmpty(ValueAt(g, r, COL_MOTIVOS_INICIO + k)))
  }

  /** The record rebuilt from row r. */
  function RowRecord(g: Grid, r: int): Record {
    Record(
      map[K_RADICADO := ValueAt(g, r, COL_RADICADO),
          K_TIPO := ValueAt(g, r, COL_TIPO),
          K_FECHA := ValueAt(g, r, COL_FECHA),
          K_HORA := ValueAt(g, r, COL_HORA),
          K_JUZGADO := ValueAt(g, r, COL_JUZGADO),
          K_SE_REALIZO := Text(MarkerFromRow(g, r)),
          K_OBSERVACIONES := ValueAt(g, r, COL_OBSERVACIONES)],
      RowReasons(g, r))
  }

  /** The number of rows from r on whose radicado cell is truthy, up to
      the first that is not. */
  function DataRun(g: Grid, r: int): (k: nat)
    ensures forall j :: r <= j < r + k ==> Truthy(ValueAt(g, j, COL_RADICADO))
    ensures !Truthy(ValueAt(g, r + k, COL_RADICADO))
    decreases MaxRow(g) + 1 - r
  {
    if !Truthy(ValueAt(g, r, COL_RADICADO)) then 0
    else
      assert r <= MaxRow(g);
      1 + DataRun(g, r + 1)
  }

  /** The records the loop collects: one per row from 11 while B is
      truthy. */
  function Existing(g: Grid): (recs: seq<Record>)
    ensures |recs| == DataRun(g, FILA_ENCABEZADO + 1)
    ensures forall i :: 0 <= i < |recs| ==> recs[i] == RowRecord(g, FILA_ENCABEZADO + 1 + i)
  {
    seq(DataRun(g, FILA_ENCABEZADO + 1), i requires 0 <= i => RowRecord(g, FILA_ENCABEZADO + 1 + i))
  }

  /** The body of the reading loop: the record of row fila. */
  method ReadRow(ws: Worksheet, fila: int) returns (registro: Record)
    ensures registro == RowRecord(ws.Snapshot(), fila)
  {
    ghost var g := ws.Snapshot();
    var valorSi := ws.At(fila, COL_REALIZADO_SI).value;
    var valorNo := ws.At(fila, COL_REALIZADO_NO).value;
    var seRealizo := "";
    if Truthy(valorSi) && Strip(Str(valorSi)) == X {
      seRealizo := SI;
    } else if Truthy(valorNo) && Strip(Str(valorNo)) == X {
      seRealizo := NO;
    }
    var motivos: seq<Value> := [];
    var col := COL_MOTIVOS_INICIO;
    while col <= COL_MOTIVOS_FIN
      invariant COL_MOTIVOS_INICIO <= col <= COL_MOTIVOS_FIN + 1
      invariant |motivos| == col - COL_MOTIVOS_INICIO
      invariant forall k :: 0 <= k < |motivos| ==> motivos[k] == RowReasons(g, fila)[k]
    {
      assert RowReasons(g, fila)[col - COL_MOTIVOS_INICIO] == OrEmpty(ws.At(fila, col).value);
      motivos := motivos + [OrEmpty(ws.At(fila, col).value)];
      col := col + 1;
    }
    assert motivos == RowReasons(g, fila);
    registro := Record(
      map[K_RADICADO := ws.At(fila, COL_RADICADO).value,
          K_TIPO := ws.At(fila, COL_TIPO).value,
          K_FECHA := ws.At(fila, COL_FECHA).value,
          K_HORA := ws.At(fila, COL_HORA).value,
          K_JUZGADO := ws.At(fila, COL_JUZGADO).value,
          K_SE_REALIZO := Text(seRealizo),
          K_OBSERVACIONES := ws.At(fila, COL_OBSERVACIONES).value],
      motivos);
  }

  method ReadExisting(ws: Worksheet) returns (existentes: seq<Record>)
    ensures existentes == Existing(ws.Snapshot())
  {
    ghost var g := ws.Snapshot();
    ghost var n := DataRun(g, FILA_ENCABEZADO + 1);
    existentes := [];
    var fila := FILA_ENCABEZADO + 1;
    while Truthy(ws.At(fila, COL_RADICADO).value)
      invariant FILA_ENCABEZADO + 1 <= fila <= FILA_ENCABEZADO + 1 + n
      invariant |existentes| == fila - FILA_ENCABEZADO - 1
      invariant forall i :: 0 <= i < |existentes| ==> existentes[i] == RowRecord(g, FILA_ENCABEZADO + 1 + i)
      decreases MaxRow(g) + 1 - fila
    {
      var registro := ReadRow(ws, fila);
      existentes := existentes + [registro];
      fila := fila + 1;
    }
    assert !Truthy(ValueAt(g, fila, COL_RADICADO));
    assert fila == FILA_ENCABEZADO + 1 + n;
  }

  // ---------------------------------------------------------------------
  // The duplicate check (excel_utils.py:372-377)

  /** str(d.get('radicado', '')).strip() */
  function RadicadoKey(d: Record): string {
    Strip(Str(FieldOr(d, K_RADICADO, Text(""))))
  }

  function DuplicateMessage(radicado: string): string {
    "Ya existe una audiencia con el radicado '" + radicado + "'."
  }

  /** any(str(a.get('radicado', '')).strip() == key for a in existentes),
      scanning from the front. */
  function AnyWithKey(existentes: seq<Record>, key: string): (b: bool)
    ensures b <==> exists i :: 0 <= i < |existentes| && RadicadoKey(existentes[i]) == key
  {
    if existentes == [] then false
    else if RadicadoKey(existentes[0]) == key then true
    else
      var rest := AnyWithKey(existentes[1..], key);
      assert forall i :: 1 <= i < |existentes| ==> existentes[i] == existentes[1..][i - 1];
      rest
  }

  /** The check: the error raised for a duplicate, or nothing. */
  function DuplicateCheck(existentes: seq<Record>, d: Record): (o: Outcome)
    ensures o.Fail? <==> exists i :: 0 <= i < |existentes| && RadicadoKey(existentes[i]) == RadicadoKey(d)
    ensures o.Fail? ==> o.error == ValueError(DuplicateMessage(RadicadoKey(d)))
  {
    if AnyWithKey(existentes, RadicadoKey(d)) then Fail(ValueError(DuplicateMessage(RadicadoKey(d)))) else Pass
  }

  // ---------------------------------------------------------------------
  // What reading back a saved ledger gives

  /** Record d as its row reads back once saved: the same fields with ""
      read as None, se_realizo as "SI" or "NO", and exactly eight reasons,
      the first eight of d's padded with "". */
  function Stored(d: Record): Record {
    Record(
      map[K_RADICADO := PersistValue(Field(d, K_RADICADO)),
          K_TIPO := PersistValue(Field(d, K_TIPO)),
          K_FECHA := PersistValue(Field(d, K_FECHA)),
          K_HORA := PersistValue(Field(d, K_HORA)),
          K_JUZGADO := PersistValue(Field(d, K_JUZGADO)),
          K_SE_REALIZO := Text(if HeldSi(d) then SI else NO),
          K_OBSERVACIONES := PersistValue(FieldOr(d, K_OBSERVACIONES, Text("")))],
      seq(NUM_MOTIVOS, k requires 0 <= k < NUM_MOTIVOS => OrEmpty(ReasonValue(d, k))))
  }

  /** The radicado of a stored record is d's, as persisted: the other keys
      of the stored map all begin with another letter. */
  lemma StoredRadicado(d: Record)
    ensures K_RADICADO in Stored(d).fields
    ensures Stored(d).fields[K_RADICADO] == PersistValue(Field(d, K_RADICADO))
  {
    var v := PersistValue(Field(d, K_RADICADO));
    var m := map[K_RADICADO := v];
    assert K_RADICADO[0] == 'r' && K_TIPO[0] == 't' && K_FECHA[0] == 'f' && K_HORA[0] == 'h';
    assert K_JUZGADO[0] == 'j' && K_SE_REALIZO[0] == 's' && K_OBSERVACIONES[0] == 'o';
    assert Stored(d).fields == m[K_TIPO := PersistValue(Field(d, K_TIPO))]
      [K_FECHA := PersistValue(Field(d, K_FECHA))][K_HORA := PersistValue(Field(d, K_HORA))]
      [K_JUZGADO := PersistValue(Field(d, K_JUZGADO))][K_SE_REALIZO := Text(if HeldSi(d) then SI else NO)]
      [K_OBSERVACIONES := PersistValue(FieldOr(d, K_OBSERVACIONES, Text("")))];
  }

  /** Reason k of a saved row reads back as d's, or "" past its end. */
  lemma ReasonReadsBack(h: Grid, fila: int, idx: int, d: Record, k: int)
    requires 0 <= k < NUM_MOTIVOS
    requires ValueAt(h, fila, COL_MOTIVOS_INICIO + k) == RowValue(idx, d, COL_MOTIVOS_INICIO + k)
    ensures RowReasons(Persisted(h), fila)[k] == OrEmpty(ReasonValue(d, k))
  {
    var c := COL_MOTIVOS_INICIO + k;
    GetPersisted(h, fila, c);
    assert RowValue(idx, d, c) == ReasonValue(d, k);
    assert RowReasons(Persisted(h), fila)[k] == OrEmpty(PersistValue(ReasonValue(d, k)));
  }

  /** Column c of a saved row reads back as the value written, with ""
      read as None. */
  lemma ValueReadsBack(h: Grid, fila: int, idx: int, d: Record, c: int)
    requires ValueAt(h, fila, c) == RowValue(idx, d, c)
    ensures ValueAt(Persisted(h), fila, c) == PersistValue(RowValue(idx, d, c))
  {
    GetPersisted(h, fila, c);
  }

  /** The reasons of a saved row read back as d's first eight, padded
      with "". */
  lemma ReasonsReadBack(h: Grid, fila: int, idx: int, d: Record)
    requires forall c :: 1 <= c <= LAST_COL ==> ValueAt(h, fila, c) == RowValue(idx, d, c)
    ensures RowReasons(Persisted(h), fila) == Stored(d).motivos
  {
    forall k | 0 <= k < NUM_MOTIVOS
      ensures RowReasons(Persisted(h), fila)[k] == Stored(d).motivos[k]
    {
      ReasonReadsBack(h, fila, idx, d, k);
    }
  }

  /** The marker columns of a saved row read back as d's se_realizo. */
  lemma MarkerReadsBack(h: Grid, fila: int, idx: int, d: Record)
    requires HeldSi(d) || HeldNo(d)
    requires ValueAt(h, fila, COL_REALIZADO_SI) == RowValue(idx, d, COL_REALIZADO_SI)
    requires ValueAt(h, fila, COL_REALIZADO_NO) == RowValue(idx, d, COL_REALIZADO_NO)
    ensures MarkerFromRow(Persisted(h), fila) == if HeldSi(d) then SI else NO
  {
    RowMarkers(idx, d);
    ValueReadsBack(h, fila, idx, d, COL_REALIZADO_SI);
    ValueReadsBack(h, fila, idx, d, COL_REALIZADO_NO);
    if HeldSi(d) {
      assert RowValue(idx, d, COL_REALIZADO_SI) == Text(X);
      MarkerSi(Persisted(h), fila);
    } else {
      assert RowValue(idx, d, COL_REALIZADO_SI) == Text("");
      assert RowValue(idx, d, COL_REALIZADO_NO) == Text(X);
      MarkerNo(Persisted(h), fila);
    }
  }

  /** An "X" in G reads as "SI". */
  lemma MarkerSi(p: Grid, fila: int)
    requires ValueAt(p, fila, COL_REALIZADO_SI) == PersistValue(Text(X))
    ensures MarkerFromRow(p, fila) == SI
  {
    StripX();
  }

  /** G left empty and an "X" in H reads as "NO". */
  lemma MarkerNo(p: Grid, fila: int)
    requires ValueAt(p, fila, COL_REALIZADO_SI) == PersistValue(Text(""))
    requires ValueAt(p, fila, COL_REALIZADO_NO) == PersistValue(Text(X))
    ensures MarkerFromRow(p, fila) == NO
  {
    StripX();
  }

  lemma StripX()
    ensures Strip(X) == X
  {
    assert forall i :: 0 <= i < |X| ==> !IsSpace(X[i]);
  }

  /** A record's data row, once saved and loaded again, reads back as the
      stored form of the record. */
  lemma RowReadsBack(h: Grid, fila: int, idx: int, d: Record)
    requires HeldSi(d) || HeldNo(d)
    requires forall c :: 1 <= c <= LAST_COL ==> ValueAt(h, fila, c) == RowValue(idx, d, c)
    ensures RowRecord(Persisted(h), fila) == Stored(d)
  {
    FieldsReadBack(h, fila, idx, d);
    ReasonsReadBack(h, fila, idx, d);
  }

  /** The named fields of a saved row read back as those of d's stored
      form. */
  lemma FieldsReadBack(h: Grid, fila: int, idx: int, d: Record)
    requires HeldSi(d) || HeldNo(d)
    requires forall c :: 1 <= c <= LAST_COL ==> ValueAt(h, fila, c) == RowValue(idx, d, c)
    ensures RowRecord(Persisted(h), fila).fields == Stored(d).fields
  {
    ValueReadsBack(h, fila, idx, d, COL_RADICADO);
    ValueReadsBack(h, fila, idx, d, COL_TIPO);
    ValueReadsBack(h, fila, idx, d, COL_FECHA);
    ValueReadsBack(h, fila, idx, d, COL_HORA);
    ValueReadsBack(h, fila, idx, d, COL_JUZGADO);
    ValueReadsBack(h, fila, idx, d, COL_OBSERVACIONES);
    MarkerReadsBack(h, fila, idx, d);
  }

  /** The run of data rows read back from a sheet laid out as the ledger
      of recs is exactly as long as recs: the totals row below has no
      radicado. */
  lemma LaidOutRun(h: Grid, u: Grid, recs: seq<Record>)
    requires LaidOut(h, u, recs)
    requires forall i :: 0 <= i < |recs| ==> Truthy(Field(recs[i], K_RADICADO))
    ensures DataRun(Persisted(h), FILA_ENCABEZADO + 1) == |recs|
  {
    var p := Persisted(h);
    var n := |recs|;
    forall j | FILA_ENCABEZADO + 1 <= j < FILA_ENCABEZADO + 1 + n ensures Truthy(ValueAt(p, j, COL_RADICADO)) {
      GetPersisted(h, j, COL_RADICADO);
      assert Get(h, j, COL_RADICADO) == LedgerCell(u, recs, j, COL_RADICADO);
    }
    GetPersisted(h, FILA_ENCABEZADO + 1 + n, COL_RADICADO);
    assert Get(h, FILA_ENCABEZADO + 1 + n, COL_RADICADO) == LedgerCell(u, recs, FILA_ENCABEZADO + 1 + n, COL_RADICADO);
    DataRunExact(p, FILA_ENCABEZADO + 1, n);
  }

  lemma {:induction false} DataRunExact(g: Grid, r: int, k: nat)
    requires forall j :: r <= j < r + k ==> Truthy(ValueAt(g, j, COL_RADICADO))
    requires !Truthy(ValueAt(g, r + k, COL_RADICADO))
    ensures DataRun(g, r) == k
    decreases k
  {
    if k > 0 {
      assert Truthy(ValueAt(g, r, COL_RADICADO));
      DataRunExact(g, r + 1, k - 1);
    }
  }

  /** Row 11 + i of such a sheet reads back as the stored form of
      recs[i]. */
  lemma LaidOutRowReadsBack(h: Grid, u: Grid, recs: seq<Record>, i: int)
    requires LaidOut(h, u, recs) && 0 <= i < |recs|
    requires HeldSi(recs[i]) || HeldNo(recs[i])
    ensures RowRecord(Persisted(h), FILA_ENCABEZADO + 1 + i) == Stored(recs[i])
  {
    var fila := FILA_ENCABEZADO + 1 + i;
    forall c | 1 <= c <= LAST_COL ensures ValueAt(h, fila, c) == RowValue(i + 1, recs[i], c) {
      assert Get(h, fila, c) == LedgerCell(u, recs, fila, c);
    }
    RowReadsBack(h, fila, i + 1, recs[i]);
  }

  /** Reading back a sheet laid out as the ledger of recs gives the stored
      form of each record, in order, and nothing from the totals rows. */
  lemma LaidOutReadsBack(h: Grid, u: Grid, recs: seq<Record>)
    requires LaidOut(h, u, recs)
    requires forall i :: 0 <= i < |recs| ==> Held(recs[i])
    requires forall i :: 0 <= i < |recs| ==> HasRadicado(recs[i])
    ensures |Existing(Persisted(h))| == |recs|
    ensures forall i :: 0 <= i < |recs| ==> Existing(Persisted(h))[i] == Stored(recs[i])
  {
    LaidOutRun(h, u, recs);
    forall i | 0 <= i < |recs| ensures Existing(Persisted(h))[i] == Stored(recs[i]) {
      LaidOutRowReadsBack(h, u, recs, i);
    }
  }

  /** After a save, reading the ledger back gives the stored form of the
      sorted records, one per data row. */
  lemma SavedReadsBack(g: Grid, datos: seq<Record>, h: Grid)
    requires Saves(g, datos, Ok(h)) && MaxRow(g) < MAX_FILA_PERMITIDA
    ensures Checked(datos).Ok? && forall i :: 0 <= i < |Checked(datos).value| ==> ParseFechaHora(Checked(datos).value[i]).Ok?
    ensures var sorted := Sorted(Checked(datos).value);
      && |Existing(Persisted(h))| == |datos|
      && forall i :: 0 <= i < |datos| ==> Existing(Persisted(h))[i] == Stored(sorted[i])
  {
    SavedLayout(g, datos, h);
    SortedHeld(datos);
    var valid := Checked(datos).value;
    LaidOutReadsBack(h, Unmerged(g, g.merged), Sorted(valid));
  }
}
