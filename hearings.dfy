// A hearing record (the dict the API hands to the ledger, or the one the
// ledger rebuilds from a sheet row), its validation and normalisation
// (excel_utils.py:116-146), and the parse of its date and time
// (excel_utils.py:101-114).

module Hearings {
  import opened PyText
  import opened Schema
  import opened Cells
  import opened FechaHora

  /** The dict of one hearing: `fields` holds the keys present (a key that
      maps to Empty holds None); `motivos` is the list under "motivos",
      [] when that key is absent. */
  datatype Record = Record(fields: map<string, Value>, motivos: seq<Value>)

  /** d.get(key) */
  function Field(d: Record, key: string): Value {
    if key in d.fields then d.fields[key] else Empty
  }

  /** d.get(key, fallback) */
  function FieldOr(d: Record, key: string, fallback: Value): Value {
    if key in d.fields then d.fields[key] else fallback
  }

  function RequiredMessage(campo: string): string {
    "El campo '" + campo + "' es obligatorio."
  }

  function TipoMessage(tipo: string): string {
    "El tipo de audiencia '" + tipo + "' no es válido. "
    + "Debe ser uno de los siguientes valores: " + JoinWith(", ", TIPOS_AUDIENCIA_VALIDOS)
  }

  const SE_REALIZO_MSG: string := "El campo 'se_realizo' debe ser 'SI' o 'NO'."

  /** Position in OBLIGATORIOS of the first falsy field from i on, or
      |OBLIGATORIOS| when there is none. */
  function FirstMissing(d: Record, i: nat): (k: nat)
    requires i <= |OBLIGATORIOS|
    ensures i <= k <= |OBLIGATORIOS|
    ensures forall j :: i <= j < k ==> Truthy(Field(d, OBLIGATORIOS[j]))
    ensures k < |OBLIGATORIOS| ==> !Truthy(Field(d, OBLIGATORIOS[k]))
    decreases |OBLIGATORIOS| - i
  {
    if i == |OBLIGATORIOS| || !Truthy(Field(d, OBLIGATORIOS[i])) then i else FirstMissing(d, i + 1)
  }

  /** str(d['tipo_audiencia']).strip() */
  function TipoOf(d: Record): string {
    Strip(Str(Field(d, K_TIPO)))
  }

  /** str(d['se_realizo']).strip().upper() */
  function MarkerOf(d: Record): string {
    Upper(Strip(Str(Field(d, K_SE_REALIZO))))
  }

  /** validar_campos_audiencia on a value: the error it raises, or the
      record as it leaves it. */
  function Validated(d: Record): Result<Record> {
    var k := FirstMissing(d, 0);
    if k < |OBLIGATORIOS| then Err(ValueError(RequiredMessage(OBLIGATORIOS[k])))
    else if TipoOf(d) !in TIPOS_AUDIENCIA_VALIDOS then Err(ValueError(TipoMessage(TipoOf(d))))
    else if MarkerOf(d) != SI && MarkerOf(d) != NO then Err(ValueError(SE_REALIZO_MSG))
    else Ok(Normalised(d))
  }

  /** The record validation hands back: se_realizo and tipo_audiencia
      replaced by their normal forms. */
  function Normalised(d: Record): Record {
    d.(fields := d.fields[K_SE_REALIZO := Text(MarkerOf(d))][K_TIPO := Text(TipoOf(d))])
  }

  /** Normalising changes no key other than se_realizo and tipo_audiencia. */
  lemma NormalisedOtherField(d: Record, key: string)
    requires key != K_SE_REALIZO && key != K_TIPO
    ensures key in Normalised(d).fields <==> key in d.fields
    ensures Field(Normalised(d), key) == Field(d, key)
  {
  }

  lemma NormalisedFields(d: Record)
    requires K_SE_REALIZO in d.fields && K_TIPO in d.fields
    ensures var r := Normalised(d);
      && r.motivos == d.motivos
      && r.fields.Keys == d.fields.Keys
      && (forall key | key in d.fields && key != K_SE_REALIZO && key != K_TIPO :: r.fields[key] == d.fields[key])
      && Field(r, K_SE_REALIZO) == Text(MarkerOf(d))
      && Field(r, K_TIPO) == Text(TipoOf(d))
  {
    assert K_SE_REALIZO != K_TIPO;
  }

  /** Validation passes exactly when every required field is truthy, the
      trimmed type is one of the allowed ones and the trimmed, upper-cased
      flag is SI or NO. */
  lemma ValidatedAccepts(d: Record)
    ensures Validated(d).Ok?
        <==> (forall k :: 0 <= k < |OBLIGATORIOS| ==> Truthy(Field(d, OBLIGATORIOS[k])))
             && TipoOf(d) in TIPOS_AUDIENCIA_VALIDOS
             && (MarkerOf(d) == SI || MarkerOf(d) == NO)
  {
  }

  /** The first falsy required field, in the order listed, is the one the
      error names. */
  lemma ValidatedReportsFirstMissing(d: Record, k: nat)
    requires k < |OBLIGATORIOS| && !Truthy(Field(d, OBLIGATORIOS[k]))
    requires forall j :: 0 <= j < k ==> Truthy(Field(d, OBLIGATORIOS[j]))
    ensures Validated(d) == Err(ValueError(RequiredMessage(OBLIGATORIOS[k])))
  {
    var f := FirstMissing(d, 0);
    assert f <= k;
    assert f >= k;
  }

  /** On success se_realizo holds "SI" or "NO", tipo_audiencia holds the
      trimmed type, and no other key or the reasons list changes. */
  lemma ValidatedNormalises(d: Record)
    requires Validated(d).Ok?
    ensures var r := Validated(d).value;
      && r.motivos == d.motivos
      && r.fields.Keys == d.fields.Keys
      && (forall key | key in d.fields && key != K_SE_REALIZO && key != K_TIPO :: r.fields[key] == d.fields[key])
      && (Field(r, K_SE_REALIZO) == Text(SI) || Field(r, K_SE_REALIZO) == Text(NO))
      && Field(r, K_SE_REALIZO) == Text(MarkerOf(d))
      && Field(r, K_TIPO) == Text(TipoOf(d))
      && TipoOf(d) in TIPOS_AUDIENCIA_VALIDOS
  {
    assert Validated(d).value == Normalised(d);
    assert Truthy(Field(d, OBLIGATORIOS[1])) && Truthy(Field(d, OBLIGATORIOS[5]));
    NormalisedFields(d);
  }

  lemma EmptyIsNoTipo()
    ensures "" !in TIPOS_AUDIENCIA_VALIDOS
  {
    forall i | 0 <= i < |TIPOS_AUDIENCIA_VALIDOS| ensures |TIPOS_AUDIENCIA_VALIDOS[i]| > 0 {
    }
  }

  /** "SI" and "NO" are their own normal form. */
  lemma MarkerIsNormal(m: string)
    requires m == SI || m == NO
    ensures Upper(Strip(m)) == m
  {
    assert |m| == 2 && !IsSpace(m[0]) && !IsSpace(m[1]);
    assert Strip(m) == m;
    var u := Upper(m);
    assert u[0] == UpperChar(m[0]) == m[0];
    assert u[1] == UpperChar(m[1]) == m[1];
    assert u == m;
  }

  /** Validating a record validation has already normalised changes
      nothing. */
  lemma ValidatedIdempotent(d: Record)
    requires Validated(d).Ok?
    ensures Validated(Validated(d).value) == Validated(d)
  {
    var r := Validated(d).value;
    ValidatedNormalises(d);
    var t := TipoOf(d);
    var m := MarkerOf(d);
    assert Field(r, K_TIPO) == Text(t) && Field(r, K_SE_REALIZO) == Text(m);
    StripIdempotent(Str(Field(d, K_TIPO)));
    assert TipoOf(r) == t;
    MarkerIsNormal(m);
    assert MarkerOf(r) == m;
    assert t != "" by { EmptyIsNoTipo(); }
    RequiredKept(d, r, t, m);
    NormalPasses(r, t, m);
  }

  /** A record whose required fields are all set and whose tipo_audiencia
      and se_realizo are already in normal form passes validation
      unchanged. */
  lemma NormalPasses(r: Record, t: string, m: string)
    requires forall k :: 0 <= k < |OBLIGATORIOS| ==> Truthy(Field(r, OBLIGATORIOS[k]))
    requires Field(r, K_TIPO) == Text(t) && TipoOf(r) == t && t in TIPOS_AUDIENCIA_VALIDOS
    requires Field(r, K_SE_REALIZO) == Text(m) && MarkerOf(r) == m && (m == SI || m == NO)
    ensures Validated(r) == Ok(r)
  {
    assert FirstMissing(r, 0) == |OBLIGATORIOS|;
    UpdateSame(r.fields, K_SE_REALIZO, Text(m));
    UpdateSame(r.fields, K_TIPO, Text(t));
  }

  lemma UpdateSame(fields: map<string, Value>, key: string, v: Value)
    requires key in fields && fields[key] == v
    ensures fields[key := v] == fields
  {
  }

  lemma RequiredKept(d: Record, r: Record, t: string, m: string)
    requires forall k :: 0 <= k < |OBLIGATORIOS| ==> Truthy(Field(d, OBLIGATORIOS[k]))
    requires forall key | key in d.fields && key != K_SE_REALIZO && key != K_TIPO :: key in r.fields && r.fields[key] == d.fields[key]
    requires Field(r, K_TIPO) == Text(t) && t != "" && Field(r, K_SE_REALIZO) == Text(m) && m != ""
    ensures forall k :: 0 <= k < |OBLIGATORIOS| ==> Truthy(Field(r, OBLIGATORIOS[k]))
  {
    assert Truthy(Field(d, OBLIGATORIOS[0])) && Truthy(Field(d, OBLIGATORIOS[2]));
    assert Truthy(Field(d, OBLIGATORIOS[3])) && Truthy(Field(d, OBLIGATORIOS[4]));
  }

  const FECHA_HORA_REQUIRED_MSG: string := "Los campos 'fecha' y 'hora' son obligatorios."

  function InvalidFechaHoraMessage(fecha: string, hora: string): string {
    "Fecha y hora inválidas: '" + fecha + " " + hora + "'. Formato esperado: dd/mm/yyyy HH:MM"
  }

  /** parse_fecha_hora(d). A fecha or hora that is not a str makes the
      concatenation fail inside the try, which reports it as invalid. */
  function ParseFechaHora(d: Record): (r: Result<DateTime>)
    ensures r.Ok? ==> ValidDateTime(r.value)
    ensures !Truthy(Field(d, K_FECHA)) || !Truthy(Field(d, K_HORA))
            ==> r == Err(ValueError(FECHA_HORA_REQUIRED_MSG))
    ensures Truthy(Field(d, K_FECHA)) && Truthy(Field(d, K_HORA)) && r.Err?
            ==> r.error == ValueError(InvalidFechaHoraMessage(Str(Field(d, K_FECHA)), Str(Field(d, K_HORA))))
  {
    var fecha := Field(d, K_FECHA);
    var hora := Field(d, K_HORA);
    if !Truthy(fecha) || !Truthy(hora) then Err(ValueError(FECHA_HORA_REQUIRED_MSG))
    else if fecha.Text? && hora.Text? && ParseText(fecha.s + " " + hora.s).Some? then
      Ok(ParseText(fecha.s + " " + hora.s).value)
    else Err(ValueError(InvalidFechaHoraMessage(Str(fecha), Str(hora))))
  }

  /** A record whose fecha and hora are a date and time written as
      "dd/mm/yyyy" and "HH:MM" parses to that date and time when the
      calendar has it, and is reported with both texts otherwise. */
  lemma ParseFechaHoraFormatted(d: Record, dt: DateTime)
    requires WellShaped(dt)
    requires Field(d, K_FECHA) == Text(FormatFecha(dt)) && Field(d, K_HORA) == Text(FormatHora(dt))
    ensures ParseFechaHora(d)
         == if ValidDateTime(dt) then Ok(dt)
            else Err(ValueError(InvalidFechaHoraMessage(FormatFecha(dt), FormatHora(dt))))
  {
    ParseFormatted(dt);
  }

  /** Validation does not touch fecha or hora, so the sort key of a record
      is the same before and after it. */
  lemma ParseAfterValidation(d: Record)
    requires Validated(d).Ok?
    ensures ParseFechaHora(Validated(d).value) == ParseFechaHora(d)
  {
    assert Validated(d).value == Normalised(d);
    NormalisedOtherField(d, K_FECHA);
    NormalisedOtherField(d, K_HORA);
  }

  /** A hearing dict, which validation updates in place. */
  class Hearing {
    var fields: map<string, Value>
    var motivos: seq<Value>

    function Snapshot(): Record
      reads this
    {
      Record(fields, motivos)
    }

    constructor FromRecord(r: Record)
      ensures Snapshot() == r
    {
      fields, motivos := r.fields, r.motivos;
    }

    /** validar_campos_audiencia(d): raises, leaving d as it was, or
        normalises se_realizo and tipo_audiencia in place. */
    method Validate() returns (o: Outcome)
      modifies this
      ensures o.Pass? <==> Validated(old(Snapshot())).Ok?
      ensures o.Fail? ==> o.error == Validated(old(Snapshot())).error && Snapshot() == old(Snapshot())
      ensures o.Pass? ==> Snapshot() == Validated(old(Snapshot())).value
    {
      var i := 0;
      while i < |OBLIGATORIOS|
        invariant 0 <= i <= |OBLIGATORIOS|
        invariant forall j :: 0 <= j < i ==> Truthy(Field(Snapshot(), OBLIGATORIOS[j]))
      {
        if !Truthy(Field(Snapshot(), OBLIGATORIOS[i])) {
          ValidatedReportsFirstMissing(Snapshot(), i);
          return Fail(ValueError(RequiredMessage(OBLIGATORIOS[i])));
        }
        i := i + 1;
      }
      assert FirstMissing(Snapshot(), 0) == |OBLIGATORIOS|;
      assert Truthy(Field(Snapshot(), OBLIGATORIOS[1])) && Truthy(Field(Snapshot(), OBLIGATORIOS[5]));
      var tipo := Strip(Str(fields[K_TIPO]));
      if tipo !in TIPOS_AUDIENCIA_VALIDOS {
        return Fail(ValueError(TipoMessage(tipo)));
      }
      var se := Upper(Strip(Str(fields[K_SE_REALIZO])));
      if se != SI && se != NO {
        return Fail(ValueError(SE_REALIZO_MSG));
      }
      fields := fields[K_SE_REALIZO := Text(se)];
      fields := fields[K_TIPO := Text(tipo)];
      o := Pass;
    }
  }
}
