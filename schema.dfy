// The fixed layout of a ledger worksheet (excel_utils.py, lines 11-50 and
// 288-297), and the exception kinds the ledger raises.

module Schema {

  /** The exceptions the ledger raises, with their messages. */
  datatype Error = ValueError(msg: string) | FileNotFoundError(msg: string) | AttributeError(msg: string)
                 | InvalidFileException(msg: string)

  datatype Result<T> = Ok(value: T) | Err(error: Error)

  datatype Outcome = Pass | Fail(error: Error)

  datatype Option<T> = None | Some(value: T)

  const ARCHIVOS_DIR: string := "archivos"
  const PLANTILLAS_DIR: string := "Plantillas"
  const PLANTILLA_BASE: string := "plantilla_base"
  /** "Plantillas/plantilla_base" */
  const PLANTILLA_PATH: string := PLANTILLAS_DIR + "/" + PLANTILLA_BASE

  /** Rows at or past this one belong to the defender's signature block. */
  const MAX_FILA_PERMITIDA: int := 300
  const FILA_ENCABEZADO: int := 10

  // Columns, 1-based as in the worksheet (A = 1).
  const COL_NRO: int := 1
  const COL_RADICADO: int := 2
  const COL_TIPO: int := 3
  const COL_FECHA: int := 4
  const COL_HORA: int := 5
  const COL_JUZGADO: int := 6
  const COL_REALIZADO_SI: int := 7
  const COL_REALIZADO_NO: int := 8
  const COL_MOTIVOS_INICIO: int := 9
  const COL_MOTIVOS_FIN: int := 16
  const COL_OBSERVACIONES: int := 17

  /** Number of reason columns, I..P. */
  const NUM_MOTIVOS: nat := 8

  /** The allowed hearing types, in the order the error message lists them. */
  const TIPOS_AUDIENCIA_VALIDOS: seq<string> := [
    "Alegatos de conclusión",
    "Audiencia concentrada",
    "Audiencia de acusación",
    "Audiencia de conciliación",
    "Audiencia de control de legalidad",
    "Audiencia de individualización de pena",
    "Audiencia de imputación",
    "Audiencia de incidente de reparación integral",
    "Audiencia de juicio oral",
    "Audiencia de medidas de aseguramiento",
    "Audiencia de nulidad",
    "Audiencia de preclusión",
    "Audiencia de prórroga",
    "Audiencia de revisión de medida",
    "Audiencia de verificación de cumplimiento",
    "Audiencia preliminar",
    "Audiencia preparatoria",
    "Otra"
  ]

  /** The reason categories, column I first. */
  const MOTIVOS_NOMBRES: seq<string> := [
    "Juez", "Fiscalía", "Usuario", "Inpec", "Víctima", "ICBF",
    "Defensor Confianza", "Defensor Público"
  ]

  // Keys of a hearing record.
  const K_RADICADO: string := "radicado"
  const K_TIPO: string := "tipo_audiencia"
  const K_FECHA: string := "fecha"
  const K_HORA: string := "hora"
  const K_JUZGADO: string := "juzgado"
  const K_SE_REALIZO: string := "se_realizo"
  const K_OBSERVACIONES: string := "observaciones"

  /** The fields validation requires, in the order it checks them. */
  const OBLIGATORIOS: seq<string> := [K_RADICADO, K_TIPO, K_FECHA, K_HORA, K_JUZGADO, K_SE_REALIZO]

  /** The two normalised values of se_realizo, and the held-marker. */
  const SI: string := "SI"
  const NO: string := "NO"
  const X: string := "X"

  const FIRMA_LABEL: string := "Firma del defensor público:__________________________"

  /** The last column a ledger row uses (Q). */
  const LAST_COL: int := 17
}
