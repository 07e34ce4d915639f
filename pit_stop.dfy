/**
 * The pit-stop record (the `PitStop` data class). Every field is immutable,
 * so the record is a datatype value: list operations move whole records and
 * never alter one.
 */
module PitStopModel {
  import opened Wrappers

  /** The id of a record that has not been stored yet. */
  const NEW_ID: int := 0

  const STATUS_OK: string := "OK"
  const STATUS_FAILED: string := "Fallido"

  /** The compounds named beside the `compuesto` field. */
  const COMPOUNDS: seq<string> := ["Soft", "Medium", "Hard", "Intermediate", "Wet"]

  datatype PitStop = PitStop(
    id: int,                      // 0 = new, > 0 = an existing record
    piloto: string,
    escuderia: string,
    tiempoSegundos: real,         // elapsed time in seconds
    compuesto: string,
    neumaticosCambiados: int,
    estado: string,               // "OK" or "Fallido", compared as raw strings
    motivoFallo: Option<string>,  // required when estado is "Fallido"
    mecanicoPrincipal: string,
    fechaHora: int                // the timestamp as an ordered value
  )

  /** A record built with the constructor's default id. */
  function NewPitStop(piloto: string, escuderia: string, tiempoSegundos: real, compuesto: string,
                      neumaticosCambiados: int, estado: string, motivoFallo: Option<string>,
                      mecanicoPrincipal: string, fechaHora: int): (p: PitStop)
    ensures IsNew(p)
    ensures p.piloto == piloto && p.escuderia == escuderia && p.tiempoSegundos == tiempoSegundos
    ensures p.compuesto == compuesto && p.neumaticosCambiados == neumaticosCambiados
    ensures p.estado == estado && p.motivoFallo == motivoFallo
    ensures p.mecanicoPrincipal == mecanicoPrincipal && p.fechaHora == fechaHora
  {
    PitStop(NEW_ID, piloto, escuderia, tiempoSegundos, compuesto, neumaticosCambiados,
            estado, motivoFallo, mecanicoPrincipal, fechaHora)
  }

  predicate IsNew(p: PitStop) { p.id == NEW_ID }

  predicate IsExisting(p: PitStop) { p.id > NEW_ID }

  predicate TyresValid(p: PitStop) { 0 <= p.neumaticosCambiados <= 4 }

  predicate StatusValid(p: PitStop) { p.estado == STATUS_OK || p.estado == STATUS_FAILED }

  predicate ReasonValid(p: PitStop) { p.estado == STATUS_FAILED ==> p.motivoFallo.Some? }

  predicate CompoundValid(p: PitStop) { p.compuesto in COMPOUNDS }

  /**
   * The constraints the field comments document; the data class itself does
   * not enforce them.
   */
  predicate Valid(p: PitStop)
    ensures Valid(p) ==> p.id >= NEW_ID
    ensures Valid(p) && p.motivoFallo.None? ==> p.estado == STATUS_OK
  {
    && (IsNew(p) || IsExisting(p))
    && CompoundValid(p)
    && TyresValid(p)
    && StatusValid(p)
    && ReasonValid(p)
  }

  /** The time a form rejects: zero or negative. */
  predicate TimePositive(p: PitStop) { p.tiempoSegundos > 0.0 }

  /** Every record of a sequence is valid. */
  predicate AllValid(s: seq<PitStop>)
  {
    forall i :: 0 <= i < |s| ==> Valid(s[i])
  }

  /** A valid record is either OK or failed, and a failed one names its reason. */
  lemma ValidStatusCases(p: PitStop)
    requires Valid(p)
    ensures (p.estado == STATUS_OK) != (p.estado == STATUS_FAILED)
    ensures p.estado != STATUS_OK ==> p.motivoFallo.Some?
  {
  }
}
