/**
 * The Compose entry form (`PitStopFormScreen`), the one the home screen
 * opens: its state variables, the four drop-down menus and the Guardar rule,
 * which checks only that the time is not blank.
 *
 * The numbers are read with the throwing parsers; the reading of each text
 * field is a parameter (`None` when the text is not a number).
 */
module ComposeForm {
  import opened Wrappers
  import opened PitStopModel
  import opened Text

  const PILOTOS: seq<string> := ["Lewis Hamilton", "Max Verstappen", "Charles Leclerc", "Lando Norris", "Fernando Alonso"]
  const ESCUDERIAS: seq<string> := ["Mercedes", "Red Bull Racing", "Ferrari", "McLaren", "Alpine"]
  const COMPUESTOS: seq<string> := ["Hard", "Medium", "Soft"]
  const ESTADOS: seq<string> := [STATUS_OK, STATUS_FAILED]

  /** A snapshot of the form's state variables. */
  datatype ComposeFields = ComposeFields(
    piloto: string,
    escuderia: string,
    tiempoSegundos: string,
    compuesto: string,
    neumaticosCambiados: string,
    estado: string,
    motivoFallo: string,
    mecanicoPrincipal: string,
    fechaHora: int)

  /** Every drop-down holds one of its menu's items. */
  predicate MenusValid(f: ComposeFields)
  {
    && f.piloto in PILOTOS
    && f.escuderia in ESCUDERIAS
    && f.compuesto in COMPUESTOS
    && f.estado in ESTADOS
  }

  /** The state the form opens with, at the clock reading `now`. */
  function InitialFields(now: int): (f: ComposeFields)
    ensures MenusValid(f)
    ensures f.piloto == "Lewis Hamilton" && f.escuderia == "Mercedes" && f.compuesto == "Hard"
    ensures f.neumaticosCambiados == "4" && f.estado == STATUS_OK
    ensures f.tiempoSegundos == [] && f.motivoFallo == [] && f.mecanicoPrincipal == []
    ensures f.fechaHora == now
  {
    ComposeFields("Lewis Hamilton", "Mercedes", "", "Hard", "4", STATUS_OK, "", "", now)
  }

  /** What pressing Guardar does. */
  datatype GuardarOutcome =
    | NothingEmitted
    | ParseFailure
    | Emitted(pit: PitStop)

  /**
   * The Guardar rule: nothing happens while the time is blank; otherwise both
   * numbers are parsed (a text that is no number throws) and a record with the
   * default id is emitted, with the reason kept only for "Fallido".
   */
  function Guardar(f: ComposeFields, parsedTime: Option<real>, parsedTyres: Option<int>): (o: GuardarOutcome)
    ensures o.NothingEmitted? <==> IsBlank(f.tiempoSegundos)
    ensures o.ParseFailure? <==> !IsBlank(f.tiempoSegundos) && (parsedTime.None? || parsedTyres.None?)
    ensures o.Emitted? ==>
      && IsNew(o.pit)
      && o.pit.tiempoSegundos == parsedTime.value && o.pit.neumaticosCambiados == parsedTyres.value
      && o.pit.piloto == f.piloto && o.pit.escuderia == f.escuderia && o.pit.compuesto == f.compuesto
      && o.pit.estado == f.estado && o.pit.mecanicoPrincipal == f.mecanicoPrincipal
      && o.pit.fechaHora == f.fechaHora
      && (o.pit.estado == STATUS_FAILED ==> o.pit.motivoFallo == Some(f.motivoFallo))
      && (o.pit.estado != STATUS_FAILED ==> o.pit.motivoFallo.None?)
  {
    if IsBlank(f.tiempoSegundos) then NothingEmitted
    else if parsedTime.None? || parsedTyres.None? then ParseFailure
    else
      Emitted(NewPitStop(f.piloto, f.escuderia, parsedTime.value, f.compuesto, parsedTyres.value, f.estado,
                         if f.estado == STATUS_FAILED then Some(f.motivoFallo) else None,
                         f.mecanicoPrincipal, f.fechaHora))
  }

  /** The freshly opened form emits nothing: its time field is empty. */
  lemma InitialFormEmitsNothing(now: int, parsedTime: Option<real>, parsedTyres: Option<int>)
    ensures Guardar(InitialFields(now), parsedTime, parsedTyres) == NothingEmitted
  {
  }

  /**
   * With its menus in range, an emitted record has a known compound, a valid
   * status and, when failed, a reason (possibly empty).
   */
  lemma EmittedFromMenus(f: ComposeFields, parsedTime: Option<real>, parsedTyres: Option<int>)
    requires MenusValid(f)
    requires Guardar(f, parsedTime, parsedTyres).Emitted?
    ensures var p := Guardar(f, parsedTime, parsedTyres).pit;
      CompoundValid(p) && StatusValid(p) && ReasonValid(p)
  {
  }

  /**
   * The form checks neither range nor mechanic: a failed record with nine
   * tyres, a negative time, an empty reason and no mechanic is emitted.
   */
  lemma EmitsUncheckedRecord()
    ensures var f := InitialFields(0).(tiempoSegundos := "-1", neumaticosCambiados := "9",
                                       estado := STATUS_FAILED);
      && MenusValid(f)
      && Guardar(f, Some(-1.0), Some(9)).Emitted?
      && !TyresValid(Guardar(f, Some(-1.0), Some(9)).pit)
      && !TimePositive(Guardar(f, Some(-1.0), Some(9)).pit)
      && Guardar(f, Some(-1.0), Some(9)).pit.motivoFallo == Some("")
      && Guardar(f, Some(-1.0), Some(9)).pit.mecanicoPrincipal == ""
  {
    var f := InitialFields(0).(tiempoSegundos := "-1", neumaticosCambiados := "9", estado := STATUS_FAILED);
    assert !IsWhitespace(f.tiempoSegundos[0]);
  }

  /**
   * The form's state variables; each callback of the screen is a method
   * that reassigns one of them.
   */
  class ComposeScreen {
    var piloto: string
    var escuderia: string
    var tiempoSegundos: string
    var compuesto: string
    var neumaticosCambiados: string
    var estado: string
    var motivoFallo: string
    var mecanicoPrincipal: string
    var fechaHora: int

    function Fields(): ComposeFields
      reads this
    {
      ComposeFields(piloto, escuderia, tiempoSegundos, compuesto, neumaticosCambiados, estado,
                    motivoFallo, mecanicoPrincipal, fechaHora)
    }

    predicate Valid()
      reads this
    {
      MenusValid(Fields())
    }

    /** The `remember` initial values; `now` is the clock reading. */
    constructor(now: int)
      ensures Valid()
      ensures Fields() == InitialFields(now)
    {
      piloto := "Lewis Hamilton";
      escuderia := "Mercedes";
      tiempoSegundos := "";
      compuesto := "Hard";
      neumaticosCambiados := "4";
      estado := STATUS_OK;
      motivoFallo := "";
      mecanicoPrincipal := "";
      fechaHora := now;
    }

    /** Choosing the `i`-th pilot of the menu. */
    method SelectPiloto(i: nat)
      requires Valid() && i < |PILOTOS|
      modifies this
      ensures Valid()
      ensures Fields() == old(Fields()).(piloto := PILOTOS[i])
    {
      piloto := PILOTOS[i];
    }

    /** Choosing the `i`-th team of the menu. */
    method SelectEscuderia(i: nat)
      requires Valid() && i < |ESCUDERIAS|
      modifies this
      ensures Valid()
      ensures Fields() == old(Fields()).(escuderia := ESCUDERIAS[i])
    {
      escuderia := ESCUDERIAS[i];
    }

    /** Choosing the `i`-th compound of the menu. */
    method SelectCompuesto(i: nat)
      requires Valid() && i < |COMPUESTOS|
      modifies this
      ensures Valid()
      ensures Fields() == old(Fields()).(compuesto := COMPUESTOS[i])
    {
      compuesto := COMPUESTOS[i];
    }

    /** Choosing the `i`-th status; the typed reason is kept, only hidden. */
    method SelectEstado(i: nat)
      requires Valid() && i < |ESTADOS|
      modifies this
      ensures Valid()
      ensures Fields() == old(Fields()).(estado := ESTADOS[i])
    {
      estado := ESTADOS[i];
    }

    method TypeTiempo(text: string)
      requires Valid()
      modifies this
      ensures Valid()
      ensures Fields() == old(Fields()).(tiempoSegundos := text)
    {
      tiempoSegundos := text;
    }

    method TypeNeumaticos(text: string)
      requires Valid()
      modifies this
      ensures Valid()
      ensures Fields() == old(Fields()).(neumaticosCambiados := text)
    {
      neumaticosCambiados := text;
    }

    /** The reason field is on screen only while the status is "Fallido". */
    method TypeMotivo(text: string)
      requires Valid() && estado == STATUS_FAILED
      modifies this
      ensures Valid()
      ensures Fields() == old(Fields()).(motivoFallo := text)
    {
      motivoFallo := text;
    }

    method TypeMecanico(text: string)
      requires Valid()
      modifies this
      ensures Valid()
      ensures Fields() == old(Fields()).(mecanicoPrincipal := text)
    {
      mecanicoPrincipal := text;
    }

    /** The date and the time pickers each replace the timestamp. */
    method PickDateTime(t: int)
      requires Valid()
      modifies this
      ensures Valid()
      ensures Fields() == old(Fields()).(fechaHora := t)
    {
      fechaHora := t;
    }

    /** Pressing Guardar, which changes no state variable. */
    method OnGuardar(parsedTime: Option<real>, parsedTyres: Option<int>) returns (o: GuardarOutcome)
      requires Valid()
      ensures o == Guardar(Fields(), parsedTime, parsedTyres)
      ensures o.Emitted? ==> CompoundValid(o.pit) && StatusValid(o.pit) && ReasonValid(o.pit)
    {
      if IsBlank(tiempoSegundos) {
        o := NothingEmitted;
      } else if parsedTime.None? || parsedTyres.None? {
        o := ParseFailure;
      } else {
        EmittedFromMenus(Fields(), parsedTime, parsedTyres);
        var motivo := if estado == STATUS_FAILED then Some(motivoFallo) else None;
        o := Emitted(NewPitStop(piloto, escuderia, parsedTime.value, compuesto, parsedTyres.value, estado,
                                motivo, mecanicoPrincipal, fechaHora));
      }
    }
  }

  /** A reason typed while "Fallido" survives a switch to "OK" and back, and is emitted again. */
  method ReasonSurvivesStatusRoundTrip(form: ComposeScreen, reason: string)
    requires form.Valid() && form.estado == STATUS_FAILED
    modifies form
    ensures form.Valid() && form.estado == STATUS_FAILED && form.motivoFallo == reason
  {
    form.TypeMotivo(reason);
    form.SelectEstado(0);
    form.SelectEstado(1);
  }
}
