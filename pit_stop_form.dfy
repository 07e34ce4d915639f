/**
 * The view-based entry form (`PitStopFormActivity`): the ordered list of
 * validation messages, the normalisation the record builder applies, the
 * edit-id rule and the status/reason toggle.
 *
 * The text fields arrive already parsed: a number that does not parse is
 * `None`, as `toDoubleOrNull` / `toIntOrNull` return null.
 */
module ViewForm {
  import opened Wrappers
  import opened PitStopModel
  import opened Text

  const ERR_TIME := "Tiempo inválido (usa decimales, p.ej. 2.35)."
  const ERR_TYRES := "Neumáticos cambiados debe estar entre 0 y 4."
  const ERR_MECHANIC := "Mecánico principal es obligatorio."
  const ERR_REASON := "Motivo del fallo es obligatorio cuando el estado es Fallido."

  /** Every message the form can report, in the order it checks them. */
  const MESSAGES: seq<string> := [ERR_TIME, ERR_TYRES, ERR_MECHANIC, ERR_REASON]

  /**
   * What the form holds when Guardar is pressed: the selected spinner items,
   * the parsed numbers and the raw text of the mechanic and reason fields.
   * The spinners always hold a selected item here: the source's reading of a
   * missing selection as "" in `validateInputs`, and the crash in
   * `buildModel` that follows it, are not modelled.
   */
  datatype FormInput = FormInput(
    piloto: string,
    escuderia: string,
    tiempo: Option<real>,
    compuesto: string,
    neumaticos: Option<int>,
    estado: string,
    motivo: string,
    mecanico: string)

  predicate TimeInvalid(inp: FormInput) { inp.tiempo.None? || inp.tiempo.value <= 0.0 }

  predicate TyresInvalid(inp: FormInput) { inp.neumaticos.None? || !(0 <= inp.neumaticos.value <= 4) }

  predicate MechanicMissing(inp: FormInput) { Trim(inp.mecanico) == [] }

  predicate ReasonMissing(inp: FormInput) { inp.estado == STATUS_FAILED && Trim(inp.motivo) == [] }

  /** The four checks, each reporting its own message. */
  datatype Check = TimeCheck | TyresCheck | MechanicCheck | ReasonCheck

  /** The checks in the order the form runs them. */
  const CHECKS: seq<Check> := [TimeCheck, TyresCheck, MechanicCheck, ReasonCheck]

  function Message(c: Check): string
  {
    match c
    case TimeCheck => ERR_TIME
    case TyresCheck => ERR_TYRES
    case MechanicCheck => ERR_MECHANIC
    case ReasonCheck => ERR_REASON
  }

  function Rank(c: Check): nat
  {
    match c
    case TimeCheck => 0
    case TyresCheck => 1
    case MechanicCheck => 2
    case ReasonCheck => 3
  }

  /** The outcome of each check, as the four conditions evaluate on the input. */
  datatype Verdicts = Verdicts(time: bool, tyres: bool, mechanic: bool, reason: bool)

  function Assess(inp: FormInput): Verdicts
  {
    Verdicts(TimeInvalid(inp), TyresInvalid(inp), MechanicMissing(inp), ReasonMissing(inp))
  }

  /** Whether check `c` failed. */
  predicate Fails(c: Check, v: Verdicts)
  {
    match c
    case TimeCheck => v.time
    case TyresCheck => v.tyres
    case MechanicCheck => v.mechanic
    case ReasonCheck => v.reason
  }

  predicate AllPass(v: Verdicts) { !v.time && !v.tyres && !v.mechanic && !v.reason }

  /** Strictly increasing in the running order, so each check at most once. */
  predicate InCheckingOrder(cs: seq<Check>)
  {
    forall i, j :: 0 <= i < j < |cs| ==> Rank(cs[i]) < Rank(cs[j])
  }

  /** The checks of `cs` that failed, keeping their order. */
  function FailedChecks(cs: seq<Check>, v: Verdicts): (r: seq<Check>)
    ensures |r| <= |cs|
    ensures forall c :: c in r <==> c in cs && Fails(c, v)
    ensures InCheckingOrder(cs) ==> InCheckingOrder(r)
  {
    if cs == [] then []
    else
      var rest := FailedChecks(cs[1..], v);
      assert InCheckingOrder(cs) ==> InCheckingOrder([cs[0]] + rest) by {
        if InCheckingOrder(cs) {
          HeadBeforeRest(cs, rest);
        }
      }
      (if Fails(cs[0], v) then [cs[0]] else []) + rest
  }

  /** In an ordered list the head ranks before anything drawn from its tail. */
  lemma HeadBeforeRest(cs: seq<Check>, rest: seq<Check>)
    requires cs != [] && InCheckingOrder(cs)
    requires InCheckingOrder(rest)
    requires forall c :: c in rest ==> c in cs[1..]
    ensures InCheckingOrder([cs[0]] + rest)
  {
    forall j | 0 <= j < |rest|
      ensures Rank(cs[0]) < Rank(rest[j])
    {
      assert rest[j] in cs[1..];
      var k :| 0 <= k < |cs[1..]| && cs[1..][k] == rest[j];
      assert cs[k + 1] == rest[j];
    }
  }

  /** The failed checks among the four, in the running order: each exactly when it failed. */
  function FailuresOf(v: Verdicts): (r: seq<Check>)
    ensures forall c :: c in r <==> Fails(c, v)
    ensures |r| <= 4
    ensures InCheckingOrder(r)
    ensures r == [] <==> AllPass(v)
  {
    var r := FailedChecks(CHECKS, v);
    ChecksComplete();
    assert r == [] ==> AllPass(v) by {
      assert Fails(TimeCheck, v) ==> TimeCheck in r;
      assert Fails(TyresCheck, v) ==> TyresCheck in r;
      assert Fails(MechanicCheck, v) ==> MechanicCheck in r;
      assert Fails(ReasonCheck, v) ==> ReasonCheck in r;
    }
    assert AllPass(v) ==> r == [] by {
      if r != [] {
        assert r[0] in r;
      }
    }
    r
  }

  /** The four checks are all listed, each once, in the running order. */
  lemma ChecksComplete()
    ensures forall c: Check :: c in CHECKS
    ensures InCheckingOrder(CHECKS)
  {
    forall c: Check
      ensures c in CHECKS
    {
      assert CHECKS[Rank(c)] == c;
    }
  }

  /** Running the four checks in turn lists each failed one. */
  lemma FailuresInTurn(v: Verdicts)
    ensures FailuresOf(v)
         == (if v.time then [TimeCheck] else [])
          + (if v.tyres then [TyresCheck] else [])
          + (if v.mechanic then [MechanicCheck] else [])
          + (if v.reason then [ReasonCheck] else [])
  {
    var c3 := [ReasonCheck];
    var c2 := [MechanicCheck] + c3;
    var c1 := [TyresCheck] + c2;
    var e0 := if v.time then [TimeCheck] else [];
    var e1 := if v.tyres then [TyresCheck] else [];
    var e2 := if v.mechanic then [MechanicCheck] else [];
    var e3 := if v.reason then [ReasonCheck] else [];
    assert CHECKS == [TimeCheck] + c1;
    assert c3 == [ReasonCheck] + [];
    FailedChecksCons(TimeCheck, c1, v);
    FailedChecksCons(TyresCheck, c2, v);
    FailedChecksCons(MechanicCheck, c3, v);
    FailedChecksCons(ReasonCheck, [], v);
    ConcatAssociates(e0, e1, e2, e3);
  }

  /** One step of `FailedChecks`: the head is kept exactly when it fails. */
  lemma FailedChecksCons(c: Check, cs: seq<Check>, v: Verdicts)
    ensures FailedChecks([c] + cs, v) == (if Fails(c, v) then [c] else []) + FailedChecks(cs, v)
  {
    assert ([c] + cs)[1..] == cs;
  }

  lemma ConcatAssociates<T>(a: seq<T>, b: seq<T>, c: seq<T>, d: seq<T>)
    ensures a + (b + (c + d)) == a + b + c + d
  {
  }

  /**
   * The failing checks of the input, in the running order: a check is listed
   * exactly when it fails, there are at most four, and none exactly when
   * every check passes.
   */
  function ValidationFailures(inp: FormInput): (r: seq<Check>)
    ensures TimeCheck in r <==> TimeInvalid(inp)
    ensures TyresCheck in r <==> TyresInvalid(inp)
    ensures MechanicCheck in r <==> MechanicMissing(inp)
    ensures ReasonCheck in r <==> ReasonMissing(inp)
    ensures |r| <= 4
    ensures InCheckingOrder(r)
    ensures r == [] <==>
      !TimeInvalid(inp) && !TyresInvalid(inp) && !MechanicMissing(inp) && !ReasonMissing(inp)
  {
    FailuresOf(Assess(inp))
  }

  /** The text of each message, in the order of the failed checks. */
  function Messages(cs: seq<Check>): (msgs: seq<string>)
    ensures |msgs| == |cs|
    ensures forall i :: 0 <= i < |cs| ==> msgs[i] == Message(cs[i])
  {
    seq(|cs|, i requires 0 <= i < |cs| => Message(cs[i]))
  }

  /** The messages of the failing checks, in the running order. */
  function ValidationErrors(inp: FormInput): (errs: seq<string>)
    ensures |errs| == |ValidationFailures(inp)| <= 4
    ensures forall i :: 0 <= i < |errs| ==> errs[i] == Message(ValidationFailures(inp)[i])
    ensures errs == [] <==>
      !TimeInvalid(inp) && !TyresInvalid(inp) && !MechanicMissing(inp) && !ReasonMissing(inp)
  {
    Messages(ValidationFailures(inp))
  }

  /** A message is shown exactly when its check fails. */
  lemma MessageShownIffCheckFails(c: Check, v: Verdicts)
    ensures Message(c) in Messages(FailuresOf(v)) <==> Fails(c, v)
  {
    var failures := FailuresOf(v);
    var errs := Messages(failures);
    if Fails(c, v) {
      var k :| 0 <= k < |failures| && failures[k] == c;
      assert errs[k] == Message(c);
    }
  }

  /** `validateInputs`: appends one message per failing check, in order. */
  method ValidateInputs(inp: FormInput) returns (errs: seq<string>)
    ensures errs == ValidationErrors(inp)
  {
    var tiempoInvalido := inp.tiempo.None? || inp.tiempo.value <= 0.0;
    var neumsInvalidos := inp.neumaticos.None? || !(0 <= inp.neumaticos.value <= 4);
    var mecanico := Trim(inp.mecanico);
    var motivo := Trim(inp.motivo);
    var sinMotivo := inp.estado == STATUS_FAILED && |motivo| == 0;
    var v := Verdicts(tiempoInvalido, neumsInvalidos, |mecanico| == 0, sinMotivo);
    assert v == Assess(inp);
    errs := AppendFailures(v);
  }

  /** The appending steps of `validateInputs`, once each condition is evaluated. */
  method AppendFailures(v: Verdicts) returns (errs: seq<string>)
    ensures errs == Messages(FailuresOf(v))
  {
    ghost var failed: seq<Check> := [];
    errs := [];
    if v.time {
      MessagesAppend(failed, TimeCheck);
      errs, failed := errs + [ERR_TIME], failed + [TimeCheck];
    }
    ghost var f0 := failed;
    if v.tyres {
      MessagesAppend(failed, TyresCheck);
      errs, failed := errs + [ERR_TYRES], failed + [TyresCheck];
    }
    ghost var f1 := failed;
    if v.mechanic {
      MessagesAppend(failed, MechanicCheck);
      errs, failed := errs + [ERR_MECHANIC], failed + [MechanicCheck];
    }
    ghost var f2 := failed;
    if v.reason {
      MessagesAppend(failed, ReasonCheck);
      errs, failed := errs + [ERR_REASON], failed + [ReasonCheck];
    }
    assert errs == Messages(failed);
    calc {
      failed;
      f2 + (if v.reason then [ReasonCheck] else []);
      { assert f2 == f1 + (if v.mechanic then [MechanicCheck] else []); }
      f1 + (if v.mechanic then [MechanicCheck] else []) + (if v.reason then [ReasonCheck] else []);
      { assert f1 == f0 + (if v.tyres then [TyresCheck] else []);
        assert f0 == (if v.time then [TimeCheck] else []); }
      (if v.time then [TimeCheck] else []) + (if v.tyres then [TyresCheck] else [])
        + (if v.mechanic then [MechanicCheck] else []) + (if v.reason then [ReasonCheck] else []);
      { FailuresInTurn(v); }
      FailuresOf(v);
    }
  }

  lemma MessagesAppend(cs: seq<Check>, c: Check)
    ensures Messages(cs + [c]) == Messages(cs) + [Message(c)]
  {
  }

  /** `loadIfEditing`: the id extra (0 when absent) is kept only when positive. */
  function EditIdFromExtra(extra: Option<int>): (editId: Option<int>)
    ensures editId.Some? <==> extra.Some? && extra.value > 0
    ensures editId.Some? ==> editId == extra
  {
    var id := extra.GetOr(0);
    if id > 0 then Some(id) else None
  }

  /** A blank reason is stored as absent, any other reason trimmed. */
  function ReasonOf(motivo: string): (r: Option<string>)
    ensures r.None? <==> IsBlank(motivo)
    ensures r.Some? ==> r.value == Trim(motivo) && r.value != []
  {
    var t := Trim(motivo);
    if t == [] then None else Some(t)
  }

  /**
   * `buildModel`: a record of the parsed and trimmed fields. It reads the
   * time and the tyre count with the throwing parsers, so it is used only
   * once they parse.
   */
  function BuildModel(inp: FormInput, editId: Option<int>, fechaHora: int): (p: PitStop)
    requires inp.tiempo.Some? && inp.neumaticos.Some?
    ensures p.id == editId.GetOr(NEW_ID)
    ensures p.piloto == inp.piloto && p.escuderia == inp.escuderia && p.compuesto == inp.compuesto
    ensures p.tiempoSegundos == inp.tiempo.value && p.neumaticosCambiados == inp.neumaticos.value
    ensures p.estado == inp.estado && p.fechaHora == fechaHora
    ensures p.mecanicoPrincipal == Trim(inp.mecanico)
    ensures p.motivoFallo == ReasonOf(inp.motivo)
  {
    PitStop(editId.GetOr(NEW_ID), inp.piloto, inp.escuderia, inp.tiempo.value, inp.compuesto,
            inp.neumaticos.value, inp.estado, ReasonOf(inp.motivo), Trim(inp.mecanico), fechaHora)
  }

  /** What pressing Guardar does: shows the messages, or returns a record. */
  datatype SaveOutcome = Rejected(errors: seq<string>) | Saved(pit: PitStop)

  /** The Guardar handler: validate, then build only when nothing failed. */
  function OnGuardar(inp: FormInput, editId: Option<int>, fechaHora: int): (o: SaveOutcome)
    ensures o.Rejected? <==> ValidationErrors(inp) != []
    ensures o.Rejected? ==> o.errors == ValidationErrors(inp)
    ensures o.Saved? ==> o.pit == BuildModel(inp, editId, fechaHora)
  {
    var errs := ValidationErrors(inp);
    if errs != [] then Rejected(errs) else Saved(BuildModel(inp, editId, fechaHora))
  }

  /**
   * A record the form saves meets the field rules for tyres, time, mechanic
   * and reason, and its id is the default 0 or an existing record's id.
   */
  lemma SavedRecordIsWellFormed(inp: FormInput, extra: Option<int>, fechaHora: int)
    requires OnGuardar(inp, EditIdFromExtra(extra), fechaHora).Saved?
    ensures var p := OnGuardar(inp, EditIdFromExtra(extra), fechaHora).pit;
      && TyresValid(p)
      && TimePositive(p)
      && ReasonValid(p)
      && p.mecanicoPrincipal != []
      && (IsNew(p) || IsExisting(p))
      && (IsExisting(p) <==> extra.Some? && extra.value > 0)
  {
  }

  /** An "OK" status never draws the reason message, whatever the reason field holds. */
  lemma OkNeverNeedsReason(inp: FormInput)
    requires inp.estado == STATUS_OK
    ensures ERR_REASON !in ValidationErrors(inp)
  {
    MessageShownIffCheckFails(ReasonCheck, Assess(inp));
  }

  /**
   * The mutable part of the screen: the status spinner, the reason field
   * and whether it is enabled, the edit id and the chosen date and time.
   * The pilot, team and compound spinners and the time, tyre and mechanic
   * fields have no behaviour of their own; they enter only through the
   * input handed to `Guardar`.
   */
  class FormScreen {
    var input: FormInput
    var motivoEnabled: bool
    var editId: Option<int>
    var fechaHora: int

    /** The reason field is enabled exactly for "Fallido", and empty while disabled. */
    predicate Valid()
      reads this
    {
      && motivoEnabled == (input.estado == STATUS_FAILED)
      && (!motivoEnabled ==> input.motivo == [])
    }

    /**
     * `onCreate` for a form whose fields hold `initial`: the toggle runs once,
     * then the edit id is read from the extra; `now` is the clock's reading.
     */
    constructor(initial: FormInput, extra: Option<int>, now: int)
      ensures Valid()
      ensures input.estado == initial.estado
      ensures input == initial.(motivo := if initial.estado == STATUS_FAILED then initial.motivo else [])
      ensures editId == EditIdFromExtra(extra) && fechaHora == now
    {
      var fallido := initial.estado == STATUS_FAILED;
      input := if fallido then initial else initial.(motivo := []);
      motivoEnabled := fallido;
      editId := EditIdFromExtra(extra);
      fechaHora := now;
    }

    /** `toggleMotivo`: enable the reason field for "Fallido", otherwise disable and clear it. */
    method ToggleMotivo()
      modifies this
      ensures Valid()
      ensures motivoEnabled == (input.estado == STATUS_FAILED)
      ensures input == if motivoEnabled then old(input) else old(input).(motivo := [])
      ensures editId == old(editId) && fechaHora == old(fechaHora)
    {
      var fallido := input.estado == STATUS_FAILED;
      motivoEnabled := fallido;
      if !fallido {
        input := input.(motivo := []);
      }
    }

    /** Selecting a status runs the toggle. */
    method SelectEstado(estado: string)
      modifies this
      ensures Valid()
      ensures input.estado == estado
      ensures input == old(input).(estado := estado, motivo := if estado == STATUS_FAILED then old(input.motivo) else [])
      ensures editId == old(editId) && fechaHora == old(fechaHora)
    {
      input := input.(estado := estado);
      ToggleMotivo();
    }

    /** Typing in the reason field; a disabled field takes no text. */
    method TypeMotivo(text: string)
      requires Valid()
      modifies this
      ensures Valid()
      ensures input == if old(motivoEnabled) then old(input).(motivo := text) else old(input)
      ensures motivoEnabled == old(motivoEnabled) && editId == old(editId) && fechaHora == old(fechaHora)
    {
      if motivoEnabled {
        input := input.(motivo := text);
      }
    }

    /** The date and time pickers set the timestamp. */
    method PickDateTime(t: int)
      modifies this
      ensures fechaHora == t
      ensures input == old(input) && motivoEnabled == old(motivoEnabled) && editId == old(editId)
    {
      fechaHora := t;
    }

    /** Pressing Guardar, which changes nothing on the screen. */
    method Guardar() returns (o: SaveOutcome)
      requires Valid()
      ensures o == OnGuardar(input, editId, fechaHora)
      ensures o.Saved? && input.estado != STATUS_FAILED ==> o.pit.motivoFallo.None?
    {
      var errs := ValidateInputs(input);
      if errs != [] {
        o := Rejected(errs);
      } else {
        o := Saved(BuildModel(input, editId, fechaHora));
      }
    }
  }
}
