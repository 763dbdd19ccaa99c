/** The caregiver's work routes: POST /api/cuidador/profissional (professional
    details), GET /api/cuidador/SelecionarPaciente/:cuidadorId (the patients
    of a caregiver) and POST /api/cuidador/MedicamentoPaciente (a medication
    schedule entry). */
module CuidadorRoutes {
  import opened JsValues
  import opened Http

  // ----- professional details -----

  const ProfissionalMissingText: string := "ID do cuidador, Formação e a declaração de aptidão são campos obrigatórios."
  const ProfissionalOkText: string := "Informações profissionais atualizadas com sucesso e enviadas para validação."
  const ProfissionalErrorText: string := "Erro interno do servidor ao salvar dados profissionais."
  /** The validation status the update sets. */
  const ValidationStatus: string := "Pendente"

  function NotFoundMessage(cuidadorId: JsValue): Message {
    Template("Cuidador com ID ", cuidadorId, " não encontrado ou já cadastrado.")
  }

  /** `cuidador_id` and `formacao` must be truthy and `declaracao_apto` must be
      the boolean `true` itself; the update then binds `formacao`,
      `registro_profissional` (possibly undefined) and `cuidador_id`, in that
      order, and sets the validation status to "Pendente". */
  function ValidateProfissional(p: Payload): (d: Decision)
    ensures d.Reject? <==>
      !Truthy(Get(p, "cuidador_id")) || !Truthy(Get(p, "formacao")) || Get(p, "declaracao_apto") != Bool(true)
    ensures d.Issue? <==>
      Truthy(Get(p, "cuidador_id")) && Truthy(Get(p, "formacao")) && Get(p, "declaracao_apto") == Bool(true)
    ensures d.Reject? ==> d.response == Error(400, ProfissionalMissingText)
    ensures d.Issue? ==> d.query == Query(UpdateProfissional(ValidationStatus),
      [Value(Get(p, "formacao")), Value(Get(p, "registro_profissional")), Value(Get(p, "cuidador_id"))])
  {
    var cuidadorId, formacao, apto := Get(p, "cuidador_id"), Get(p, "formacao"), Get(p, "declaracao_apto");
    if !Truthy(cuidadorId) || !Truthy(formacao) || !StrictEquals(apto, Bool(true)) then
      Reject(Error(400, ProfissionalMissingText))
    else
      Issue(Query(UpdateProfissional(ValidationStatus), [Value(formacao), Value(Get(p, "registro_profissional")), Value(cuidadorId)]))
  }

  /** Truthy stand-ins for `true` are refused: the string "true" and the
      number 1 are rejected with 400 before any statement is issued. */
  lemma DeclaracaoAptoMustBeTrue(p: Payload)
    requires Truthy(Get(p, "cuidador_id")) && Truthy(Get(p, "formacao"))
    ensures ValidateProfissional(p[ "declaracao_apto" := Bool(true)]).Issue?
    ensures ValidateProfissional(p[ "declaracao_apto" := Str("true")]) == Reject(Error(400, ProfissionalMissingText))
    ensures ValidateProfissional(p[ "declaracao_apto" := Num(1.0)]) == Reject(Error(400, ProfissionalMissingText))
    ensures ValidateProfissional(p - {"declaracao_apto"}) == Reject(Error(400, ProfissionalMissingText))
  {
    assert Get(p[ "declaracao_apto" := Bool(true)], "cuidador_id") == Get(p, "cuidador_id");
    assert Get(p[ "declaracao_apto" := Bool(true)], "formacao") == Get(p, "formacao");
  }

  /** 404 when the update touched no row, 200 echoing `cuidador_id` when it
      touched some, 500 for a database error. The 404 text is a template
      literal inside the `try`: a `cuidador_id` whose conversion throws turns
      the 404 into the catch's 500. */
  function FinishProfissional(p: Payload, o: DbOutcome): (r: Response)
    ensures r.status == 404 <==> o.Done? && o.rowCount == 0 && !ConversionThrows(Get(p, "cuidador_id"))
    ensures r.status == 404 ==> r == Response(404, ErrorBody(NotFoundMessage(Get(p, "cuidador_id"))))
    ensures r.status == 200 <==> o.Done? && o.rowCount > 0
    ensures r.status == 200 ==> r.body == ProfissionalUpdated(Text(ProfissionalOkText), Get(p, "cuidador_id"))
    ensures r.status == 500 <==> o.Failed? || (o.rowCount == 0 && ConversionThrows(Get(p, "cuidador_id")))
    ensures r.status == 500 ==> r == Error(500, ProfissionalErrorText)
  {
    match o
    case Failed(_) => Error(500, ProfissionalErrorText)
    case Done(_, rowCount) =>
      if rowCount == 0 then
        if ConversionThrows(Get(p, "cuidador_id")) then Error(500, ProfissionalErrorText)
        else Response(404, ErrorBody(NotFoundMessage(Get(p, "cuidador_id"))))
      else Response(200, ProfissionalUpdated(Text(ProfissionalOkText), Get(p, "cuidador_id")))
  }

  /** An id given as an object with its own `toString` passes the presence
      check; when no row matches, the answer is 500 rather than 404. */
  lemma {:induction false} UnconvertibleIdNotFoundIs500(p: Payload, n: nat)
    requires Get(p, "cuidador_id") == Obj(map["toString" := Bool(true)])
    requires Truthy(Get(p, "formacao")) && Get(p, "declaracao_apto") == Bool(true)
    ensures ValidateProfissional(p).Issue?
    ensures FinishProfissional(p, Done([], 0)) == Error(500, ProfissionalErrorText)
  {
  }

  // ----- patients of a caregiver -----

  const ListErrorText: string := "Erro interno ao carregar a lista de pacientes."

  /** The rows are answered unchanged with 200, no rows included (an empty
      array, never 404); a database error gives 500. */
  function FinishSelecionarPaciente(o: DbOutcome): (r: Response)
    ensures o.Done? ==> r == Response(200, RowList(o.rows))
    ensures o.Failed? ==> r == Error(500, ListErrorText)
  {
    match o
    case Done(rows, _) => Response(200, RowList(rows))
    case Failed(_) => Error(500, ListErrorText)
  }

  lemma EmptyPatientListIsOk(n: nat)
    ensures FinishSelecionarPaciente(Done([], n)) == Response(200, RowList([]))
  {
  }

  // ----- medication schedule -----

  const MedicamentoMissingText: string := "Todos os campos são obrigatórios: cuidador_id, paciente_id, medicamento_nome, dosagem, data_hora"
  const InvalidDateText: string := "Data/hora inválida. Use o formato ISO: YYYY-MM-DDTHH:MM:SS"
  const PastDateText: string := "Não é possível agendar medicamentos para datas/horas passadas"
  const ScheduledText: string := "Medicamento agendado com sucesso!"
  const UnknownIdsText: string := "Cuidador ou paciente não encontrado. Verifique os IDs."
  const MedicamentoErrorText: string := "Erro interno do servidor ao agendar medicamento."
  /** PostgreSQL's foreign_key_violation error code. */
  const ForeignKeyViolation: string := "23503"
  /** The status a new schedule entry is inserted with. */
  const ScheduleStatus: string := "pendente"

  /** The five fields, in the order the presence check tests them. */
  const MedicamentoFields: seq<string> := ["cuidador_id", "paciente_id", "medicamento_nome", "dosagem", "data_hora"]

  function MedicamentoValues(p: Payload): (vs: seq<JsValue>)
    ensures |vs| == 5 && forall i :: 0 <= i < 5 ==> vs[i] == Get(p, MedicamentoFields[i])
  {
    seq(5, i requires 0 <= i < 5 => Get(p, MedicamentoFields[i]))
  }

  /** The checks, in the code's order: (1) any of the five fields falsy gives
      400; (2) `new Date(data_hora)` runs before the `try`, so a `data_hora`
      whose conversion throws escapes the handler, which sends nothing;
      (3) a `data_hora` that does not parse (`parseDate` stands for
      `new Date(x)` and `getTime()` on a value that converts, None for NaN)
      gives 400; (4) a time strictly before `now` gives 400. Only then is the
      insert issued, binding the four ids and names as received and the
      parsed time, with status "pendente". */
  function ValidateMedicamento(p: Payload, now: int, parseDate: JsValue -> Option<int>): (d: Decision)
    ensures AnyFalsy(MedicamentoValues(p)) ==> d == Reject(Error(400, MedicamentoMissingText))
    ensures d.Escapes? <==> !AnyFalsy(MedicamentoValues(p)) && ConversionThrows(Get(p, "data_hora"))
    ensures !AnyFalsy(MedicamentoValues(p)) && !ConversionThrows(Get(p, "data_hora")) &&
            parseDate(Get(p, "data_hora")).None? ==>
      d == Reject(Error(400, InvalidDateText))
    ensures (!AnyFalsy(MedicamentoValues(p)) && !ConversionThrows(Get(p, "data_hora")) &&
             parseDate(Get(p, "data_hora")).Some? && parseDate(Get(p, "data_hora")).value < now) ==>
      d == Reject(Error(400, PastDateText))
    ensures d.Issue? <==>
      !AnyFalsy(MedicamentoValues(p)) && !ConversionThrows(Get(p, "data_hora")) &&
      parseDate(Get(p, "data_hora")).Some? && parseDate(Get(p, "data_hora")).value >= now
    ensures d.Issue? ==> d.query == Query(InsertAgendamento(ScheduleStatus),
      [Value(Get(p, "cuidador_id")), Value(Get(p, "paciente_id")), Value(Get(p, "medicamento_nome")),
       Value(Get(p, "dosagem")), Timestamp(parseDate(Get(p, "data_hora")).value)])
  {
    if AnyFalsy(MedicamentoValues(p)) then Reject(Error(400, MedicamentoMissingText))
    else if ConversionThrows(Get(p, "data_hora")) then Escapes
    else
      match parseDate(Get(p, "data_hora"))
      case None => Reject(Error(400, InvalidDateText))
      case Some(t) =>
        if t < now then Reject(Error(400, PastDateText))
        else Issue(Query(InsertAgendamento(ScheduleStatus),
          [Value(Get(p, "cuidador_id")), Value(Get(p, "paciente_id")), Value(Get(p, "medicamento_nome")),
           Value(Get(p, "dosagem")), Timestamp(t)]))
  }

  /** The order of the checks. A falsy field, any of the five, is answered
      with 400 whatever the date, its parsing and the clock say. A date that does not
      convert or does not parse is dealt with before the clock is read: the
      decision is then the same at every time `now`, and nothing is issued.
      A time equal to `now` is accepted. */
  lemma MedicamentoCheckOrder(p: Payload, now1: int, now2: int, parseDate: JsValue -> Option<int>)
    ensures (exists i :: 0 <= i < |MedicamentoFields| && !Truthy(Get(p, MedicamentoFields[i]))) ==>
      ValidateMedicamento(p, now1, parseDate) == Reject(Error(400, MedicamentoMissingText))
    ensures ConversionThrows(Get(p, "data_hora")) || parseDate(Get(p, "data_hora")).None? ==>
      ValidateMedicamento(p, now1, parseDate) == ValidateMedicamento(p, now2, parseDate) &&
      !ValidateMedicamento(p, now1, parseDate).Issue?
    ensures !AnyFalsy(MedicamentoValues(p)) && !ConversionThrows(Get(p, "data_hora")) &&
            parseDate(Get(p, "data_hora")) == Some(now1) ==>
      ValidateMedicamento(p, now1, parseDate).Issue?
  {
    var vs := MedicamentoValues(p);
    if exists i :: 0 <= i < |MedicamentoFields| && !Truthy(Get(p, MedicamentoFields[i])) {
      var i :| 0 <= i < |MedicamentoFields| && !Truthy(Get(p, MedicamentoFields[i]));
      assert !Truthy(vs[i]);
    }
  }

  /** Every field present and `data_hora` an object with its own `toString`:
      the date conversion throws outside the `try`, so the handler ends
      without an answer, whatever the clock and the date parsing. */
  lemma {:induction false} UnconvertibleDateEscapes(now: int, parseDate: JsValue -> Option<int>)
    ensures ValidateMedicamento(map["cuidador_id" := Num(1.0), "paciente_id" := Num(1.0),
      "medicamento_nome" := Str("x"), "dosagem" := Str("x"), "data_hora" := Obj(map["toString" := Num(1.0)])],
      now, parseDate) == Escapes
  {
    var p := map["cuidador_id" := Num(1.0), "paciente_id" := Num(1.0),
      "medicamento_nome" := Str("x"), "dosagem" := Str("x"), "data_hora" := Obj(map["toString" := Num(1.0)])];
    MedicamentoPresence(p);
  }

  /** All five fields truthy is exactly what the presence check asks. */
  lemma MedicamentoPresence(p: Payload)
    ensures !AnyFalsy(MedicamentoValues(p)) <==>
      Truthy(Get(p, "cuidador_id")) && Truthy(Get(p, "paciente_id")) && Truthy(Get(p, "medicamento_nome")) &&
      Truthy(Get(p, "dosagem")) && Truthy(Get(p, "data_hora"))
  {
    var vs := MedicamentoValues(p);
    assert vs[0] == Get(p, "cuidador_id") && vs[1] == Get(p, "paciente_id") && vs[2] == Get(p, "medicamento_nome");
    assert vs[3] == Get(p, "dosagem") && vs[4] == Get(p, "data_hora");
  }

  /** 201 with the returned id and the entry as submitted: status "pendente"
      and the original `data_hora` text, not the parsed time. A foreign key
      violation (unknown caregiver or patient) gives 400; any other error,
      a unique violation included, and an insert that returns no row give 500. */
  function FinishMedicamento(p: Payload, o: DbOutcome): (r: Response)
    ensures r.status == 201 <==> o.Done? && |o.rows| > 0
    ensures r.status == 201 ==>
      var id := Get(o.rows[0], "id");
      r.body == Scheduled(id, Text(ScheduledText), Agendamento(id, Get(p, "cuidador_id"), Get(p, "paciente_id"),
        Get(p, "medicamento_nome"), Get(p, "dosagem"), Get(p, "data_hora"), ScheduleStatus))
    ensures r.status == 400 <==> o == Failed(Str(ForeignKeyViolation))
    ensures r.status == 400 ==> r == Error(400, UnknownIdsText)
    ensures r.status !in {201, 400} ==> r == Error(500, MedicamentoErrorText)
  {
    match InsertedId(o)
    case Returned(id) =>
      Response(201, Scheduled(id, Text(ScheduledText), Agendamento(id, Get(p, "cuidador_id"), Get(p, "paciente_id"),
        Get(p, "medicamento_nome"), Get(p, "dosagem"), Get(p, "data_hora"), ScheduleStatus)))
    case Threw(code) =>
      if StrictEquals(code, Str(ForeignKeyViolation)) then Error(400, UnknownIdsText)
      else Error(500, MedicamentoErrorText)
  }

  /** A unique violation is not special here: it gets the generic 500. */
  lemma MedicamentoUniqueViolationIs500(p: Payload)
    ensures FinishMedicamento(p, Failed(Str("23505"))) == Error(500, MedicamentoErrorText)
  {
  }
}
