/** The five patient attribute routes, POST /api/paciente/{nome, idade, peso,
    sanguineo, comorbidade}. Each reads one body field, checks it, inserts it
    as a new row of `pacientes` and echoes it with the generated id. */
module PacienteRoutes {
  import opened JsValues
  import opened Http

  datatype Attribute = Nome | Idade | Peso | TipoSanguineo | Comorbidade

  /** The body field read and the `pacientes` column written: the same name. */
  function Column(a: Attribute): string {
    match a
    case Nome => "nome"
    case Idade => "idade"
    case Peso => "peso"
    case TipoSanguineo => "tipo_sanguineo"
    case Comorbidade => "comorbidade"
  }

  const DefaultComorbidade: string := "Nenhuma/Não Informado"

  /** The 400 text. The comorbidity route never rejects, so its entry is an
      empty placeholder that no response carries. */
  function MissingText(a: Attribute): string {
    match a
    case Nome => "O campo \"nome\" é obrigatório."
    case Idade => "O campo \"idade\" é obrigatório no corpo da requisição."
    case Peso => "O campo \"peso\" é obrigatório no corpo da requisição."
    case TipoSanguineo => "O campo \"tipo_sanguineo\" é obrigatório e deve ser uma string válida (ex: A+, O-)."
    case Comorbidade => ""
  }

  /** The 201 message, a template literal around the stored value. */
  function SavedMessage(a: Attribute, v: JsValue): Message {
    match a
    case Nome => Template("Nome ", v, " registrado com sucesso.")
    case Idade => Template("Idade ", v, " registrada com sucesso.")
    case Peso => Template("Peso ", v, " kg registrado com sucesso.")
    case TipoSanguineo => Template("Tipo sanguíneo ", v, " registrado com sucesso.")
    case Comorbidade => Template("Comorbidade salva: ", v, ".")
  }

  /** The 500 text, the same whatever the error was. */
  function ServerErrorText(a: Attribute): string {
    match a
    case Nome => "Erro interno do servidor ao salvar nome."
    case Idade => "Erro interno do servidor ao salvar idade. Verifique sua tabela PostgreSQL."
    case Peso => "Erro interno do servidor ao salvar peso. Verifique sua tabela PostgreSQL."
    case TipoSanguineo => "Erro interno do servidor ao salvar tipo sanguíneo. Verifique sua tabela PostgreSQL."
    case Comorbidade => "Erro interno do servidor ao salvar comorbidade. Verifique sua tabela PostgreSQL."
  }

  /** Whether the route's early check lets the field's value through. */
  predicate Acceptable(a: Attribute, v: JsValue) {
    match a
    case TipoSanguineo => Truthy(v) && v.Str? && Utf16Length(v.s) >= 2
    case Comorbidade => true
    case _ => Truthy(v)
  }

  /** The value bound to `$1` and echoed back: the field itself, except that a
      falsy comorbidity is replaced by the default text. */
  function Stored(a: Attribute, v: JsValue): (r: JsValue)
    ensures a != Comorbidade ==> r == v
    ensures a == Comorbidade ==> Truthy(r) && (Truthy(v) ==> r == v) && (!Truthy(v) ==> r == Str(DefaultComorbidade))
  {
    if a == Comorbidade then Or(v, Str(DefaultComorbidade)) else v
  }

  /** The early-return check: a rejected request issues no statement; an
      accepted one inserts exactly the stored value into the attribute's column. */
  function Validate(a: Attribute, p: Payload): (d: Decision)
    ensures d.Reject? <==> !Acceptable(a, Get(p, Column(a)))
    ensures d.Issue? <==> Acceptable(a, Get(p, Column(a)))
    ensures d.Reject? ==> d.response == Error(400, MissingText(a))
    ensures d.Issue? ==> d.query == Query(InsertPaciente(Column(a)), [Value(Stored(a, Get(p, Column(a))))])
  {
    var v := Get(p, Column(a));
    if !Acceptable(a, v) then Reject(Error(400, MissingText(a)))
    else Issue(Query(InsertPaciente(Column(a)), [Value(Stored(a, v))]))
  }

  /** The response to the insert's outcome: 201 with the returned id and the
      stored value when a row came back and the stored value converts to the
      message text; otherwise 500 with a fixed text. A value whose conversion
      throws makes the 201 body throw inside the `try`, after the row was
      written, so the catch answers 500. */
  function Finish(a: Attribute, p: Payload, o: DbOutcome): (r: Response)
    ensures r.status == 201 <==> o.Done? && |o.rows| > 0 && !ConversionThrows(Stored(a, Get(p, Column(a))))
    ensures r.status == 201 ==>
      var v := Stored(a, Get(p, Column(a)));
      r.body == Registered(Get(o.rows[0], "id"), SavedMessage(a, v), Column(a), v)
    ensures r.status != 201 ==> r == Error(500, ServerErrorText(a))
  {
    var v := Stored(a, Get(p, Column(a)));
    match InsertedId(o)
    case Returned(id) =>
      if ConversionThrows(v) then Error(500, ServerErrorText(a))
      else Response(201, Registered(id, SavedMessage(a, v), Column(a), v))
    case Threw(_) => Error(500, ServerErrorText(a))
  }

  /** A name sent as an object with its own `toString` property is inserted,
      yet the answer is 500: the 201 message's template literal throws. */
  lemma {:induction false} InsertedButAnswered500(id: JsValue)
    ensures Validate(Nome, map["nome" := Obj(map["toString" := Num(1.0)])]).Issue?
    ensures Finish(Nome, map["nome" := Obj(map["toString" := Num(1.0)])], Done([map["id" := id]], 1))
         == Error(500, ServerErrorText(Nome))
  {
  }

  /** A blood type is a string, so its conversion never throws: an accepted
      blood type and a returned row always give 201. */
  lemma BloodTypeNeverThrows(p: Payload, o: DbOutcome)
    requires Validate(TipoSanguineo, p).Issue?
    ensures Finish(TipoSanguineo, p, o).status == 201 <==> o.Done? && |o.rows| > 0
  {
  }

  /** Age `0`, weight `0` and the empty name count as missing: rejected with
      400 before any statement is issued. */
  lemma ZeroAndEmptyAreMissing()
    ensures Validate(Idade, map["idade" := Num(0.0)]) == Reject(Error(400, MissingText(Idade)))
    ensures Validate(Peso, map["peso" := Num(0.0)]) == Reject(Error(400, MissingText(Peso)))
    ensures Validate(Nome, map["nome" := Str("")]) == Reject(Error(400, MissingText(Nome)))
    ensures Validate(Nome, map[]) == Reject(Error(400, MissingText(Nome)))
  {
  }

  /** The blood type is accepted exactly when it is a string whose JavaScript
      length is at least 2: every string of two or more characters, and a
      single character only when it lies outside the Basic Multilingual Plane
      (a surrogate pair, length 2). Any other value, `"A"` or the number 12
      for instance, gets 400. */
  lemma BloodTypeRule(p: Payload)
    ensures Validate(TipoSanguineo, p).Issue? <==>
      Get(p, "tipo_sanguineo").Str? && LongEnough(Get(p, "tipo_sanguineo").s)
  {
    var v := Get(p, "tipo_sanguineo");
    assert Validate(TipoSanguineo, p).Issue? <==> Acceptable(TipoSanguineo, v);
    FalsyTestRedundant(v);
    if v.Str? {
      LengthAtLeastTwo(v.s);
    }
  }

  /** The blood-type check's leading `!tipo_sanguineo` test decides nothing
      that the string and length tests do not already decide. */
  lemma FalsyTestRedundant(v: JsValue)
    ensures Acceptable(TipoSanguineo, v) <==> v.Str? && Utf16Length(v.s) >= 2
  {
  }

  /** At least two characters, or one outside the Basic Multilingual Plane. */
  predicate LongEnough(s: string) {
    |s| >= 2 || (|s| == 1 && s[0] as int >= 0x1_0000)
  }

  lemma LengthAtLeastTwo(s: string)
    ensures Utf16Length(s) >= 2 <==> LongEnough(s)
  {
    if |s| == 1 {
      assert Utf16Length(s) == CodeUnits(s[0]) + Utf16Length(s[1..]);
      assert s[1..] == [];
    }
  }

  /** The worked example: `{"tipo_sanguineo": "O-"}` binds "O-", and a
      returned id 7 gives 201 echoing both. */
  lemma BloodTypeExample()
    ensures Validate(TipoSanguineo, map["tipo_sanguineo" := Str("O-")]).Issue?
    ensures Validate(TipoSanguineo, map["tipo_sanguineo" := Str("O-")]).query.params == [Value(Str("O-"))]
    ensures Finish(TipoSanguineo, map["tipo_sanguineo" := Str("O-")], Done([map["id" := Num(7.0)]], 1)).body
         == Registered(Num(7.0), SavedMessage(TipoSanguineo, Str("O-")), "tipo_sanguineo", Str("O-"))
  {
    var p := map["tipo_sanguineo" := Str("O-")];
    assert Utf16Length("O-") == 2;
    assert Acceptable(TipoSanguineo, Get(p, "tipo_sanguineo"));
    assert !ConversionThrows(Str("O-"));
  }

  /** The comorbidity route never answers 400, and the value it binds to the
      insert is the value its 201 body echoes, the default text when the
      field is falsy. */
  lemma ComorbidityAlwaysInserts(p: Payload, o: DbOutcome)
    ensures Validate(Comorbidade, p).Issue?
    ensures Finish(Comorbidade, p, o).status in {201, 500}
    ensures Finish(Comorbidade, p, o).status == 201 <==>
      o.Done? && |o.rows| > 0 && !ConversionThrows(Validate(Comorbidade, p).query.params[0].v)
    ensures Finish(Comorbidade, p, o).status == 201 ==>
      Finish(Comorbidade, p, o).body.value == Validate(Comorbidade, p).query.params[0].v
    ensures !Truthy(Get(p, "comorbidade")) ==>
      Validate(Comorbidade, p).query.params == [Value(Str(DefaultComorbidade))]
  {
  }

  /** Whatever the database reports as an error, and an insert that returns no
      row, the answer is the same 500 body: the cause is not exposed. */
  lemma ErrorsGive500(a: Attribute, p: Payload, c1: JsValue, c2: JsValue)
    ensures Finish(a, p, Failed(c1)) == Finish(a, p, Failed(c2)) == Finish(a, p, Done([], 0))
    ensures Finish(a, p, Failed(c1)) == Error(500, ServerErrorText(a))
  {
  }
}
