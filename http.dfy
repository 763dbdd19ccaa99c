/** What a handler sends to the database and what it answers over HTTP. The
    database and the HTTP transport are outside the model: a handler either
    rejects the request early or names the one parameterized statement it
    issues, and a second function maps the database's outcome to a response. */
module Http {
  import opened JsValues

  /** A row of a result set: column name to value. */
  type Row = map<string, JsValue>

  /** A value bound to a `$n` placeholder: a body value as received, or a
      JavaScript `Date` given by its milliseconds since the epoch. */
  datatype Param = Value(v: JsValue) | Timestamp(ms: int)

  /** The fixed SQL statements of the handlers. Table and column names are
      constants of the code, never taken from the request. */
  datatype Statement =
      /** INSERT INTO pacientes (<column>) VALUES ($1) RETURNING id */
    | InsertPaciente(column: string)
      /** SELECT id, nome, senha FROM <table> WHERE email = $1 OR telefone = $2 */
    | SelectCredentials(table: string)
      /** INSERT INTO <table> (nome, email, telefone, endereco, data_nascimento,
          genero, senha) VALUES ($1, ..., $7) RETURNING id */
    | InsertAccount(table: string)
      /** UPDATE cuidador SET formacao = $1, registro_profissional = $2,
          status_validacao = <statusValidacao> WHERE id = $3 */
    | UpdateProfissional(statusValidacao: string)
      /** SELECT nome, email, telefone, endereco, data_nascimento, genero
          FROM cuidador WHERE id = $1 */
    | SelectCuidadorPerfil
      /** SELECT nome, email, idade FROM pacientes WHERE id = $1 */
    | SelectPacientePerfil
      /** SELECT id, nome, peso FROM pacientes WHERE cuidador_id = $1 */
    | SelectPacientesByCuidador
      /** INSERT INTO agendamentos_medicamentos (cuidador_id, paciente_id,
          medicamento_nome, dosagem, data_hora, status)
          VALUES ($1, ..., $5, <status>) RETURNING id */
    | InsertAgendamento(status: string)

  datatype Query = Query(stmt: Statement, params: seq<Param>)

  /** What `await pool.query(...)` gives: a result with its rows and its
      `rowCount`, or a thrown error with its `code` (undefined for errors
      that are not the database's own, such as a missing pool). */
  datatype DbOutcome = Done(rows: seq<Row>, rowCount: nat) | Failed(code: JsValue)

  /** A `message` or `error` text: a fixed string, or a template literal
      `before${arg}after`. The handler evaluates the literal itself, so an
      argument whose conversion throws (see `ConversionThrows`) never reaches
      a message; the text of any other argument is left to JavaScript. */
  datatype Message = Text(text: string) | Template(before: string, arg: JsValue, after: string)

  /** The `agendamento` object of a medication schedule response. */
  datatype Agendamento = Agendamento(
    id: JsValue, cuidadorId: JsValue, pacienteId: JsValue,
    medicamentoNome: JsValue, dosagem: JsValue, dataHora: JsValue, status: string)

  /** The JSON response bodies, one variant per shape the handlers produce.
      A field holding `Undefined` is left out when the body is serialized. */
  datatype Body =
      /** { error } */
    | ErrorBody(error: Message)
      /** { id, message, <field>: value } */
    | Registered(id: JsValue, message: Message, field: string, value: JsValue)
      /** { message, <idField>: id, nome } */
    | LoggedIn(message: Message, idField: string, id: JsValue, nome: JsValue)
      /** { id, message } */
    | SignedUp(id: JsValue, message: Message)
      /** { message, cuidador_id } */
    | ProfissionalUpdated(message: Message, cuidadorId: JsValue)
      /** { nome, email, numero, endereco, data_nascimento, genero, info_fisicas, foto_url } */
    | CuidadorPerfil(nome: JsValue, email: JsValue, numero: JsValue, endereco: JsValue,
                     dataNascimento: JsValue, genero: JsValue, infoFisicas: string, fotoUrl: string)
      /** { nome, email } */
    | PacientePerfil(nome: JsValue, email: JsValue)
      /** a bare JSON array of rows */
    | RowList(rows: seq<Row>)
      /** { id, message, agendamento } */
    | Scheduled(id: JsValue, message: Message, agendamento: Agendamento)

  datatype Response = Response(status: nat, body: Body)

  /** The result of a handler's early-return checks: an early response, the
      one statement to run, or an exception thrown before the handler's `try`
      block, after which the handler sends nothing. */
  datatype Decision = Reject(response: Response) | Issue(query: Query) | Escapes

  /** `res.status(status).json({ error: text })` */
  function Error(status: nat, text: string): Response {
    Response(status, ErrorBody(Text(text)))
  }

  /** What the code inside a handler's `try` block computes, or the `code`
      of what it throws to the `catch` block. */
  datatype Try<T> = Returned(value: T) | Threw(code: JsValue)

  /** `result.rows[0].id` after an `INSERT ... RETURNING id`. An empty row set
      makes `rows[0]` undefined, and reading `.id` of it throws a TypeError,
      whose `code` is undefined, to the handler's `catch`. */
  function InsertedId(o: DbOutcome): (r: Try<JsValue>)
    ensures r.Threw? <==> o.Failed? || |o.rows| == 0
    ensures o.Failed? ==> r == Threw(o.code)
    ensures o.Done? && |o.rows| == 0 ==> r == Threw(Undefined)
    ensures r.Returned? ==> r.value == Get(o.rows[0], "id")
  {
    match o
    case Failed(code) => Threw(code)
    case Done(rows, _) => if |rows| == 0 then Threw(Undefined) else Returned(Get(rows[0], "id"))
  }
}
