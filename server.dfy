/** The route table of the server and the request cycle every handler follows:
    early checks, then at most one statement, then a response built from the
    statement's outcome. The database is a parameter of the cycle, as are the
    clock and JavaScript's date parsing and formatting. */
module Server {
  import opened JsValues
  import opened Http
  import PacienteRoutes
  import AccountRoutes
  import CuidadorRoutes
  import PerfilRoutes

  datatype Route =
      /** POST /api/paciente/{nome, idade, peso, sanguineo, comorbidade} */
    | PacienteAttribute(attribute: PacienteRoutes.Attribute)
      /** POST /api/familiar/login, /api/cuidador/login */
    | Login(loginRole: AccountRoutes.Role)
      /** POST /api/familiar/cadastro, /api/cuidador/cadastro */
    | Signup(signupRole: AccountRoutes.Role)
      /** POST /api/cuidador/profissional */
    | Profissional
      /** GET /api/cuidador/perfil */
    | GetCuidadorPerfil
      /** GET /api/pacientes/perfil */
    | GetPacientePerfil
      /** GET /api/cuidador/SelecionarPaciente/:cuidadorId */
    | SelecionarPaciente(cuidadorId: string)
      /** POST /api/cuidador/MedicamentoPaciente */
    | MedicamentoPaciente

  /** A request: its route (with any path parameter) and its parsed body. */
  datatype Request = Request(route: Route, body: Payload)

  /** What the handlers take from outside: the current time in milliseconds
      (`new Date()`), date parsing (`new Date(x).getTime()`, None for NaN) and
      the formatting of a birth date (None when `toISOString` throws). */
  datatype Env = Env(now: int, parseDate: JsValue -> Option<int>, formatDate: JsValue -> Option<string>)

  /** The statuses a route can answer with. */
  function Statuses(route: Route): set<nat> {
    match route
    case PacienteAttribute(a) => if a == PacienteRoutes.Comorbidade then {201, 500} else {201, 400, 500}
    case Login(_) => {200, 400, 401, 500}
    case Signup(_) => {201, 400, 409, 500}
    case Profissional => {200, 400, 404, 500}
    case GetCuidadorPerfil => {200, 404, 500}
    case GetPacientePerfil => {200, 404, 500}
    case SelecionarPaciente(_) => {200, 500}
    case MedicamentoPaciente => {201, 400, 500}
  }

  /** A medication request that passes the presence check with a `data_hora`
      whose conversion to a date throws. */
  predicate DateConversionThrows(req: Request) {
    req.route == MedicamentoPaciente &&
    !AnyFalsy(CuidadorRoutes.MedicamentoValues(req.body)) && ConversionThrows(Get(req.body, "data_hora"))
  }

  /** A route's early checks. Every early rejection is a 400, and only the
      routes that check their body can reject. The two profile routes and the
      patient list read nothing of the request body: they always issue their
      select. The one throw outside a `try` is the medication route's date
      conversion. */
  function Validate(req: Request, env: Env): (d: Decision)
    ensures d.Reject? ==> d.response.status == 400
    ensures d.Reject? ==> 400 in Statuses(req.route)
    ensures d.Escapes? <==> DateConversionThrows(req)
  {
    match req.route
    case PacienteAttribute(a) => PacienteRoutes.Validate(a, req.body)
    case Login(role) => AccountRoutes.ValidateLogin(role, req.body)
    case Signup(role) => AccountRoutes.ValidateSignup(role, req.body)
    case Profissional => CuidadorRoutes.ValidateProfissional(req.body)
    case GetCuidadorPerfil => Issue(Query(SelectCuidadorPerfil, [Value(PerfilRoutes.TestId)]))
    case GetPacientePerfil => Issue(Query(SelectPacientePerfil, [Value(PerfilRoutes.TestId)]))
    case SelecionarPaciente(id) => Issue(Query(SelectPacientesByCuidador, [Value(Str(id))]))
    case MedicamentoPaciente => CuidadorRoutes.ValidateMedicamento(req.body, env.now, env.parseDate)
  }

  /** A route's mapping of the statement's outcome to its response. */
  function Finish(req: Request, env: Env, o: DbOutcome): (r: Response)
    ensures r.status in Statuses(req.route)
  {
    match req.route
    case PacienteAttribute(a) => PacienteRoutes.Finish(a, req.body, o)
    case Login(role) => AccountRoutes.FinishLogin(role, req.body, o)
    case Signup(role) => AccountRoutes.FinishSignup(role, req.body, o)
    case Profissional => CuidadorRoutes.FinishProfissional(req.body, o)
    case GetCuidadorPerfil => PerfilRoutes.FinishCuidadorPerfil(o, env.formatDate)
    case GetPacientePerfil => PerfilRoutes.FinishPacientePerfil(o)
    case SelecionarPaciente(_) => CuidadorRoutes.FinishSelecionarPaciente(o)
    case MedicamentoPaciente => CuidadorRoutes.FinishMedicamento(req.body, o)
  }

  /** What a request cycle ends with: a response, or an exception that leaves
      the handler before any response is sent. What Express then does with
      the rejected promise is outside the handlers. */
  datatype Reply = Answered(response: Response) | Unanswered

  /** One request cycle against a database that answers each query with an
      outcome. Every answer carries one of the route's statuses. A cycle ends
      unanswered exactly when the medication route's date conversion throws,
      after the presence check has passed. */
  function Serve(req: Request, env: Env, db: Query -> DbOutcome): (r: Reply)
    ensures r.Answered? ==> r.response.status in Statuses(req.route)
    ensures r.Unanswered? <==> DateConversionThrows(req)
  {
    match Validate(req, env)
    case Reject(response) => Answered(response)
    case Issue(q) => Answered(Finish(req, env, db(q)))
    case Escapes => Unanswered
  }

  /** A request the early checks reject reaches no database: its answer is
      the same whatever the database would have said. */
  lemma RejectedRequestsIssueNoQuery(req: Request, env: Env, db1: Query -> DbOutcome, db2: Query -> DbOutcome)
    requires Validate(req, env).Reject?
    ensures Serve(req, env, db1) == Serve(req, env, db2) == Answered(Validate(req, env).response)
    ensures Serve(req, env, db1).response.status == 400
  {
  }

  /** An accepted request consults the database only through the one query
      it issues: two databases that agree on that query give the same answer. */
  lemma OnlyTheIssuedQueryIsConsulted(req: Request, env: Env, db1: Query -> DbOutcome, db2: Query -> DbOutcome)
    requires Validate(req, env).Issue?
    requires db1(Validate(req, env).query) == db2(Validate(req, env).query)
    ensures Serve(req, env, db1) == Serve(req, env, db2)
  {
  }

  /** The routes without body checks always reach the database, whatever the
      body and the environment: the profile routes with their select for the
      fixed id 1, the patient list with its select binding the path segment,
      and the comorbidity route with its insert. */
  lemma FetchRoutesNeverReject(body: Payload, env: Env, cuidadorId: string)
    ensures Validate(Request(GetCuidadorPerfil, body), env) == Issue(Query(SelectCuidadorPerfil, [Value(Num(1.0))]))
    ensures Validate(Request(GetPacientePerfil, body), env) == Issue(Query(SelectPacientePerfil, [Value(Num(1.0))]))
    ensures Validate(Request(SelecionarPaciente(cuidadorId), body), env)
         == Issue(Query(SelectPacientesByCuidador, [Value(Str(cuidadorId))]))
    ensures Validate(Request(PacienteAttribute(PacienteRoutes.Comorbidade), body), env).Issue?
  {
  }

  /** A medication entry whose `data_hora` is an object with its own
      `toString` ends without an answer, whatever the database and the
      clock. */
  lemma UnconvertibleDateIsUnanswered(env: Env, db: Query -> DbOutcome)
    ensures Serve(Request(MedicamentoPaciente, map["cuidador_id" := Num(1.0), "paciente_id" := Num(1.0),
      "medicamento_nome" := Str("x"), "dosagem" := Str("x"), "data_hora" := Obj(map["toString" := Num(1.0)])]),
      env, db) == Unanswered
  {
    CuidadorRoutes.UnconvertibleDateEscapes(env.now, env.parseDate);
  }

  /** The codes with a meaning of their own: a unique violation, which the
      signup routes answer with 409, and a foreign key violation, which the
      schedule route answers with 400. */
  predicate SpecialCode(code: JsValue) {
    code == Str(AccountRoutes.UniqueViolation) || code == Str(CuidadorRoutes.ForeignKeyViolation)
  }

  /** Every other database error is answered with 500 and a body that does
      not depend on the error: the cause is never exposed. */
  lemma InternalErrorsHideTheCause(req: Request, env: Env, c1: JsValue, c2: JsValue)
    requires !SpecialCode(c1) && !SpecialCode(c2)
    ensures Finish(req, env, Failed(c1)) == Finish(req, env, Failed(c2))
    ensures Finish(req, env, Failed(c1)).status == 500
  {
  }
}
