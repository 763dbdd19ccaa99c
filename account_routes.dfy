/** Login and signup for the two account kinds, POST /api/familiar/login,
    /api/familiar/cadastro, /api/cuidador/login and /api/cuidador/cadastro.
    The two kinds run the same code against different tables. */
module AccountRoutes {
  import opened JsValues
  import opened Http

  datatype Role = Familiar | Cuidador

  function Table(r: Role): string {
    match r
    case Familiar => "familiares"
    case Cuidador => "cuidador"
  }

  /** The key under which a successful login returns the account's id. */
  function IdField(r: Role): string {
    match r
    case Familiar => "familiar_id"
    case Cuidador => "cuidador_id"
  }

  const LoginMissingText: string := "Email/Telefone e senha são obrigatórios."
  const InvalidCredentialsText: string := "Credenciais inválidas."
  const LoginOkText: string := "Login bem-sucedido!"
  const LoginErrorText: string := "Erro interno do servidor durante o login."
  const SignupMissingText: string := "Nome, email e senha são obrigatórios."
  const EmailInUseText: string := "O email fornecido já está em uso."
  /** PostgreSQL's unique_violation error code. */
  const UniqueViolation: string := "23505"

  function SignupErrorText(r: Role): string {
    match r
    case Familiar => "Erro interno do servidor ao salvar dados de familiar."
    case Cuidador => "Erro interno do servidor ao salvar dados de cuidador."
  }

  function SignedUpMessage(r: Role, nome: JsValue): Message {
    match r
    case Familiar => Template("Familiar ", nome, " cadastrado com sucesso!")
    case Cuidador => Template("Cuidador ", nome, " cadastrado com sucesso!")
  }

  /** The 401 answer, one and the same for an unknown identifier and a wrong
      password. */
  const InvalidCredentials: Response := Error(401, InvalidCredentialsText)

  // ----- login -----

  /** Both `identificador` and `senha` must be truthy; the one statement then
      looks the identifier up as an email or as a phone number. */
  function ValidateLogin(r: Role, p: Payload): (d: Decision)
    ensures d.Reject? <==> !Truthy(Get(p, "identificador")) || !Truthy(Get(p, "senha"))
    ensures d.Issue? <==> Truthy(Get(p, "identificador")) && Truthy(Get(p, "senha"))
    ensures d.Reject? ==> d.response == Error(400, LoginMissingText)
    ensures d.Issue? ==>
      d.query == Query(SelectCredentials(Table(r)), [Value(Get(p, "identificador")), Value(Get(p, "identificador"))])
  {
    var identificador, senha := Get(p, "identificador"), Get(p, "senha");
    var required := [identificador, senha];
    if AnyFalsy(required) then Reject(Error(400, LoginMissingText))
    else
      assert required[0] == identificador && required[1] == senha;
      Issue(Query(SelectCredentials(Table(r)), [Value(identificador), Value(identificador)]))
  }

  /** Only the first row the lookup returns is compared with the submitted
      password, by `===`. */
  predicate PasswordMatches(p: Payload, rows: seq<Row>)
    requires |rows| > 0
  {
    StrictEquals(Get(p, "senha"), Get(rows[0], "senha"))
  }

  /** 401 for no row and for a mismatch with the first row; 200 with the first
      row's id and name otherwise; 500 for any database error. */
  function FinishLogin(r: Role, p: Payload, o: DbOutcome): (resp: Response)
    ensures resp.status == 500 <==> o.Failed?
    ensures o.Failed? ==> resp == Error(500, LoginErrorText)
    ensures resp.status == 401 <==> o.Done? && (|o.rows| == 0 || !PasswordMatches(p, o.rows))
    ensures resp.status == 401 ==> resp == InvalidCredentials
    ensures resp.status == 200 <==> o.Done? && |o.rows| > 0 && PasswordMatches(p, o.rows)
    ensures resp.status == 200 ==>
      resp.body == LoggedIn(Text(LoginOkText), IdField(r), Get(o.rows[0], "id"), Get(o.rows[0], "nome"))
  {
    match o
    case Failed(_) => Error(500, LoginErrorText)
    case Done(rows, _) =>
      if |rows| == 0 then InvalidCredentials
      else if !PasswordMatches(p, rows) then InvalidCredentials
      else Response(200, LoggedIn(Text(LoginOkText), IdField(r), Get(rows[0], "id"), Get(rows[0], "nome")))
  }

  /** An unknown identifier and a wrong password get byte-identical answers,
      so a caller cannot tell which one happened. */
  lemma LoginFailuresIndistinguishable(r: Role, p: Payload, wrong: Row, others: seq<Row>)
    requires !StrictEquals(Get(p, "senha"), Get(wrong, "senha"))
    ensures FinishLogin(r, p, Done([], 0)) == FinishLogin(r, p, Done([wrong] + others, 1 + |others|))
  {
  }

  /** Rows after the first are never looked at: a later row whose password
      matches does not turn a mismatch on the first row into a login. */
  lemma LoginComparesFirstRowOnly(r: Role, p: Payload, first: Row, rest1: seq<Row>, rest2: seq<Row>, n1: nat, n2: nat)
    ensures FinishLogin(r, p, Done([first] + rest1, n1)) == FinishLogin(r, p, Done([first] + rest2, n2))
  {
    assert ([first] + rest1)[0] == first && ([first] + rest2)[0] == first;
  }

  /** The plaintext comparison: a row whose `senha` is the submitted string
      logs in, whatever it holds besides; a password sent as a number never
      matches a stored string. */
  lemma LoginSucceedsOnMatchingPassword(r: Role, p: Payload, row: Row)
    requires Get(p, "senha").Str? && Get(row, "senha") == Get(p, "senha")
    ensures FinishLogin(r, p, Done([row], 1)) ==
      Response(200, LoggedIn(Text(LoginOkText), IdField(r), Get(row, "id"), Get(row, "nome")))
  {
  }

  lemma NumericPasswordNeverMatchesString(r: Role, p: Payload, row: Row)
    requires Get(p, "senha").Num? && Get(row, "senha").Str?
    ensures FinishLogin(r, p, Done([row], 1)) == InvalidCredentials
  {
  }

  // ----- signup -----

  /** `nome`, `email` and `senha` must be truthy; the other four columns are
      bound as received, undefined when absent. */
  function ValidateSignup(r: Role, p: Payload): (d: Decision)
    ensures d.Reject? <==> !Truthy(Get(p, "nome")) || !Truthy(Get(p, "email")) || !Truthy(Get(p, "senha"))
    ensures d.Issue? <==> Truthy(Get(p, "nome")) && Truthy(Get(p, "email")) && Truthy(Get(p, "senha"))
    ensures d.Reject? ==> d.response == Error(400, SignupMissingText)
    ensures d.Issue? ==> d.query.stmt == InsertAccount(Table(r))
    ensures d.Issue? ==> |d.query.params| == 7
    ensures d.Issue? ==> forall i :: 0 <= i < 7 ==> d.query.params[i] == Value(Get(p, SignupColumns[i]))
  {
    var required := [Get(p, "nome"), Get(p, "email"), Get(p, "senha")];
    if AnyFalsy(required) then Reject(Error(400, SignupMissingText))
    else
      assert required[0] == Get(p, "nome") && required[1] == Get(p, "email") && required[2] == Get(p, "senha");
      Issue(Query(InsertAccount(Table(r)), SignupParams(p)))
  }

  /** The inserted columns, in placeholder order. */
  const SignupColumns: seq<string> := ["nome", "email", "telefone", "endereco", "data_nascimento", "genero", "senha"]

  function SignupParams(p: Payload): seq<Param> {
    seq(|SignupColumns|, i requires 0 <= i < |SignupColumns| => Value(Get(p, SignupColumns[i])))
  }

  /** 201 with the returned id; 409 for a unique violation (the email is
      taken); 500 for any other error, for an insert that returns no row, and
      for a `nome` whose conversion makes the 201 message throw (a TypeError,
      whose code is undefined, after the row was written). */
  function FinishSignup(r: Role, p: Payload, o: DbOutcome): (resp: Response)
    ensures resp.status == 201 <==> o.Done? && |o.rows| > 0 && !ConversionThrows(Get(p, "nome"))
    ensures resp.status == 201 ==> resp.body == SignedUp(Get(o.rows[0], "id"), SignedUpMessage(r, Get(p, "nome")))
    ensures resp.status == 409 <==> o == Failed(Str(UniqueViolation))
    ensures resp.status == 409 ==> resp == Error(409, EmailInUseText)
    ensures resp.status !in {201, 409} ==> resp == Error(500, SignupErrorText(r))
  {
    match InsertedId(o)
    case Returned(id) =>
      if ConversionThrows(Get(p, "nome")) then Error(500, SignupErrorText(r))
      else Response(201, SignedUp(id, SignedUpMessage(r, Get(p, "nome"))))
    case Threw(code) =>
      if StrictEquals(code, Str(UniqueViolation)) then Error(409, EmailInUseText)
      else Error(500, SignupErrorText(r))
  }

  /** Only the exact string code "23505" means a conflict: any other code, or
      none, gives one and the same 500 body. */
  lemma SignupErrorsOtherThanConflictAre500(r: Role, p: Payload, c1: JsValue, c2: JsValue)
    requires c1 != Str(UniqueViolation) && c2 != Str(UniqueViolation)
    ensures FinishSignup(r, p, Failed(c1)) == FinishSignup(r, p, Failed(c2)) == Error(500, SignupErrorText(r))
  {
  }

  /** A name whose conversion throws is stored, yet the signup answers 500,
      not 201 and not 409: the account exists but the client is told it
      failed. */
  lemma SignupStoredButAnswered500(r: Role, p: Payload, row: Row, n: nat)
    requires ConversionThrows(Get(p, "nome")) && Truthy(Get(p, "email")) && Truthy(Get(p, "senha"))
    ensures ValidateSignup(r, p).Issue?
    ensures FinishSignup(r, p, Done([row], n)) == Error(500, SignupErrorText(r))
  {
  }
}
