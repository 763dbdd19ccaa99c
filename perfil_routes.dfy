/** The two profile fetches, GET /api/cuidador/perfil and GET
    /api/pacientes/perfil. Both read the fixed test record with id 1. */
module PerfilRoutes {
  import opened JsValues
  import opened Http

  /** The id both routes look up, a constant of the code. Neither route reads
      its request: each issues its select binding this id. */
  const TestId: JsValue := Num(1.0)

  const CuidadorNotFoundText: string := "Cuidador de teste (ID 1) não encontrado no banco de dados."
  const PacienteNotFoundText: string := "Paciente de teste (ID 1) não encontrado no banco de dados."
  /** Both routes answer a failure with this one text. */
  const PerfilErrorText: string := "Erro interno do servidor ao carregar dados do perfil."
  const InfoFisicas: string := "Informações físicas não especificadas."
  const FotoUrl: string := "assets/placeholder.png"

  /** `data_nascimento` as sent: null when the column is falsy, otherwise the
      calendar-date text `formatDate` gives for it (`formatDate` stands for
      `new Date(x).toISOString().split('T')[0]`; None is the RangeError that
      `toISOString` throws on an invalid date). */
  function BirthDate(row: Row, formatDate: JsValue -> Option<string>): (r: Try<JsValue>)
    ensures !Truthy(Get(row, "data_nascimento")) ==> r == Returned(Null)
    ensures Truthy(Get(row, "data_nascimento")) ==>
      match formatDate(Get(row, "data_nascimento"))
      case None => r == Threw(Undefined)
      case Some(text) => r == Returned(Str(text))
  {
    var raw := Get(row, "data_nascimento");
    if !Truthy(raw) then Returned(Null)
    else
      match formatDate(raw)
      case None => Threw(Undefined)
      case Some(text) => Returned(Str(text))
  }

  /** 404 when no row came back. Otherwise 200 with the first row reshaped:
      `telefone` is sent as `numero`, the birth date is formatted, and two
      constant fields are added; a birth date that cannot be formatted and
      any database error give 500. */
  function FinishCuidadorPerfil(o: DbOutcome, formatDate: JsValue -> Option<string>): (r: Response)
    ensures r.status == 404 <==> o.Done? && |o.rows| == 0
    ensures r.status == 404 ==> r == Error(404, CuidadorNotFoundText)
    ensures r.status == 200 <==> o.Done? && |o.rows| > 0 && BirthDate(o.rows[0], formatDate).Returned?
    ensures r.status == 200 ==>
      var row := o.rows[0];
      r.body == CuidadorPerfil(Get(row, "nome"), Get(row, "email"), Get(row, "telefone"), Get(row, "endereco"),
                               BirthDate(row, formatDate).value, Get(row, "genero"), InfoFisicas, FotoUrl)
    ensures r.status !in {200, 404} ==> r == Error(500, PerfilErrorText)
  {
    match o
    case Failed(_) => Error(500, PerfilErrorText)
    case Done(rows, _) =>
      if |rows| == 0 then Error(404, CuidadorNotFoundText)
      else
        var row := rows[0];
        match BirthDate(row, formatDate)
        case Threw(_) => Error(500, PerfilErrorText)
        case Returned(birth) =>
          Response(200, CuidadorPerfil(Get(row, "nome"), Get(row, "email"), Get(row, "telefone"), Get(row, "endereco"),
                                       birth, Get(row, "genero"), InfoFisicas, FotoUrl))
  }

  /** The body answers only `nome` and `email` of the first row, although the
      select also reads `idade`: changing any other column changes nothing. */
  function FinishPacientePerfil(o: DbOutcome): (r: Response)
    ensures r.status == 404 <==> o.Done? && |o.rows| == 0
    ensures r.status == 404 ==> r == Error(404, PacienteNotFoundText)
    ensures r.status == 200 <==> o.Done? && |o.rows| > 0
    ensures r.status == 200 ==> r.body == PacientePerfil(Get(o.rows[0], "nome"), Get(o.rows[0], "email"))
    ensures r.status == 500 <==> o.Failed?
    ensures r.status == 500 ==> r == Error(500, PerfilErrorText)
  {
    match o
    case Failed(_) => Error(500, PerfilErrorText)
    case Done(rows, _) =>
      if |rows| == 0 then Error(404, PacienteNotFoundText)
      else Response(200, PacientePerfil(Get(rows[0], "nome"), Get(rows[0], "email")))
  }

  /** Only `nome` and `email` of the first row reach the patient profile. */
  lemma PacientePerfilShowsOnlyNameAndEmail(row1: Row, row2: Row, rest1: seq<Row>, rest2: seq<Row>, n1: nat, n2: nat)
    requires Get(row1, "nome") == Get(row2, "nome") && Get(row1, "email") == Get(row2, "email")
    ensures FinishPacientePerfil(Done([row1] + rest1, n1)) == FinishPacientePerfil(Done([row2] + rest2, n2))
  {
    assert ([row1] + rest1)[0] == row1 && ([row2] + rest2)[0] == row2;
  }

  /** A caregiver without a birth date gets `data_nascimento: null`, and the
      formatter is then never consulted. */
  lemma MissingBirthDateIsNull(row: Row, f1: JsValue -> Option<string>, f2: JsValue -> Option<string>)
    requires !Truthy(Get(row, "data_nascimento"))
    ensures FinishCuidadorPerfil(Done([row], 1), f1) == FinishCuidadorPerfil(Done([row], 1), f2)
    ensures FinishCuidadorPerfil(Done([row], 1), f1).body.dataNascimento == Null
  {
  }
}
