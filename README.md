# Request handlers of the caregiving backend, modelled in Dafny

`server.js` is an Express server over PostgreSQL for a caregiving app. Patients
get their attributes recorded (name, age, weight, blood type, comorbidity).
Family members (`familiares`) and caregivers (`cuidador`) sign up and log in.
A caregiver submits professional details, lists their patients and schedules
medication. Each POST handler destructures `req.body`, and all but the
comorbidity route run a chain of early-return checks. The three GET handlers
read no body and go straight to their query: the two profiles use a fixed id,
and the patient list uses its path parameter. Every handler issues at most
one parameterized SQL statement and turns the outcome into an HTTP status and
a JSON body.

The model splits every handler into two pure functions:

- **Validate**: the body (a map from property names to JavaScript values)
  goes in. Out comes either `Reject(response)` or `Issue(query)`. The query
  names the statement and the exact parameter list bound to it.
- **Finish**: the database's outcome goes in. That outcome is a result with
  rows and a `rowCount`, or a thrown error with its `code`. Out comes the
  final response.

`Server.Serve` chains the two for any route. The database is a function
from query to outcome, passed in as a parameter. So are the clock, JavaScript
date parsing, and the date formatting that the caregiver profile uses.

JavaScript semantics are written out where the handlers rely on them:

- `!x` (`Truthy`): `0` and `""` count as missing.
- `a || b` (`Or`).
- Left-to-right `||` chains of presence tests (`AnyFalsy`).
- `===` (`StrictEquals`).
- `String.prototype.length` (`Utf16Length`): it counts UTF-16 code units.
  A single character outside the Basic Multilingual Plane therefore passes
  the blood-type length check.
- Conversion to a primitive (`ConversionThrows`), which template literals and
  `new Date(x)` perform. A JSON object with its own `toString` property, or
  an array holding one, makes the conversion throw a TypeError.

An `INSERT ... RETURNING id` that returns no row makes `result.rows[0].id`
throw inside the `try` block. The model sends that case to the `catch`
branch like the code does, with an undefined error code, so the answer is 500.
A template literal inside the `try` whose argument does not convert is sent
there too, even after the row was written.

The medication route calls `new Date(data_hora)` before its `try`. When that
conversion throws, the handler sends no response at all. The decision for
that case is `Escapes`, and `Server.Serve` returns `Unanswered`.

The model follows the code on these points, where a reader might expect otherwise:

- Paths are the code's `/api/paciente/...` and `/api/cuidador/...`.
- The professional update answers 200 with only `message` and `cuidador_id`.
  It does not return the three updated fields.
- The medication insert binds the parsed time, not the submitted text. The
  201 body echoes the submitted `data_hora` text.

## Model

| member | source | states |
|---|---|---|
| JsValues.Get | server.js:52 | destructuring a body property: the value when present, `undefined` when absent |
| JsValues.Truthy | server.js:54 | JavaScript truthiness: the falsy values are exactly undefined, null, false, 0 and "" |
| JsValues.Or | server.js:172 | JavaScript `or` on values yields the first operand when truthy and the second otherwise |
| JsValues.AnyFalsy | server.js:505 | the left-to-right chain of negated presence tests holds exactly when some listed value is falsy |
| JsValues.StrictEquals | server.js:219 | `===` holds exactly for equal primitives of the same type; an object from the body is never identical to another value |
| JsValues.ConversionThrows | server.js:69 | converting a value to a primitive throws exactly for an object with its own `toString` and for an array with an element that throws; primitives never throw |
| JsValues.ConversionExamples | server.js:511 | an own `toString` makes the conversion throw even nested in an array; an own `valueOf`, an empty object and null elements do not |
| JsValues.Utf16Length | server.js:142 | a string's JavaScript length lies between its character count and twice that, and equals the character count exactly when no character is outside the BMP |
| Http.InsertedId | server.js:61-68 | reading `rows[0].id` throws exactly when the query failed or returned no row; it throws the database's code, or undefined for the missing row |
| PacienteRoutes.Stored | server.js:172 | the value bound and echoed is the field unchanged, except that a falsy comorbidity becomes the default text |
| PacienteRoutes.Validate | server.js:52-182 | an attribute is rejected with 400 exactly when its check fails (falsy; for blood type a non-string or length below 2; comorbidity never); otherwise exactly one insert into its column binding the stored value |
| PacienteRoutes.Finish | server.js:58-193 | 201 with the returned id, the message and the stored value exactly when a row comes back and the stored value converts to text; otherwise the route's fixed 500 body |
| PacienteRoutes.InsertedButAnswered500 | server.js:51-77 | a name given as an object with its own `toString` is inserted, yet the answer is the 500 body |
| PacienteRoutes.BloodTypeNeverThrows | server.js:139-166 | an accepted blood type is a string, so a returned row always gives 201 |
| PacienteRoutes.ZeroAndEmptyAreMissing | server.js:83-85 | age 0, weight 0, an empty name and an absent name are rejected with 400 before any query |
| PacienteRoutes.BloodTypeRule | server.js:142-146 | a blood type is accepted exactly when it is a string of two or more characters, or of one character outside the BMP |
| PacienteRoutes.FalsyTestRedundant | server.js:142 | the leading falsy test of the blood-type check adds nothing to the string and length tests |
| PacienteRoutes.LengthAtLeastTwo | server.js:142 | JavaScript length at least 2 holds exactly for two or more characters or one astral character |
| PacienteRoutes.BloodTypeExample | server.js:139-161 | `"O-"` is bound as the only parameter, and returned id 7 gives a body with id 7 and `tipo_sanguineo: "O-"` |
| PacienteRoutes.ComorbidityAlwaysInserts | server.js:169-193 | the comorbidity route never rejects and answers only 201 or 500; 201 exactly when a row comes back and the bound value converts; the value it binds is the value it echoes; a falsy field binds the default text |
| PacienteRoutes.ErrorsGive500 | server.js:73-76 | every database error, and an insert returning no row, gives the same fixed 500 body |
| AccountRoutes.ValidateLogin | server.js:198-210 | 400 with no query exactly when `identificador` or `senha` is falsy; otherwise one select on the role's table binding `identificador` as both email and phone |
| AccountRoutes.FinishLogin | server.js:212-233 | 500 exactly on a database error; 401 exactly when no row comes back or the first row's password differs by `===`; otherwise 200 with the first row's id and name |
| AccountRoutes.LoginFailuresIndistinguishable | server.js:214-222 | an unknown identifier and a wrong password get identical responses |
| AccountRoutes.LoginComparesFirstRowOnly | server.js:218-219 | rows after the first never affect the login answer |
| AccountRoutes.LoginSucceedsOnMatchingPassword | server.js:218-228 | a first row whose stored password is the submitted string gives 200 with that row's id and name |
| AccountRoutes.NumericPasswordNeverMatchesString | server.js:219 | a password sent as a number never matches a stored string password |
| AccountRoutes.ValidateSignup | server.js:237-251 | 400 with no query exactly when `nome`, `email` or `senha` is falsy; otherwise one insert binding the seven columns in order, as received |
| AccountRoutes.FinishSignup | server.js:253-265 | 201 with the returned id exactly when a row comes back and `nome` converts to text; 409 exactly for error code "23505"; 500 otherwise |
| AccountRoutes.SignupErrorsOtherThanConflictAre500 | server.js:258-265 | every error code other than "23505" gives the same 500 body |
| AccountRoutes.SignupStoredButAnswered500 | server.js:253-265 | a `nome` whose conversion throws passes the checks and is inserted, yet the answer is 500, not 201 or 409 |
| CuidadorRoutes.ValidateProfissional | server.js:302-321 | 400 with no query exactly when `cuidador_id` or `formacao` is falsy or `declaracao_apto` is not the boolean true; otherwise the update binds formacao, registro_profissional, cuidador_id and sets "Pendente" |
| CuidadorRoutes.DeclaracaoAptoMustBeTrue | server.js:304-308 | with the other fields present, `true` is accepted and `"true"`, `1` and an absent declaration are rejected with 400 |
| CuidadorRoutes.FinishProfissional | server.js:323-337 | 404 exactly when rowCount is 0 and `cuidador_id` converts to text; 200 echoing `cuidador_id` exactly when rowCount is positive; 500 exactly on a database error or an unconvertible id with rowCount 0 |
| CuidadorRoutes.UnconvertibleIdNotFoundIs500 | server.js:324-327 | an id with its own `toString` passes the checks; with no matching row the answer is 500, not 404 |
| CuidadorRoutes.FinishSelecionarPaciente | server.js:486-493 | any row set, empty included, is answered unchanged with 200; a database error gives 500 |
| CuidadorRoutes.EmptyPatientListIsOk | server.js:488 | a caregiver with no patients gets 200 with an empty list, not 404 |
| CuidadorRoutes.ValidateMedicamento | server.js:505-533 | a falsy field gives 400; then a `data_hora` whose conversion throws escapes the handler; then an unparseable date gives 400; then a time before now gives 400; only otherwise one insert with status "pendente" binding the four fields and the parsed time |
| CuidadorRoutes.MedicamentoCheckOrder | server.js:505-522 | a falsy field, any of the five, gives 400 whatever the date and clock say; a date that does not convert or parse gives the same decision at every time and no insert; a time equal to now is accepted |
| CuidadorRoutes.UnconvertibleDateEscapes | server.js:505-511 | all fields present and `data_hora` an object with its own `toString`: the handler throws before its `try` |
| CuidadorRoutes.MedicamentoPresence | server.js:505 | the presence check passes exactly when all five fields are truthy |
| CuidadorRoutes.FinishMedicamento | server.js:535-564 | 201 with the id and the entry as submitted (status "pendente", original `data_hora`) exactly when a row comes back; 400 exactly for "23503"; 500 otherwise |
| CuidadorRoutes.MedicamentoUniqueViolationIs500 | server.js:555-563 | a unique violation on the schedule insert gives the generic 500 |
| PerfilRoutes.BirthDate | server.js:408-412 | a falsy birth date is sent as null; otherwise it is formatted, or the formatter's throw reaches the catch |
| PerfilRoutes.FinishCuidadorPerfil | server.js:400-428 | 404 exactly on zero rows; 200 with the first row reshaped (`telefone` as `numero`, formatted birth date, the two constant fields) when the date formats; 500 otherwise |
| PerfilRoutes.FinishPacientePerfil | server.js:447-465 | 404 exactly on zero rows; 200 with only the first row's `nome` and `email`; 500 exactly on a database error |
| PerfilRoutes.PacientePerfilShowsOnlyNameAndEmail | server.js:453-460 | first rows that agree on `nome` and `email` give the same response |
| PerfilRoutes.MissingBirthDateIsNull | server.js:408-419 | a caregiver without a birth date gets `data_nascimento: null`, whatever the formatter |
| Server.Validate | server.js:51-511 | every early rejection of every route is a 400; the handler escapes exactly on the medication route's date conversion after the presence check |
| Server.Finish | server.js:58-564 | every answer built from a database outcome carries one of its route's statuses |
| Server.Serve | server.js:51-565 | every answer carries one of its route's statuses; a cycle ends unanswered exactly when the medication route's date conversion throws after the presence check |
| Server.RejectedRequestsIssueNoQuery | server.js:54-56 | a request rejected by its checks gets the same 400 answer whatever the database |
| Server.UnconvertibleDateIsUnanswered | server.js:496-511 | a medication entry whose `data_hora` has its own `toString` goes unanswered, whatever the database and clock |
| Server.OnlyTheIssuedQueryIsConsulted | server.js:61-64 | two databases that agree on the issued query give the same answer |
| Server.FetchRoutesNeverReject | server.js:380-494 | for every body and environment, the profile routes issue their select for id 1, the patient list its select binding the path segment, and the comorbidity route an insert |
| Server.InternalErrorsHideTheCause | server.js:73-76 | apart from "23505" and "23503", a database error gets a 500 body that does not depend on the error |

## Left out

- Database connection setup, the module-level `pool`, CORS and JSON middleware, and `app.listen` (server.js:1-40, 568-571). These are process plumbing. A missing pool makes `pool.query` throw with no code, which is one of the `Failed` outcomes.
- The SQL engine: unique emails, foreign keys, `RETURNING id` and which rows a select returns. The model takes the outcome as a parameter. So "signup, then login with the same credentials succeeds" and "a duplicate email creates no row" cannot be stated. Neither can the effect of the professional update on the stored row.
- JavaScript `Date` parsing, `new Date()` and `toISOString().split('T')[0]`. These are the `parseDate`, `now` and `formatDate` parameters of `Server.Env`.
- The text a template literal makes of its argument, and JSON serialization. Only whether the conversion throws is modelled, and message templates keep their argument as a value. A body field holding `undefined` stands for a key that JSON serialization leaves out.
- What Express does with a handler whose promise rejects before it answers. `Server.Serve` returns `Unanswered` there.
- What the `pg` driver does with bound values: `undefined` becomes SQL null, and a `Date` is converted to a timestamp.
- Bodies that are not a JSON object, or requests without a parsed body. The model takes the body as a property map.
- PacienteRoutes.BloodTypeRule: strings holding an unpaired UTF-16 surrogate are not covered. `JSON.parse` can produce them from `\ud800` escapes, but a Dafny `char` cannot hold one, so `JsValues.Utf16Length` covers only well-formed strings.
- Numbers that are not finite. `JSON.parse` reads a literal too large for a double, such as `1e400`, as Infinity, which is truthy; `JsValues.JsValue` has no such value. Finite numbers are exact reals, without rounding to a double.
- Object identity in `===`. `StrictEquals` treats any array or object from the body as distinct from every other value.
- `console.error` logging, the async scheduling and concurrency between requests.
- Password hashing. The code compares plaintext passwords with `===`, and the model does the same.
- The MySQL variant of the server is not part of this model.
