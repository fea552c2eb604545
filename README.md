# SQL gateway service: a Dafny model

The service takes a remote call that carries a raw SQL query and, in the
call metadata, an `auth` credential. It runs the query against a MySQL
database and answers with an envelope `{Status, Result, Error}`. This
project models the core of `sql_service/sql_service.go` and proves what it
promises:

- **Admission gate** (`Gate`, the source's `validation`). This is a pure
  function of the call metadata, the query and the shared secret. The
  metadata is `Option<seq<string>>`: `None` when the call has no metadata,
  otherwise the list of `auth` values. The secret is a parameter, not read
  from the environment.
- **Write entry points** (`Executor`: `RawQuery`, `InsertQuery`,
  `UpdateQuery`, `DeleteQuery`). In the source these four are textually
  identical. Here they share one function, `WriteQuery`. It maps the gate's
  verdict, the outcome of opening the handle and the outcome of executing
  the statement to the envelope.
- **Result materialiser** (`Materializer`, the source's `SelectQuery`).
  - The driver's answers are inputs: the query's cursor or its error, then
    the column names or their error, the column type names or their error,
    and the rows in cursor order. Each row is either its cells, already
    rendered as text, or the error its scan reported.
  - The classification loop, the per-row rendering loop and the cursor loop
    are `method`s with loop invariants. Each is proved equal to a
    specification function: `Classify`, `ObjectText`/`Record` and
    `Serialize`.
  - The lemmas about those functions state what the service answers.
- **Read-back** (`Readback`). The serialiser escapes nothing. So the
  round-trip property is stated with a parser for exactly the layout the
  service writes: the object and array forms of sections 4 and 5 of RFC
  8259, without the escapes of section 7. Names and values must be free of
  `"` `,` `{` `}` `[` `]` `:`. For such input, parsing a select result
  gives back one record per row, in cursor order. Each record has the
  column names in order, the row's values, and quotes exactly on the
  `VARCHAR` columns.
- **Shared helpers** (`Text`). `Join` puts a separator between parts.
  `Terminated` is the accumulate-then-trim form the loops build. The lemmas
  connect the two.

Every fixed string is the value of one of the source's constants
(`sql_service/sql_service.go:22-45`). For example, `REQUEST_NOT_FOUND` is
`"NOT FOUND"`, and `RESULT_BAD_DB_CONNECTION` is `"BAD DATABSE CONNECTION"`,
typo included. The model's constants carry those values.

The zero-column quirk is reproduced. With no columns, the rendering loop
never runs, so each row object is a lone `"{"` that is never closed
(`ObjectText([]) == "{"`). The round-trip lemmas therefore require at least
one column.

## Model

| member | source | states |
|---|---|---|
| Gate.Validation | sql_service/sql_service.go:59-80 | result INTERNAL ERROR iff no metadata; INVALID FORM iff metadata without auth or an empty query; ABORTED iff the call is malformed; UNAUTHORIZED (with result OK) iff well formed but `auth[0]` differs from the secret; admitted iff well formed and `auth[0]` equals the secret, and then the verdict is (OK, OK) |
| Gate.VerdictsAreFixed | sql_service/sql_service.go:59-80 | the gate only ever returns one of the four fixed (status, result) pairs |
| Gate.MissingMetadata | sql_service/sql_service.go:61-65 | without metadata the verdict is (ABORTED, INTERNAL ERROR), the same whatever the query and the secret |
| Gate.MissingAuth | sql_service/sql_service.go:67-69 | metadata with no auth entry gives (ABORTED, INVALID FORM), even for an empty query |
| Gate.EmptyQueryBeforeSecret | sql_service/sql_service.go:71-77 | an empty query gives (ABORTED, INVALID FORM) even when the credential equals the secret: the query is checked first |
| Gate.WrongCredential | sql_service/sql_service.go:75-76 | a well-formed call with a wrong first credential gives (UNAUTHORIZED, OK) |
| Gate.OnlyFirstCredential | sql_service/sql_service.go:75 | two auth lists with the same first value get the same verdict: later values are never compared |
| Executor.WriteQuery | sql_service/sql_service.go:82-103 | a rejected verdict comes back unchanged with Error "NULL"; status OK iff admitted, opened and executed, and then (OK, OK, "NULL"); otherwise an admitted call is ABORTED; for gate verdicts, reading the stage off the response gives exactly the step where the call stopped |
| Executor.RawQuery | sql_service/sql_service.go:82-103 | status OK iff the query is non-empty, the first auth value equals the secret, and opening and executing both succeed; for every input, the response tells refused, connection failed (with its message), statement failed (with its message) or executed apart |
| Executor.InsertQuery | sql_service/sql_service.go:105-126 | the same promise as RawQuery |
| Executor.UpdateQuery | sql_service/sql_service.go:216-237 | the same promise as RawQuery |
| Executor.DeleteQuery | sql_service/sql_service.go:239-260 | the same promise as RawQuery |
| Executor.WriteEntryPointsAgree | sql_service/sql_service.go:82-260 | Insert (:105-126), Update (:216-237) and Delete (:239-260) answer exactly as RawQuery (:82-103) for the same inputs; the model gives them one body because the four handlers are textually identical |
| Executor.RefusedSkipsDatabase | sql_service/sql_service.go:83-87 | a rejected call's response does not depend on the driver's outcomes: no database step is reached |
| Executor.ConnectionAndStatementFailuresDiffer | sql_service/sql_service.go:92-100 | an open failure and an exec failure are both ABORTED but carry different results |
| Materializer.Classify | sql_service/sql_service.go:162-170 | one kind per column type, same length and order; kind i is Str iff type name i is "VARCHAR" |
| Materializer.ClassifyColumns | sql_service/sql_service.go:162-170 | the append loop yields exactly `Classify` of the column types: one kind per type, in order, Str exactly for "VARCHAR" |
| Materializer.RenderRow | sql_service/sql_service.go:186-202 | the inner loop builds "{", the pairs joined by ",", "}" (a lone "{" for zero columns), each pair quoting the value exactly for Str columns |
| Materializer.WalkRows | sql_service/sql_service.go:172-213 | the cursor loop with its trailing-comma trim yields the first failing scan's error, or NOT FOUND for no rows, or the "[...]" array of the row objects in cursor order |
| Materializer.ReadCursor | sql_service/sql_service.go:150-213 | a Columns or ColumnTypes error aborts as INTERNAL ERROR; otherwise the rows are walked as above |
| Materializer.Serialize | sql_service/sql_service.go:172-213 | ABORTED iff some row's scan fails, and then INTERNAL ERROR with the first failing scan's message; NOT FOUND iff there are no rows, and then (NOT FOUND, OK, "NULL"); otherwise OK |
| Materializer.Materialize | sql_service/sql_service.go:150-213 | ABORTED iff the column names or types cannot be read or some scan fails, always with INTERNAL ERROR; NOT FOUND iff names and types were read and there are no rows; the status is OK, ABORTED or NOT FOUND |
| Materializer.Select | sql_service/sql_service.go:128-214 | the status is OK, ABORTED, UNAUTHORIZED or NOT FOUND; UNAUTHORIZED iff the call is well formed with a wrong first credential; OK or NOT FOUND only for an admitted call that opened and queried; BAD DATABSE CONNECTION iff admitted and the open failed; QUERY ERROR iff admitted, opened and the query failed |
| Materializer.SelectQuery | sql_service/sql_service.go:128-214 | the whole select handler equals the specification `Select`: gate, open, query, materialise |
| Materializer.ZeroRowsNotFound | sql_service/sql_service.go:208-209 | a cursor without rows answers (NOT FOUND, OK, "NULL"), not an empty array |
| Materializer.NotFoundExactly | sql_service/sql_service.go:128-209 | status NOT FOUND iff the call was admitted, opened, queried, its columns and types were read and there were no rows |
| Materializer.RowsGiveArray | sql_service/sql_service.go:173-212 | N >= 1 rows that all scan give status OK, Error "NULL" and the array of their row objects in cursor order |
| Materializer.ScanFailureDiscardsRows | sql_service/sql_service.go:175-184 | a failing scan at row k, after k rows that scanned, gives (ABORTED, INTERNAL ERROR, its message): earlier rows are discarded |
| Materializer.MetadataFailureIsInternal | sql_service/sql_service.go:150-160 | failing to read column names or types gives ABORTED, INTERNAL ERROR and that call's message |
| Materializer.SelectAgreesWithWrites | sql_service/sql_service.go:129-146 | a refused call or an open failure gets the same response from select as from a write; a failing query gets the response a failing statement gets |
| Materializer.FirstScanFailureAt | sql_service/sql_service.go:175-184 | the error reported is that of the first row whose scan fails |
| Text.TerminatedIsJoin | sql_service/sql_service.go:204-211 | appending each row object followed by "," yields the joined objects plus one trailing "," |
| Text.TrimSeparator | sql_service/sql_service.go:211 | slicing off the last character of that accumulator leaves exactly the joined objects |
| Text.TerminatedThenLast | sql_service/sql_service.go:188-202 | pairs followed by "," with the last pair followed by nothing give the pairs joined by "," |
| Readback.SelectRoundTrip | sql_service/sql_service.go:173-212 | for clean names and values, at least one column and at least one row, the select answers OK and parsing its result gives back exactly the records of its rows (names paired with the row's cells and the columns' kinds) |
| Readback.SelectReadsBack | sql_service/sql_service.go:173-212 | the same, field by field: as many records as rows; record k, field i has column i's name, row k's value i, and is quoted iff column i's type is VARCHAR |
| Executor.WriteQueryAsWritten | sql_service/sql_service.go:89-94 | as written, a write handler panics exactly when an admitted call's open fails, because the deferred `db.Close()` runs on a nil handle; otherwise it replies with `WriteQuery`'s envelope |
| Executor.OpenFailureNeverAnswers | sql_service/sql_service.go:89-94 | an admitted call with a malformed connection string: the as-written handler panics, and the intended one answers (ABORTED, BAD DATABSE CONNECTION, the driver's message) |
| Materializer.SelectAsWritten | sql_service/sql_service.go:135-140 | as written, the select handler panics exactly when an admitted call's open fails; otherwise it replies with `Select`'s envelope |
| Materializer.SelectOpenFailureNeverAnswers | sql_service/sql_service.go:135-140 | the same input for select: as written a panic, intended (ABORTED, BAD DATABSE CONNECTION, the driver's message) |
| Readback.ArrayRoundTrip | sql_service/sql_service.go:186-212 | parsing the array text of records that each have at least one clean field gives back exactly those records |

## Left out

- `server.go`: process bootstrap (environment loading, TCP listener, gRPC registration, fatal exits). It has no logic of the service.
- The DSN assembly and `os.Getenv` calls: the secret is a parameter, and the connection string is not modelled.
- `metadata.FromIncomingContext`: only its result is modelled, as an optional list of `auth` values.
- Driver calls (`sql.Open`, `Exec`, `Query`, `Columns`, `ColumnTypes`, `Next`, `Scan`): their outcomes are inputs. For a write, the exec outcome stands for executing the request's own query.
- `requestOutput`'s second return value: it is always nil, so the model's `Output` constructor builds the envelope.
- `rows.Close()`, and `db.Close()` once the handle is open: they release resources and do not change the response. On a failed open, the deferred `db.Close()` does change the outcome; see "## Findings".
- Rendering cells with `fmt.Sprintf("%s", ...)` through reflection: each cell is given as already-rendered text.
- `rows.Err()` is never consulted by the source. A cursor that stops on an error looks like one that ran out of rows. The model's row sequence is simply the rows the cursor yielded.
- Concurrent dispatch by the gRPC server: handlers share no state.
- Determinism (the same select twice gives the same text): every member here is a function of its inputs, so this holds by construction and is not stated as a lemma.
- Materializer.SelectQuery, ReadCursor, WalkRows: they require a well-formed cursor. That means as many type names as columns, and as many cells as columns in every row that scans. `database/sql` reports one column type per column, so the first half always holds. With fewer type names the source would index out of range (:190, :196). With more, it would run normally, but that cannot happen. The second half comes from the source itself: it allocates one destination per column (:176), and `Scan` either fills all of them or reports an error, which the model represents as a failed scan.
- Readback.SelectRoundTrip: it holds only for names and values free of the layout characters and for at least one column. The service escapes nothing, and a zero-column row is an unclosed "{".
- A select response cannot be decoded into "where the call stopped" as a write response can. A missing-metadata rejection and a failed column read are both (ABORTED, INTERNAL ERROR), and the driver's message may itself be "NULL".

## Findings

| source | as written | input that shows it | evidently intended | confidence | as-written member | corrected member |
|---|---|---|---|---|---|---|
| sql_service/sql_service.go:89-94 | `defer db.Close()` is registered before `err` is checked. When `sql.Open` fails, `db` is nil, and the deferred Close panics as the handler returns. The same lines recur at :112-117, :223-228 and :246-251 | an admitted write whose connection string the driver cannot parse | answer (ABORTED, BAD DATABSE CONNECTION, the driver's message) | medium, not executed | Executor.OpenFailureNeverAnswers | Executor.WriteQuery |
| sql_service/sql_service.go:135-140 | the same order in the select handler | an admitted select whose connection string the driver cannot parse | answer (ABORTED, BAD DATABSE CONNECTION, the driver's message) | medium, not executed | Materializer.SelectOpenFailureNeverAnswers | Materializer.Select |
