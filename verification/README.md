# JSON list column types (Ebean `ScalarTypeJsonList`)

A Dafny model of how Ebean stores a `java.util.List` as JSON text in a
database column. `typeFor` picks one of three scalar types from the platform
(Postgres or not), the declared db type and the nullable flag:

- `Varchar` binds plain strings (`setString`) or a NULL typed `Types.VARCHAR`;
- `Json` and `JsonB` (the Postgres extensions, `PgBase`) always bind a
  Postgres object tagged `"json"` or `"jsonb"` (`setObject`), whose payload
  may be null.

Each type reads a column's text into a modify-aware list (`read`), parses
text into a plain list (`parse`), formats a list (`formatValue`) and binds a
list or a null (`bind`, `bindNull`). JSON library failures become
`SQLException`, `PersistenceException` or `TextException` depending on the
entry point.

The model is pure: each scalar type is a value of the datatype `ListType`, and
each bind is a function that returns the single `BindAction` the Java method
performs on its `DataBind`. The JSON library `EJson` is not part of this
model. It is a parameter, a value holding two functions (`write`,
`parseList`) that either return a result or fail with an `IOError`. "Does not
call the serialiser" is stated as "the result is the same for every `EJson`".
The row reader is also left out: `read` receives the column text as an
argument, which may be null.

Files:

- `wrappers.dfy`: `Option` (a nullable reference) and `Result` (a value or a thrown exception).
- `collaborators.dfy`: what the component sees of its collaborators: constants, list elements, `EJson`, `BindAction`, the text a column holds after an action.
- `scalar_type_json_list.dfy`: the scalar types, `typeFor`, and the read, parse, format and bind operations.
- `properties.dfy`: lemmas relating several calls.

The numeric values of `DbPlatformType.JSON` (5001) and `DbPlatformType.JSONB`
(5002) come from a class that is not part of this model. The proofs rely only
on their being different from each other. `Types.VARCHAR` is 12, as in
`java.sql.Types`.

Three behaviours of the code worth noting:

- On the Postgres variants, an empty list is serialised by `formatValue`. It is not replaced by the literal `"[]"`.
- On the Postgres variants, a serialiser failure surfaces as `PersistenceException`, not as the checked exception used by the VARCHAR variant.
- `parse` reports malformed text as `TextException`, the same kind as `read`.

## Model

| member | source | states |
|---|---|---|
| `ScalarTypeJsonList.NewVarchar` | src/main/java/io/ebeaninternal/server/type/ScalarTypeJsonList.java:40-42 | the Varchar type takes jdbc type `Types.VARCHAR` and keeps docType and nullable unchanged |
| `ScalarTypeJsonList.NewJson` | src/main/java/io/ebeaninternal/server/type/ScalarTypeJsonList.java:49-51 | the Json type takes jdbc type `DbPlatformType.JSON` and Postgres type `"json"`, and keeps docType and nullable |
| `ScalarTypeJsonList.NewJsonB` | src/main/java/io/ebeaninternal/server/type/ScalarTypeJsonList.java:58-60 | the JsonB type takes jdbc type `DbPlatformType.JSONB` and Postgres type `"jsonb"`, and keeps docType and nullable |
| `ScalarTypeJsonList.TypeFor` | src/main/java/io/ebeaninternal/server/type/ScalarTypeJsonList.java:24-34 | the result is well formed and keeps docType and nullable; it is JsonB exactly on Postgres with JSONB, Json exactly on Postgres with JSON, and Varchar in every other case |
| `ScalarTypeJsonList.Read` | src/main/java/io/ebeaninternal/server/type/ScalarTypeJsonList.java:73-82 | succeeds exactly when `parseList(json, true)` does and returns its list; a failure becomes a TextException carrying the offending text and the cause |
| `ScalarTypeJsonList.Parse` | src/main/java/io/ebeaninternal/server/type/ScalarTypeJsonList.java:117-124 | succeeds exactly when `parseList(value, false)` does and returns its list; a failure becomes a TextException carrying the text and the cause |
| `ScalarTypeJsonList.FormatValue` | src/main/java/io/ebeaninternal/server/type/ScalarTypeJsonList.java:108-115 | succeeds exactly when `write` does and returns its text; a failure becomes a PersistenceException with the cause |
| `ScalarTypeJsonList.BaseBindNull` | src/main/java/io/ebeaninternal/server/type/ScalarTypeJsonList.java:99-106 | stores NULL exactly when the column is nullable, and that NULL is typed VARCHAR; otherwise binds the string `"[]"` |
| `ScalarTypeJsonList.BaseBind` | src/main/java/io/ebeaninternal/server/type/ScalarTypeJsonList.java:84-97 | a null value is bindNull; the empty list binds `"[]"`; a non-empty list binds its serialised text; only ever setString or setNull(VARCHAR); fails exactly when a non-empty list cannot be written, as an SQLException with the cause |
| `ScalarTypeJsonList.PgBindNull` | src/main/java/io/ebeaninternal/server/type/ScalarTypeJsonList.java:159-162 | binds a Postgres object of the column's pgType; its payload is null exactly when nullable, otherwise `"[]"` |
| `ScalarTypeJsonList.PgBind` | src/main/java/io/ebeaninternal/server/type/ScalarTypeJsonList.java:151-157 | a null value is bindNull; every non-null list, the empty one included, binds an object of the column's pgType whose payload is the serialised text; fails exactly when `write` fails, as a PersistenceException |
| `ScalarTypeJsonList.BindNull` | src/main/java/io/ebeaninternal/server/type/ScalarTypeJsonList.java:99-106 | on every variant (Base.bindNull here, PgBase.bindNull at lines 159-162): stores NULL exactly when nullable, and a Varchar NULL is typed VARCHAR; a non-nullable column receives `"[]"`; binds a Postgres object exactly on Json and JsonB, tagged with their pgType |
| `ScalarTypeJsonList.Bind` | src/main/java/io/ebeaninternal/server/type/ScalarTypeJsonList.java:140-157 | on every variant (PgBase.bind here, Base.bind at lines 84-97): NULL is stored only for a null value on a nullable column; a non-null list stores `"[]"` for the Varchar empty list and the serialised text otherwise; setObject exactly on the Postgres variants, with their pgType; it fails exactly when a non-null list that reaches the serialiser (any on Postgres, a non-empty one on Varchar) is rejected by `write`, carrying its cause, as an SQLException exactly on Varchar |
| `ScalarTypeJsonListProperties.TypeForOffPostgresIgnoresDbType` | src/main/java/io/ebeaninternal/server/type/ScalarTypeJsonList.java:24-33 | off Postgres, every dbType gives the same Varchar type |
| `ScalarTypeJsonListProperties.TypeForOnPostgres` | src/main/java/io/ebeaninternal/server/type/ScalarTypeJsonList.java:25-33 | on Postgres: JSONB gives JsonB tagged `"jsonb"`, JSON gives Json tagged `"json"`, and any other dbType gives Varchar |
| `ScalarTypeJsonListProperties.TypeForReachesExactlyWellFormed` | src/main/java/io/ebeaninternal/server/type/ScalarTypeJsonList.java:24-61 | a list type is produced by typeFor for some platform and dbType exactly when it is well formed |
| `ScalarTypeJsonListProperties.NullReachesColumnIffNullable` | src/main/java/io/ebeaninternal/server/type/ScalarTypeJsonList.java:99-106 | some value makes bind store SQL NULL exactly when the column is nullable, whatever the variant and serialiser |
| `ScalarTypeJsonListProperties.BindOfNullIsBindNull` | src/main/java/io/ebeaninternal/server/type/ScalarTypeJsonList.java:151-153 | binding a null list is bindNull, on every variant |
| `ScalarTypeJsonListProperties.VarcharEmptyListIgnoresSerialiser` | src/main/java/io/ebeaninternal/server/type/ScalarTypeJsonList.java:88-89 | on Varchar the empty list binds `"[]"` under any two serialisers alike, so the serialiser is not consulted |
| `ScalarTypeJsonListProperties.PgEmptyListGoesThroughSerialiser` | src/main/java/io/ebeaninternal/server/type/ScalarTypeJsonList.java:154-155 | on the Postgres variants the empty list's payload is what `write` returns for it, and for some serialiser that payload is not `"[]"` |
| `ScalarTypeJsonListProperties.SerialiseFailureKinds` | src/main/java/io/ebeaninternal/server/type/ScalarTypeJsonList.java:91-114 | one serialiser failure on a non-empty list: Varchar bind throws an SQLException, while formatValue and the Postgres bind throw a PersistenceException with the same cause |
| `ScalarTypeJsonListProperties.ReadIsParseWithModifyAware` | src/main/java/io/ebeaninternal/server/type/ScalarTypeJsonList.java:73-124 | read equals parse over a library that always asks for a modify-aware list; both report failure as a TextException carrying the text |
| `ScalarTypeJsonListProperties.BindThenReadRoundTrip` | src/main/java/io/ebeaninternal/server/type/ScalarTypeJsonList.java:73-97 | if the library reads back what it writes and reads `"[]"` as empty, then reading the text that bind stored returns the list, on every variant |
| `ScalarTypeJsonListProperties.NotNullableNullReadsBackEmpty` | src/main/java/io/ebeaninternal/server/type/ScalarTypeJsonList.java:99-106 | on a non-nullable column a bound null reads back as the empty list, provided `"[]"` parses as empty |

## Left out

- `jsonRead` and `jsonWrite` pass a streaming Jackson parser or generator straight to EJson. They are not modelled because streaming tokens are outside this model.
- EJson's JSON grammar, serialisation and modify-aware list implementation are not modelled. `EJson` is a parameter, so round trips appear only as hypotheses (`FaithfulCodec`).
- Runtime (unchecked) exceptions that EJson may throw are not modelled. The same goes for a null string returned by `EJson.write`.
- The `DataReader` and `DataBind` driver objects are left out. They are foreign I/O. A bind is the single action it would perform, and `SQLException`s raised by the driver itself are not modelled.
- The internals of `PostgresHelper.asObject` are left out. Its result is represented by its two arguments (`SetObject(pgType, payload)`).
- The semantics of `DocPropertyType` and the `ScalarTypeJsonCollection` superclass are not part of this model. `docType` is carried along unchanged.
- List elements are modelled as JSON-like values with integer numbers. Floating-point numbers are not modelled.
- `StoredText` takes the database to return, through `getString`, exactly the text that was bound. `BindThenReadRoundTrip` and `NotNullableNullReadsBackEmpty` rest on that. On a Postgres `jsonb` column it holds only up to the normalisation `jsonb` applies: whitespace, object key order and duplicate keys are not preserved.
- Concurrency: the types are immutable after construction, and there is nothing to model.
