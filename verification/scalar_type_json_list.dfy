/**
 * Mapping of a java.util.List held as JSON onto the column types VARCHAR,
 * Postgres JSON and Postgres JSONB: the choice of variant, what each variant
 * binds into a statement, and how JSON library failures are reported.
 */
module ScalarTypeJsonList {
  import opened Wrappers
  import opened Collaborators

  /** Message of the exception thrown when a list cannot be written as JSON. */
  const FORMAT_FAILED: string := "Failed to format List into JSON content"
  /** Message template of the exception thrown when JSON cannot be read as a list. */
  const PARSE_FAILED: string := "Failed to parse JSON [{}] as List"

  /** The exceptions this component throws, each wrapping the library's cause. */
  datatype Exception =
    | SQLException(message: string, cause: IOError)
    | PersistenceException(message: string, cause: IOError)
    | TextException(message: string, json: Option<string>, cause: IOError)

  /**
   * The three concrete scalar types. Json and JsonB are the Postgres
   * extensions (PgBase) and carry the Postgres type name `pgType`.
   */
  datatype ListType =
    | Varchar(jdbcType: int, docType: DocPropertyType, nullable: bool)
    | Json(jdbcType: int, pgType: string, docType: DocPropertyType, nullable: bool)
    | JsonB(jdbcType: int, pgType: string, docType: DocPropertyType, nullable: bool)
  {
    /** True for the variants that extend PgBase. */
    predicate IsPg()
    {
      Json? || JsonB?
    }

    /** The JDBC type and Postgres type name each constructor fixes. */
    predicate WellFormed()
    {
      match this
      case Varchar(jdbc, _, _) => jdbc == VARCHAR
      case Json(jdbc, pg, _, _) => jdbc == DB_JSON && pg == JSON_TYPE
      case JsonB(jdbc, pg, _, _) => jdbc == DB_JSONB && pg == JSONB_TYPE
    }
  }

  /** `new Varchar(docType, nullable)` */
  function NewVarchar(docType: DocPropertyType, nullable: bool): (t: ListType)
    ensures t.Varchar? && t.WellFormed()
    ensures t.docType == docType && t.nullable == nullable
  {
    Varchar(VARCHAR, docType, nullable)
  }

  /** `new Json(docType, nullable)` */
  function NewJson(docType: DocPropertyType, nullable: bool): (t: ListType)
    ensures t.Json? && t.WellFormed()
    ensures t.docType == docType && t.nullable == nullable
  {
    Json(DB_JSON, JSON_TYPE, docType, nullable)
  }

  /** `new JsonB(docType, nullable)` */
  function NewJsonB(docType: DocPropertyType, nullable: bool): (t: ListType)
    ensures t.JsonB? && t.WellFormed()
    ensures t.docType == docType && t.nullable == nullable
  {
    JsonB(DB_JSONB, JSONB_TYPE, docType, nullable)
  }

  /**
   * The scalar type for a list column: the Postgres-native variants only on
   * Postgres and only for the JSON and JSONB db types, VARCHAR otherwise.
   */
  function TypeFor(postgres: bool, dbType: int, docType: DocPropertyType, nullable: bool): (t: ListType)
    ensures t.WellFormed()
    ensures t.docType == docType && t.nullable == nullable
    ensures t.JsonB? <==> postgres && dbType == DB_JSONB
    ensures t.Json? <==> postgres && dbType == DB_JSON
    ensures t.Varchar? <==> !postgres || (dbType != DB_JSON && dbType != DB_JSONB)
  {
    if postgres then
      if dbType == DB_JSONB then NewJsonB(docType, nullable)
      else if dbType == DB_JSON then NewJson(docType, nullable)
      else NewVarchar(docType, nullable)
    else
      NewVarchar(docType, nullable)
  }

  /** Base.read: parse the column text into a modify-aware list. */
  function Read(ej: EJson, json: Option<string>): (r: Result<JList, Exception>)
    ensures r.Success? <==> ej.parseList(json, true).Success?
    ensures r.Success? ==> r.value == ej.parseList(json, true).value
    ensures r.Failure? ==> r.error == TextException(PARSE_FAILED, json, ej.parseList(json, true).error)
  {
    match ej.parseList(json, true)
    case Success(list) => Success(list)
    case Failure(e) => Failure(TextException(PARSE_FAILED, json, e))
  }

  /** Base.parse: parse text into a plain (not modify-aware) list. */
  function Parse(ej: EJson, value: Option<string>): (r: Result<JList, Exception>)
    ensures r.Success? <==> ej.parseList(value, false).Success?
    ensures r.Success? ==> r.value == ej.parseList(value, false).value
    ensures r.Failure? ==> r.error == TextException(PARSE_FAILED, value, ej.parseList(value, false).error)
  {
    match ej.parseList(value, false)
    case Success(list) => Success(list)
    case Failure(e) => Failure(TextException(PARSE_FAILED, value, e))
  }

  /** Base.formatValue: always serialise, the empty list included. */
  function FormatValue(ej: EJson, value: JList): (r: Result<string, Exception>)
    ensures r.Success? <==> ej.write(value).Success?
    ensures r.Success? ==> r.value == ej.write(value).value
    ensures r.Failure? ==> r.error == PersistenceException(FORMAT_FAILED, ej.write(value).error)
  {
    match ej.write(value)
    case Success(s) => Success(s)
    case Failure(e) => Failure(PersistenceException(FORMAT_FAILED, e))
  }

  /** Base.bindNull: NULL typed VARCHAR when nullable, else the empty JSON array. */
  function BaseBindNull(nullable: bool): (a: BindAction)
    ensures StoresNull(a) <==> nullable
    ensures nullable ==> a == SetNull(VARCHAR)
    ensures !StoresNull(a) ==> a == SetString("[]")
  {
    if nullable then SetNull(VARCHAR) else SetString("[]")
  }

  /**
   * Base.bind (the VARCHAR variant): null goes through bindNull, the empty
   * list binds "[]" without consulting the serialiser, any other list binds
   * its serialised form; a serialiser failure becomes an SQLException.
   */
  function BaseBind(nullable: bool, ej: EJson, value: JList): (r: Result<BindAction, Exception>)
    ensures value.None? ==> r == Success(BaseBindNull(nullable))
    ensures value == Some([]) ==> r == Success(SetString("[]"))
    ensures r.Success? ==> r.value.SetString? || r.value == SetNull(VARCHAR)
    ensures r.Failure? <==> value.Some? && value.value != [] && ej.write(value).Failure?
    ensures r.Failure? ==> r.error == SQLException(FORMAT_FAILED, ej.write(value).error)
    ensures value.Some? && value.value != [] && r.Success? ==> r.value == SetString(ej.write(value).value)
  {
    if value.None? then
      Success(BaseBindNull(nullable))
    else if value.value == [] then
      Success(SetString("[]"))
    else
      match ej.write(value)
      case Success(s) => Success(SetString(s))
      case Failure(e) => Failure(SQLException(FORMAT_FAILED, e))
  }

  /** PgBase.bindNull: a Postgres object whose payload is null, or "[]" when not nullable. */
  function PgBindNull(pgType: string, nullable: bool): (a: BindAction)
    ensures a.SetObject? && a.pgType == pgType
    ensures StoresNull(a) <==> nullable
    ensures !nullable ==> a.payload == Some("[]")
  {
    SetObject(pgType, if nullable then None else Some("[]"))
  }

  /**
   * PgBase.bind: null goes through bindNull; every other list, the empty one
   * included, is serialised by formatValue, so a failure is a
   * PersistenceException rather than an SQLException.
   */
  function PgBind(pgType: string, nullable: bool, ej: EJson, value: JList): (r: Result<BindAction, Exception>)
    ensures value.None? ==> r == Success(PgBindNull(pgType, nullable))
    ensures r.Success? ==> r.value.SetObject? && r.value.pgType == pgType
    ensures value.Some? ==> (r.Success? <==> ej.write(value).Success?)
    ensures value.Some? && r.Success? ==> r.value.payload == Some(ej.write(value).value)
    ensures r.Failure? ==> r.error == PersistenceException(FORMAT_FAILED, ej.write(value).error)
  {
    if value.None? then
      Success(PgBindNull(pgType, nullable))
    else
      match FormatValue(ej, value)
      case Success(s) => Success(SetObject(pgType, Some(s)))
      case Failure(e) => Failure(e)
  }

  /** bindNull as dispatched on the concrete type. */
  function BindNull(t: ListType): (a: BindAction)
    ensures StoresNull(a) <==> t.nullable
    ensures !t.nullable ==> StoredText(a) == Some("[]")
    ensures a.SetNull? ==> a.sqlType == VARCHAR
    ensures a.SetObject? <==> t.IsPg()
    ensures t.IsPg() ==> a.pgType == t.pgType
  {
    match t
    case Varchar(_, _, nullable) => BaseBindNull(nullable)
    case Json(_, pgType, _, nullable) => PgBindNull(pgType, nullable)
    case JsonB(_, pgType, _, nullable) => PgBindNull(pgType, nullable)
  }

  /**
   * bind as dispatched on the concrete type: only a null value on a nullable
   * column stores NULL, the Postgres variants only ever bind a Postgres
   * object of their own type name, a list stores its serialised text (the
   * VARCHAR empty list stores "[]"), and a failure always wraps the
   * serialiser's cause.
   */
  function Bind(t: ListType, ej: EJson, value: JList): (r: Result<BindAction, Exception>)
    ensures value.None? ==> r == Success(BindNull(t))
    ensures r.Success? && StoresNull(r.value) ==> value.None? && t.nullable
    ensures r.Success? ==> (r.value.SetObject? <==> t.IsPg())
    ensures r.Success? && t.IsPg() ==> r.value.pgType == t.pgType
    ensures r.Failure? ==> (r.error.SQLException? <==> t.Varchar?) && !r.error.TextException?
    ensures r.Failure? <==> value.Some? && ej.write(value).Failure? && (t.IsPg() || value.value != [])
    ensures value.Some? && r.Success? ==>
      StoredText(r.value) == (if t.Varchar? && value.value == [] then Some("[]") else Some(ej.write(value).value))
    ensures r.Failure? ==> r.error.message == FORMAT_FAILED && r.error.cause == ej.write(value).error
  {
    match t
    case Varchar(_, _, nullable) => BaseBind(nullable, ej, value)
    case Json(_, pgType, _, nullable) => PgBind(pgType, nullable, ej, value)
    case JsonB(_, pgType, _, nullable) => PgBind(pgType, nullable, ej, value)
  }
}
