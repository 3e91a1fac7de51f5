/**
 * The collaborators the list type talks to: the JSON library (EJson), the
 * statement binder (DataBind), the Postgres object wrapper and the constants
 * of java.sql.Types, DbPlatformType and PostgresHelper. Their insides are not
 * part of this model; only what this component can observe of them is.
 */
module Collaborators {
  import opened Wrappers

  /** java.sql.Types.VARCHAR */
  const VARCHAR: int := 12
  /** DbPlatformType.JSON */
  const DB_JSON: int := 5001
  /** DbPlatformType.JSONB */
  const DB_JSONB: int := 5002
  /** PostgresHelper.JSON_TYPE, the Postgres type name of a json object */
  const JSON_TYPE: string := "json"
  /** PostgresHelper.JSONB_TYPE, the Postgres type name of a jsonb object */
  const JSONB_TYPE: string := "jsonb"

  /**
   * An element of a list as Jackson sees it: a JSON-compatible value, or an
   * object the serialiser may not be able to write.
   */
  datatype Element =
    | JNull
    | JBool(b: bool)
    | JNumber(n: int)
    | JString(s: string)
    | JArray(items: seq<Element>)
    | JObject(fields: seq<(string, Element)>)
    | Unmappable(className: string)

  /** A java.util.List reference: null, or an ordered sequence of elements. */
  type JList = Option<seq<Element>>

  /** The cause carried by an IOException thrown by the JSON library. */
  datatype IOError = IOError(message: string)

  /**
   * The JSON library as this component uses it: `write` serialises a list
   * (EJson.write), `parseList` parses text into a list, with a flag asking
   * for a modify-aware list (EJson.parseList). Either may throw IOException.
   */
  datatype EJson = EJson(
    write: JList -> Result<string, IOError>,
    parseList: (Option<string>, bool) -> Result<JList, IOError>)

  /** Document-store property metadata; carried along, never interpreted. */
  datatype DocPropertyType = DocPropertyType(name: string)

  /**
   * The one call a bind makes on its DataBind: setString, setNull with a JDBC
   * type, or setObject with the Postgres object built by
   * PostgresHelper.asObject(pgType, payload) (a null payload is Java null).
   */
  datatype BindAction =
    | SetString(s: string)
    | SetNull(sqlType: int)
    | SetObject(pgType: string, payload: Option<string>)

  /** The text the column holds once the action is executed (None: SQL NULL). */
  function StoredText(a: BindAction): Option<string>
  {
    match a
    case SetString(s) => Some(s)
    case SetNull(_) => None
    case SetObject(_, payload) => payload
  }

  /** True when the action stores SQL NULL in the column. */
  predicate StoresNull(a: BindAction)
  {
    StoredText(a).None?
  }
}
