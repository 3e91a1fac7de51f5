/**
 * Properties that relate several calls of the list type: which variants the
 * configuration can reach, when NULL reaches a column, how the two empty-list
 * paths differ, how the two error kinds of one failure differ, and what a
 * read returns for what a bind stored when the JSON library is a faithful
 * codec.
 */
module ScalarTypeJsonListProperties {
  import opened Wrappers
  import opened Collaborators
  import opened ScalarTypeJsonList

  /** Off Postgres the declared db type is ignored: every dbType gives the same VARCHAR type. */
  lemma TypeForOffPostgresIgnoresDbType(dbType1: int, dbType2: int, docType: DocPropertyType, nullable: bool)
    ensures TypeFor(false, dbType1, docType, nullable) == TypeFor(false, dbType2, docType, nullable)
    ensures TypeFor(false, dbType1, docType, nullable) == Varchar(VARCHAR, docType, nullable)
  {
  }

  /** The Postgres decision table, with the type names the native variants carry. */
  lemma TypeForOnPostgres(dbType: int, docType: DocPropertyType, nullable: bool)
    ensures dbType == DB_JSONB ==> TypeFor(true, dbType, docType, nullable) == JsonB(DB_JSONB, JSONB_TYPE, docType, nullable)
    ensures dbType == DB_JSON ==> TypeFor(true, dbType, docType, nullable) == Json(DB_JSON, JSON_TYPE, docType, nullable)
    ensures dbType != DB_JSON && dbType != DB_JSONB ==> TypeFor(true, dbType, docType, nullable) == Varchar(VARCHAR, docType, nullable)
  {
  }

  /**
   * Every well-formed list type, and only a well-formed one, is what typeFor
   * returns for some configuration with the same docType and nullable flag.
   */
  lemma TypeForReachesExactlyWellFormed(t: ListType)
    ensures (exists postgres: bool, dbType: int :: TypeFor(postgres, dbType, t.docType, t.nullable) == t) <==> t.WellFormed()
  {
    if t.WellFormed() {
      match t
      case Varchar(_, _, _) =>
        assert TypeFor(false, 0, t.docType, t.nullable) == t;
      case Json(_, _, _, _) =>
        assert TypeFor(true, DB_JSON, t.docType, t.nullable) == t;
      case JsonB(_, _, _, _) =>
        assert TypeFor(true, DB_JSONB, t.docType, t.nullable) == t;
    }
  }

  /**
   * A column receives SQL NULL from some value exactly when it is nullable;
   * a non-nullable column never receives NULL, whatever the serialiser does.
   */
  lemma NullReachesColumnIffNullable(t: ListType, ej: EJson)
    ensures (exists v: JList :: Bind(t, ej, v).Success? && StoresNull(Bind(t, ej, v).value)) <==> t.nullable
  {
    if t.nullable {
      assert Bind(t, ej, None).Success? && StoresNull(Bind(t, ej, None).value);
    }
  }

  /** bind of a null list is bindNull, on every variant. */
  lemma BindOfNullIsBindNull(t: ListType, ej: EJson)
    ensures Bind(t, ej, None) == Success(BindNull(t))
  {
  }

  /** On VARCHAR the empty list binds "[]" whatever the serialiser is: it is not consulted. */
  lemma VarcharEmptyListIgnoresSerialiser(t: ListType, ej1: EJson, ej2: EJson)
    requires t.Varchar?
    ensures Bind(t, ej1, Some([])) == Bind(t, ej2, Some([])) == Success(SetString("[]"))
  {
  }

  /**
   * On the Postgres variants the empty list goes through formatValue: its
   * payload is whatever the serialiser writes for it, and there are
   * serialisers for which that is not the literal "[]".
   */
  lemma PgEmptyListGoesThroughSerialiser(t: ListType)
    requires t.IsPg()
    ensures forall ej: EJson :: Bind(t, ej, Some([])).Success? ==> Bind(t, ej, Some([])).value.payload == Some(ej.write(Some([])).value)
    ensures exists ej: EJson :: Bind(t, ej, Some([])).Success? && Bind(t, ej, Some([])).value.payload != Some("[]")
  {
    var spaced := EJson(_ => Success("[ ]"), (_, _) => Success(None));
    assert Bind(t, spaced, Some([])) == Success(SetObject(t.pgType, Some("[ ]")));
  }

  /**
   * One serialiser failure, two exception kinds: VARCHAR bind throws an
   * SQLException, formatValue (and so the Postgres bind) a
   * PersistenceException, both with the same message and cause.
   */
  lemma SerialiseFailureKinds(t: ListType, ej: EJson, l: seq<Element>)
    requires l != [] && ej.write(Some(l)).Failure?
    ensures Bind(t, ej, Some(l)).Failure? && FormatValue(ej, Some(l)).Failure?
    ensures t.Varchar? ==> Bind(t, ej, Some(l)).error == SQLException(FORMAT_FAILED, ej.write(Some(l)).error)
    ensures t.IsPg() ==> Bind(t, ej, Some(l)).error == FormatValue(ej, Some(l)).error
    ensures FormatValue(ej, Some(l)).error == PersistenceException(FORMAT_FAILED, ej.write(Some(l)).error)
  {
  }

  /**
   * read and parse are the same operation apart from the modify-aware flag:
   * read is parse over a library that always asks for a modify-aware list.
   * Both report a parse failure as a TextException carrying the text.
   */
  lemma ReadIsParseWithModifyAware(ej: EJson, text: Option<string>)
    ensures Read(ej, text) == Parse(EJson(ej.write, (s, _) => ej.parseList(s, true)), text)
    ensures Read(ej, text).Failure? ==> Read(ej, text).error.TextException? && Read(ej, text).error.json == text
    ensures Parse(ej, text).Failure? ==> Parse(ej, text).error.TextException? && Parse(ej, text).error.json == text
  {
  }

  /**
   * A library that reads back what it writes and reads "[]" as the empty
   * list. Nothing in this model assumes EJson is one; the lemmas below say
   * what follows when it is.
   */
  ghost predicate FaithfulCodec(ej: EJson)
  {
    && ej.parseList(Some("[]"), true) == Success(Some([]))
    && forall l: seq<Element> :: ej.write(Some(l)).Success? ==> ej.parseList(Some(ej.write(Some(l)).value), true) == Success(Some(l))
  }

  /** With a faithful library, reading what bind stored for a list gives that list back, on every variant. */
  lemma BindThenReadRoundTrip(t: ListType, ej: EJson, l: seq<Element>)
    requires FaithfulCodec(ej)
    requires Bind(t, ej, Some(l)).Success?
    ensures Read(ej, StoredText(Bind(t, ej, Some(l)).value)) == Success(Some(l))
  {
  }

  /**
   * A null list bound into a non-nullable column reads back as the empty
   * list once "[]" parses as empty: absence becomes an empty collection.
   */
  lemma NotNullableNullReadsBackEmpty(t: ListType, ej: EJson)
    requires !t.nullable
    requires ej.parseList(Some("[]"), true) == Success(Some([]))
    ensures Read(ej, StoredText(BindNull(t))) == Success(Some([]))
  {
  }
}
