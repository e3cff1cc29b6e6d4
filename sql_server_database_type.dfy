/**
 * The Microsoft SQL Server dialect: which converters override the generic
 * ones, the column-type keywords it writes, how it quotes names, its
 * `TOP n` row limit, its IDENTITY generated ids and its capability flags.
 * The dialect has no state of its own; its operations append to buffers
 * and lists that the caller owns.
 */
module SqlServerDatabaseType {
  import opened Wrappers
  import opened JavaLang
  import opened JavaUtil
  import opened OrmLiteField
  import BaseDatabaseType
  import ByteFieldConverter

  const DATABASE_URL_PORTION: string := "sqlserver"
  const DRIVER_CLASS_NAME: string := "com.microsoft.sqlserver.jdbc.SQLServerDriver"
  const DATABASE_NAME: string := "SQL Server"

  /** Which converter object a lookup returns. */
  datatype FieldConverter =
    | BooleanNumberFieldConverter
    | SqlServerByteFieldConverter
    | BaseFieldConverter(dataType: DataPersister)  // what the generic dialect returns for it

  /** The SQL types this dialect gives its own converter. */
  const OverriddenSqlTypes: set<SqlType> := {BOOLEAN, BYTE}

  // ---------------------------------------------------------------- lookup

  /** The connection URL names this dialect exactly when its type part is "sqlserver". */
  function IsDatabaseUrlThisType(url: string, dbTypePart: string): (r: bool)
    ensures r <==> dbTypePart == "sqlserver"
  {
    DATABASE_URL_PORTION == dbTypePart
  }

  /** Matching is exact: the URL itself is not looked at and case matters. */
  lemma UrlMatchIsExact(url1: string, url2: string, dbTypePart: string)
    ensures IsDatabaseUrlThisType(url1, dbTypePart) == IsDatabaseUrlThisType(url2, dbTypePart)
    ensures !IsDatabaseUrlThisType(url1, "SQLServer") && !IsDatabaseUrlThisType(url1, "sqlserver2")
  {
    assert "SQLServer"[0] != "sqlserver"[0];
    assert |"sqlserver2"| != |"sqlserver"|;
  }

  /** BOOLEAN and BYTE get this dialect's converters; every other type the generic one. */
  function GetFieldConverter(dataType: DataPersister): (c: FieldConverter)
    ensures dataType.sqlType == BOOLEAN ==> c == BooleanNumberFieldConverter
    ensures dataType.sqlType == BYTE ==> c == SqlServerByteFieldConverter
    ensures dataType.sqlType !in OverriddenSqlTypes ==> c == BaseFieldConverter(dataType)
  {
    match dataType.sqlType
    case BOOLEAN => BooleanNumberFieldConverter
    case BYTE => SqlServerByteFieldConverter
    case _ => BaseFieldConverter(dataType)
  }

  /** The override set is sparse: exactly BOOLEAN and BYTE leave the generic converter. */
  lemma OverridesAreExactlyBooleanAndByte(dataType: DataPersister)
    ensures GetFieldConverter(dataType).BaseFieldConverter? <==> dataType.sqlType !in OverriddenSqlTypes
    ensures GetFieldConverter(dataType).BaseFieldConverter? ==> GetFieldConverter(dataType).dataType == dataType
  {
  }

  // ------------------------------------------------------- column types

  method AppendBooleanType(sb: StringBuilder, fieldWidth: JInt)
    modifies sb
    ensures sb.text == old(sb.text) + "BIT"
  {
    sb.Append("BIT");
  }

  /** The column types for bytes: the one used, and the unsigned one it avoids. */
  const BYTE_COLUMN_TYPE: string := "SMALLINT"
  const UNSIGNED_BYTE_COLUMN_TYPE: string := "TINYINT"

  /** SMALLINT, because TINYINT is unsigned and cannot hold negative bytes. */
  method AppendByteType(sb: StringBuilder, fieldWidth: JInt)
    modifies sb
    ensures sb.text == old(sb.text) + BYTE_COLUMN_TYPE
  {
    sb.Append(BYTE_COLUMN_TYPE);
  }

  /** DATETIME, because TIMESTAMP is a row-version type in this database. */
  method AppendDateType(sb: StringBuilder, fieldWidth: JInt)
    modifies sb
    ensures sb.text == old(sb.text) + "DATETIME"
  {
    sb.Append("DATETIME");
  }

  method AppendByteArrayType(sb: StringBuilder, fieldWidth: JInt)
    modifies sb
    ensures sb.text == old(sb.text) + "IMAGE"
  {
    sb.Append("IMAGE");
  }

  method AppendSerializableType(sb: StringBuilder, fieldWidth: JInt)
    modifies sb
    ensures sb.text == old(sb.text) + "IMAGE"
  {
    sb.Append("IMAGE");
  }

  /** The values a SQL Server integer column of the given type holds, as (least, greatest). */
  function IntegerColumnRange(columnType: string): (r: Option<(int, int)>)
    ensures r.Some? ==> r.value.0 <= r.value.1
  {
    if columnType == BYTE_COLUMN_TYPE then Some((SHORT_MIN_VALUE, SHORT_MAX_VALUE))
    else if columnType == UNSIGNED_BYTE_COLUMN_TYPE then Some((0, 255))
    else None
  }

  /**
   * Every value the byte converter writes fits the column type that the
   * byte appender declares, while the unsigned TINYINT would reject the
   * value written for any negative byte.
   */
  lemma ByteColumnHoldsEveryStoredValue(fieldType: FieldType, v: JByte)
    ensures var stored := ByteFieldConverter.JavaToSqlArg(fieldType, BoxedByte(v));
            var column := IntegerColumnRange(BYTE_COLUMN_TYPE);
            stored.Success? && column.Some? &&
            column.value.0 <= stored.value <= column.value.1
    ensures var stored := ByteFieldConverter.JavaToSqlArg(fieldType, BoxedByte(v));
            var tiny := IntegerColumnRange(UNSIGNED_BYTE_COLUMN_TYPE);
            v < 0 ==> tiny.Some? && stored.Success? && stored.value < tiny.value.0
  {
    assert BYTE_COLUMN_TYPE != UNSIGNED_BYTE_COLUMN_TYPE by {
      assert |BYTE_COLUMN_TYPE| != |UNSIGNED_BYTE_COLUMN_TYPE|;
    }
  }

  // ---------------------------------------------------- escaped names

  /** A name wrapped in double quotes; quotes inside the name are not doubled. */
  function EscapedEntityName(word: string): (r: string)
    ensures |r| == |word| + 2
    ensures r[0] == '"' && r[|r| - 1] == '"'
    ensures r[1..|r| - 1] == word
  {
    ['"'] + word + ['"']
  }

  /** Reading a quoted name back: the text between the outer quotes, if no other quote occurs. */
  function Unquote(s: string): (r: Option<string>) {
    if |s| >= 2 && s[0] == '"' && s[|s| - 1] == '"' && '"' !in s[1..|s| - 1]
    then Some(s[1..|s| - 1])
    else None
  }

  /** The escaped text reads back as the original name exactly when the name holds no quote. */
  lemma UnquoteEscaped(word: string)
    ensures Unquote(EscapedEntityName(word)) == Some(word) <==> '"' !in word
    ensures '"' in word ==> Unquote(EscapedEntityName(word)) == None
  {
    var r := EscapedEntityName(word);
    assert r[1..|r| - 1] == word;
  }

  method AppendEscapedEntityName(sb: StringBuilder, word: string)
    modifies sb
    ensures sb.text == old(sb.text) + EscapedEntityName(word)
  {
    sb.AppendChar('"');
    sb.Append(word);
    sb.AppendChar('"');
  }

  // ------------------------------------------------------------- limits

  /** The limit goes right after SELECT. */
  function IsLimitAfterSelect(): (r: bool)
    ensures r
  {
    true
  }

  /** There is no separate offset clause, so callers must refuse an offset. */
  function IsOffsetSqlSupported(): (r: bool)
    ensures !r
  {
    false
  }

  /** "TOP ", the limit in decimal, and a space; the number reads back as the limit. */
  function LimitClause(limit: JInt): (r: string)
    ensures |r| >= 6
    ensures r[..4] == "TOP " && r[|r| - 1] == ' '
    ensures ParseInt(r[4..|r| - 1]) == Success(limit)
  {
    var r := "TOP " + IntToDecimal(limit) + " ";
    assert r[4..|r| - 1] == IntToDecimal(limit);
    ParseIntOfDecimal(limit);
    r
  }

  /** Appends the limit clause; the offset plays no part. */
  method AppendLimitValue(sb: StringBuilder, limit: JInt, offset: Option<JInt>)
    modifies sb
    ensures sb.text == old(sb.text) + LimitClause(limit)
  {
    ghost var before := sb.text;
    sb.Append("TOP ");
    sb.AppendInt(limit);
    sb.AppendChar(' ');
    assert sb.text == before + ("TOP " + IntToDecimal(limit) + " ");
  }

  // ------------------------------------------------------ generated ids

  /** Explicit inserts into an IDENTITY column need a session setting, so this is never configurable. */
  function IsAllowGeneratedIdInsertSupported(): (r: bool)
    ensures !r
  {
    false
  }

  /** The statement that turns explicit id inserts on for a table. */
  function IdentityInsertStatement(tableName: string): (r: string)
    ensures |r| == |tableName| + 25
    ensures r[..21] == "SET IDENTITY_INSERT \""
    ensures r[21..|r| - 4] == tableName
    ensures r[|r| - 4..] == "\" ON"
    ensures Unquote(r[20..|r| - 3]) == Some(tableName) <==> '"' !in tableName
  {
    var r := "SET IDENTITY_INSERT " + EscapedEntityName(tableName) + " ON";
    assert r[20..|r| - 3] == EscapedEntityName(tableName);
    UnquoteEscaped(tableName);
    r
  }

  /** What a generated id adds to the statements run after the CREATE TABLE. */
  function GeneratedIdStatementsAfter(tableName: string, fieldType: FieldType): (r: seq<string>)
    ensures |r| == if fieldType.allowGeneratedIdInsert then 1 else 0
    ensures forall i :: 0 <= i < |r| ==> r[i] == IdentityInsertStatement(tableName)
  {
    if fieldType.allowGeneratedIdInsert then [IdentityInsertStatement(tableName)] else []
  }

  /** Renders the IDENTITY_INSERT statement in a builder of its own. */
  method BuildIdentityInsertStatement(tableName: string) returns (statement: string)
    ensures statement == IdentityInsertStatement(tableName)
  {
    var identityInsertSb := new StringBuilder();
    identityInsertSb.Append("SET IDENTITY_INSERT ");
    AppendEscapedEntityName(identityInsertSb, tableName);
    assert identityInsertSb.text == "SET IDENTITY_INSERT " + EscapedEntityName(tableName);
    identityInsertSb.Append(" ON");
    statement := identityInsertSb.ToString();
    assert statement == "SET IDENTITY_INSERT " + EscapedEntityName(tableName) + " ON";
  }

  /**
   * Writes IDENTITY, lets the generic id configuration add its part, and,
   * when the field allows explicit id inserts, adds one IDENTITY_INSERT
   * statement to statementsAfter, which the generic part never receives.
   */
  method ConfigureGeneratedId(tableName: string, sb: StringBuilder, fieldType: FieldType,
                              statementsBefore: StringList, statementsAfter: StringList,
                              additionalArgs: StringList, queriesAfter: StringList,
                              base: BaseDatabaseType.IdContribution)
    modifies sb, statementsBefore, statementsAfter, additionalArgs, queriesAfter
    ensures sb.text == old(sb.text) + "IDENTITY " + base.columnText
    ensures fieldType.allowGeneratedIdInsert ==>
      |statementsAfter.items| >= 1 &&
      statementsAfter.items[|statementsAfter.items| - 1] == IdentityInsertStatement(tableName)
    ensures statementsAfter !in {statementsBefore, additionalArgs, queriesAfter} ==>
      statementsAfter.items == old(statementsAfter.items) + GeneratedIdStatementsAfter(tableName, fieldType)
    ensures BaseDatabaseType.Distinct3(statementsBefore, additionalArgs, queriesAfter) &&
            statementsAfter !in {statementsBefore, additionalArgs, queriesAfter} ==>
      statementsBefore.items == old(statementsBefore.items) + base.statementsBefore &&
      additionalArgs.items == old(additionalArgs.items) + base.additionalArgs &&
      queriesAfter.items == old(queriesAfter.items) + base.queriesAfter
  {
    sb.Append("IDENTITY ");
    BaseDatabaseType.ConfigureId(sb, fieldType, statementsBefore, additionalArgs, queriesAfter, base);
    if fieldType.allowGeneratedIdInsert {
      var statement := BuildIdentityInsertStatement(tableName);
      statementsAfter.Add(statement);
    }
  }
}
