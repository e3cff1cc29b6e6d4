# SQL Server dialect of ORMLite, modelled in Dafny

This project models `SqlServerDatabaseType`, the Microsoft SQL Server dialect of the ORMLite
object-relational mapper, and proves what it promises:

- **Byte converter.** SQL Server's TINYINT is unsigned, so a Java `byte` is stored as a `short` in a
  SMALLINT column. On read, the stored `short` is clamped back into -128..127. The model proves that
  the value read is the byte nearest to the stored value. From that it proves the round trip for every
  byte, the two saturation laws, monotonicity, and that a read never fails. An argument that is not a
  `Byte` fails the cast with ClassCastException; a null passes the cast and fails the unboxing to
  `byte` with NullPointerException. A column default is parsed by
  `Short.parseShort`, with no clamp.
- **Converter dispatch.** BOOLEAN and BYTE get this dialect's converters. Every other SQL type gets the
  generic dialect's converter, represented by `BaseFieldConverter(dataType)`.
- **SQL fragments.** Each fragment is appended to a `StringBuilder` class whose `text` the methods
  extend. The contracts say the old contents are kept and exactly the fragment is added. Covered: the
  five column-type keywords (the width is ignored), the double-quoted entity name, and `TOP n ` (the
  offset is ignored). The quoted name reads back as the original when the name has no double quote.
  The number in `TOP n ` reads back as `n`.
- **Generated ids.** `ConfigureGeneratedId` writes `IDENTITY `, then lets the generic id configuration
  add its part. When the field allows explicit id inserts, it adds exactly one
  `SET IDENTITY_INSERT "<table>" ON` statement to `statementsAfter`. The four lists are `StringList`
  objects. The contracts cover a caller passing the same list twice: the last entry is still the
  IDENTITY_INSERT statement, and the exact contents are stated whenever the lists are different
  objects.
- **Capability flags and URL matching**: constants, and exact matching on `"sqlserver"`.

Modules: `Wrappers` (Option, Result); `JavaLang` (Java integer ranges, boxed values and exceptions,
`Integer.toString`, `Integer.parseInt`, `Short.parseShort`, `StringBuilder`); `JavaUtil` (`StringList`
for `List<String>`); `OrmLiteField` (SqlType, DataPersister, FieldType); `BaseDatabaseType` (a
stand-in for the generic `configureId`); `ByteFieldConverter`; `SqlServerDatabaseType`;
`SqlServerScenarios` (whole calls on fresh buffers, as a caller runs them).

Unseen collaborators are inputs to the model:
- The JDBC cursor read `results.getShort(dbColumnPos)` is replaced by the `short` it returns, passed
  as a parameter.
- The base class's `configureId` is replaced by an `IdContribution` value: the text and list entries
  it appends.

`configureId` receives `statementsBefore`, `additionalArgs` and `queriesAfter` but never
`statementsAfter` (SqlServerDatabaseType.java:90); `BaseDatabaseType.ConfigureId` takes the same three
lists.

## Model

| member | source | states |
|---|---|---|
| `ByteFieldConverter.ResultToJava` | src/main/java/com/j256/ormlite/db/SqlServerDatabaseType.java:146-157 | the byte read is the byte nearest to the stored short, so it is always in -128..127 and a read never fails |
| `ByteFieldConverter.NearestByteUnique` | src/main/java/com/j256/ormlite/db/SqlServerDatabaseType.java:149-156 | any value has only one nearest byte, so the clamp is uniquely determined by the nearest-byte property |
| `ByteFieldConverter.Saturation` | src/main/java/com/j256/ormlite/db/SqlServerDatabaseType.java:150-156 | a stored value below -128 reads as -128, one above 127 reads as 127, and one inside the byte range reads as itself |
| `ByteFieldConverter.JavaToSqlArg` | src/main/java/com/j256/ormlite/db/SqlServerDatabaseType.java:141-145 | succeeds exactly for a boxed Byte and keeps its value when widened to a short; null throws NullPointerException, anything else ClassCastException |
| `ByteFieldConverter.BoxedShortRejected` | src/main/java/com/j256/ormlite/db/SqlServerDatabaseType.java:143 | a boxed Short is not a Byte, so the cast throws ClassCastException |
| `ByteFieldConverter.RoundTrip` | src/main/java/com/j256/ormlite/db/SqlServerDatabaseType.java:141-157 | for every byte v, reading back the short written for v gives v |
| `ByteFieldConverter.Monotone` | src/main/java/com/j256/ormlite/db/SqlServerDatabaseType.java:150-156 | a larger stored value never reads as a smaller byte |
| `ByteFieldConverter.ReadWriteReadStable` | src/main/java/com/j256/ormlite/db/SqlServerDatabaseType.java:141-157 | writing back a byte that was read, then reading it again, gives the same byte |
| `ByteFieldConverter.GetSqlType` | src/main/java/com/j256/ormlite/db/SqlServerDatabaseType.java:134-137 | the converter declares the BYTE SQL type |
| `ByteFieldConverter.IsStreamType` | src/main/java/com/j256/ormlite/db/SqlServerDatabaseType.java:158-160 | the converter is not a stream type |
| `ByteFieldConverter.ParseDefaultString` | src/main/java/com/j256/ormlite/db/SqlServerDatabaseType.java:138-140 | a parsed default is the int the text denotes, and any failure is a NumberFormatException |
| `ByteFieldConverter.DefaultStringRoundTrip` | src/main/java/com/j256/ormlite/db/SqlServerDatabaseType.java:138-140 | every short written in decimal parses back to itself as a default |
| `ByteFieldConverter.DefaultStringNotClamped` | src/main/java/com/j256/ormlite/db/SqlServerDatabaseType.java:138-140 | the default "200", outside the byte range, is accepted as 200 without clamping; "40000", outside the short range, is rejected |
| `JavaLang.ParseInt` | src/main/java/com/j256/ormlite/db/SqlServerDatabaseType.java:139 | `Integer.parseInt`: succeeds exactly for an optional sign followed by at least one digit whose value fits an int, gives that value, and otherwise fails with a NumberFormatException carrying the input |
| `JavaLang.ParseShort` | src/main/java/com/j256/ormlite/db/SqlServerDatabaseType.java:139 | succeeds exactly when the text is an int that lies in the short range, and then gives that int |
| `JavaLang.ParseShortOfDecimal` | src/main/java/com/j256/ormlite/db/SqlServerDatabaseType.java:139 | `Short.parseShort` inverts `Integer.toString` on every short |
| `JavaLang.ParseIntRejectsNoDigits` | src/main/java/com/j256/ormlite/db/SqlServerDatabaseType.java:139 | the empty string and a lone sign do not parse |
| `JavaLang.NatToDecimal` | src/main/java/com/j256/ormlite/db/SqlServerDatabaseType.java:112 | the decimal digits of a number: at least one, all digits, no leading zero |
| `JavaLang.DigitsValueOfNatToDecimal` | src/main/java/com/j256/ormlite/db/SqlServerDatabaseType.java:112 | the digits written for n have the value n |
| `JavaLang.IntToDecimal` | src/main/java/com/j256/ormlite/db/SqlServerDatabaseType.java:112 | the text starts with a minus sign exactly for negative numbers, followed by digits only |
| `JavaLang.ParseIntOfDecimal` | src/main/java/com/j256/ormlite/db/SqlServerDatabaseType.java:112 | every int written in decimal reads back as the same int |
| `JavaLang.StringBuilder.constructor` | src/main/java/com/j256/ormlite/db/SqlServerDatabaseType.java:92 | a new builder is empty |
| `JavaLang.StringBuilder.Append` | src/main/java/com/j256/ormlite/db/SqlServerDatabaseType.java:93-95 | `append(String)` keeps the contents and adds exactly the string |
| `JavaLang.StringBuilder.AppendChar` | src/main/java/com/j256/ormlite/db/SqlServerDatabaseType.java:102 | `append(char)` keeps the contents and adds exactly the character |
| `JavaLang.StringBuilder.AppendInt` | src/main/java/com/j256/ormlite/db/SqlServerDatabaseType.java:112 | `append(int)` keeps the contents and adds exactly the decimal text of the int |
| `JavaLang.StringBuilder.ToString` | src/main/java/com/j256/ormlite/db/SqlServerDatabaseType.java:96 | `toString()` gives exactly the contents |
| `JavaUtil.StringList.Add` | src/main/java/com/j256/ormlite/db/SqlServerDatabaseType.java:96 | `List.add` keeps the entries and adds exactly one entry at the end |
| `JavaUtil.StringList.AddAll` | src/main/java/com/j256/ormlite/db/SqlServerDatabaseType.java:90 | the generic id configuration's entries are added at the end of a list, and the earlier entries are kept |
| `SqlServerDatabaseType.IsDatabaseUrlThisType` | src/main/java/com/j256/ormlite/db/SqlServerDatabaseType.java:30-32 | a URL belongs to this dialect exactly when its type part is "sqlserver" |
| `SqlServerDatabaseType.UrlMatchIsExact` | src/main/java/com/j256/ormlite/db/SqlServerDatabaseType.java:23-32 | the rest of the URL does not matter, and a different case or an extra character does not match |
| `SqlServerDatabaseType.GetFieldConverter` | src/main/java/com/j256/ormlite/db/SqlServerDatabaseType.java:43-54 | BOOLEAN gets the boolean-number converter, BYTE the SQL Server byte converter, every other type the generic converter for that persister |
| `SqlServerDatabaseType.OverridesAreExactlyBooleanAndByte` | src/main/java/com/j256/ormlite/db/SqlServerDatabaseType.java:44-54 | the generic converter is returned exactly when the type is neither BOOLEAN nor BYTE, and for the same persister |
| `SqlServerDatabaseType.AppendBooleanType` | src/main/java/com/j256/ormlite/db/SqlServerDatabaseType.java:56-59 | keeps the buffer and appends exactly BIT, whatever the width |
| `SqlServerDatabaseType.AppendByteType` | src/main/java/com/j256/ormlite/db/SqlServerDatabaseType.java:61-66 | keeps the buffer and appends exactly SMALLINT, whatever the width |
| `SqlServerDatabaseType.ByteColumnHoldsEveryStoredValue` | src/main/java/com/j256/ormlite/db/SqlServerDatabaseType.java:62-66 | every short the byte converter writes lies in the range of the SMALLINT column that the byte appender declares, while the value written for a negative byte lies below the unsigned TINYINT range |
| `SqlServerDatabaseType.AppendDateType` | src/main/java/com/j256/ormlite/db/SqlServerDatabaseType.java:68-73 | keeps the buffer and appends exactly DATETIME, whatever the width |
| `SqlServerDatabaseType.AppendByteArrayType` | src/main/java/com/j256/ormlite/db/SqlServerDatabaseType.java:75-78 | keeps the buffer and appends exactly IMAGE, whatever the width |
| `SqlServerDatabaseType.AppendSerializableType` | src/main/java/com/j256/ormlite/db/SqlServerDatabaseType.java:80-83 | keeps the buffer and appends exactly IMAGE, whatever the width |
| `SqlServerDatabaseType.EscapedEntityName` | src/main/java/com/j256/ormlite/db/SqlServerDatabaseType.java:101-103 | the name with one double quote before and one after, two characters longer |
| `SqlServerDatabaseType.UnquoteEscaped` | src/main/java/com/j256/ormlite/db/SqlServerDatabaseType.java:101-103 | the quoted text reads back through `Unquote` (which refuses inner quotes) as the name exactly when the name holds no double quote; an inner quote is not escaped, so the quoted text is then not a well-formed quoted name |
| `SqlServerDatabaseType.AppendEscapedEntityName` | src/main/java/com/j256/ormlite/db/SqlServerDatabaseType.java:100-103 | keeps the buffer and appends exactly the quoted name |
| `SqlServerDatabaseType.IsLimitAfterSelect` | src/main/java/com/j256/ormlite/db/SqlServerDatabaseType.java:105-108 | the limit clause goes right after SELECT |
| `SqlServerDatabaseType.LimitClause` | src/main/java/com/j256/ormlite/db/SqlServerDatabaseType.java:111-113 | "TOP ", then a number that reads back as the limit, then one space |
| `SqlServerDatabaseType.AppendLimitValue` | src/main/java/com/j256/ormlite/db/SqlServerDatabaseType.java:110-113 | keeps the buffer and appends exactly the limit clause; the offset has no effect |
| `SqlServerDatabaseType.IsOffsetSqlSupported` | src/main/java/com/j256/ormlite/db/SqlServerDatabaseType.java:115-119 | there is no offset clause |
| `SqlServerDatabaseType.IsAllowGeneratedIdInsertSupported` | src/main/java/com/j256/ormlite/db/SqlServerDatabaseType.java:121-128 | explicit id inserts are never a configurable capability |
| `SqlServerDatabaseType.IdentityInsertStatement` | src/main/java/com/j256/ormlite/db/SqlServerDatabaseType.java:92-95 | `SET IDENTITY_INSERT "`, the table name, `" ON`; the quoted part reads back as the table name exactly when the name holds no quote |
| `SqlServerDatabaseType.BuildIdentityInsertStatement` | src/main/java/com/j256/ormlite/db/SqlServerDatabaseType.java:92-95 | a fresh builder ends up holding exactly the IDENTITY_INSERT statement for the table |
| `SqlServerDatabaseType.GeneratedIdStatementsAfter` | src/main/java/com/j256/ormlite/db/SqlServerDatabaseType.java:91-97 | one IDENTITY_INSERT statement for the table when the field allows explicit id inserts, none otherwise |
| `SqlServerDatabaseType.ConfigureGeneratedId` | src/main/java/com/j256/ormlite/db/SqlServerDatabaseType.java:85-98 | the column text gains IDENTITY and then the generic part. When inserts are allowed, the last after-statement is the IDENTITY_INSERT one. With distinct lists, statementsAfter grows by exactly the generated-id statements and each other list by the generic part's own entries |
| `BaseDatabaseType.ConfigureId` | src/main/java/com/j256/ormlite/db/SqlServerDatabaseType.java:90 | the generic id configuration only appends, and only to the buffer and the three lists it receives |
| `SqlServerScenarios.GeneratedIdColumn` | src/main/java/com/j256/ormlite/db/SqlServerDatabaseType.java:86-97 | on fresh buffers the column text starts with `IDENTITY `; statementsAfter holds exactly the IDENTITY_INSERT statement when explicit inserts are allowed, and is empty otherwise |
| `SqlServerScenarios.AccountIdColumn` | src/main/java/com/j256/ormlite/db/SqlServerDatabaseType.java:89-97 | for table "account" the only after-statement is `SET IDENTITY_INSERT "account" ON` |
| `SqlServerScenarios.TopTen` | src/main/java/com/j256/ormlite/db/SqlServerDatabaseType.java:111-113 | a limit of 10 renders as `TOP 10 ` whatever offset is passed |

## Left out

- `configureId` of the generic dialect is not part of this model. `BaseDatabaseType.ConfigureId` stands in for it: it appends caller-given text and entries, and nothing else. It does not reproduce what the generic code actually writes.
- The generic `getFieldConverter` is not part of this model. `BaseFieldConverter(dataType)` only names its result.
- `BooleanNumberFieldConverter`'s behaviour is not part of this model; only which converter is returned is modelled.
- `results.getShort(dbColumnPos)` is I/O on a live cursor. The model takes the short it returns as a parameter. An SQL NULL column read as 0, an invalid column position and `SQLException` are not modelled; the read is total.
- `ByteFieldConverter.ParseDefaultString`: `Short.parseShort` is modelled with ASCII digits only. Java also accepts other Unicode decimal digits, and those are not modelled.
- `getDriverClassName`, `getDatabaseName` and driver registration are bootstrap plumbing. The two strings are declared as constants, and nothing is proved about them.
- The query builder, which refuses an offset when `isOffsetSqlSupported` is false, is not part of this model; only the flag is.
- Null references are modelled only as the argument of `javaToSqlArg`. Not modelled: a null `defaultStr` (`Short.parseShort` throws NumberFormatException), a null `dbTypePart` (`equals` gives false), a null `tableName` or `word` (the builder appends `null`), null buffers or lists, and a null `dataType`.
- Method chaining on `StringBuilder` (each `append` returning the builder) is modelled as consecutive calls.
- `fieldWidth` is a parameter of the five type appenders and is ignored, as in the code.
