/**
 * The field-description types of the object-relational mapper that the
 * dialect receives: the SQL type enumeration, the data persister that
 * names a field's SQL type, and the per-column field description.
 */
module OrmLiteField {

  /** The logical SQL types a field can have. */
  datatype SqlType =
    | STRING | LONG_STRING | DATE | BOOLEAN | CHAR | BYTE | BYTE_ARRAY | SHORT
    | INTEGER | LONG | FLOAT | DOUBLE | SERIALIZABLE | BLOB | BIG_DECIMAL | UNKNOWN

  /** A data persister; the dialect only asks it for its SQL type. */
  datatype DataPersister = DataPersister(name: string, sqlType: SqlType)

  /** A column description; the dialect only asks whether explicit id inserts are allowed. */
  datatype FieldType = FieldType(columnName: string, allowGeneratedIdInsert: bool)
}
