/**
 * Whole-call scenarios for the SQL Server dialect, as a table-creation or
 * query-building caller would run them on fresh buffers.
 */
module SqlServerScenarios {
  import opened Wrappers
  import opened JavaLang
  import opened JavaUtil
  import opened OrmLiteField
  import opened SqlServerDatabaseType
  import BaseDatabaseType

  /**
   * A generated id that allows explicit inserts: the column text starts
   * with IDENTITY and exactly one statement is scheduled after the table.
   */
  method GeneratedIdColumn(tableName: string, fieldType: FieldType, base: BaseDatabaseType.IdContribution)
    returns (column: string, after: seq<string>)
    ensures |column| >= 9 && column[..9] == "IDENTITY "
    ensures fieldType.allowGeneratedIdInsert ==> after == [IdentityInsertStatement(tableName)]
    ensures !fieldType.allowGeneratedIdInsert ==> after == []
  {
    var sb := new StringBuilder();
    var before := new StringList();
    var statementsAfter := new StringList();
    var args := new StringList();
    var queries := new StringList();
    ConfigureGeneratedId(tableName, sb, fieldType, before, statementsAfter, args, queries, base);
    column := sb.ToString();
    after := statementsAfter.items;
  }

  /** The column "id" of table "account": one SET IDENTITY_INSERT "account" ON. */
  method AccountIdColumn(base: BaseDatabaseType.IdContribution) returns (after: seq<string>)
    ensures after == ["SET IDENTITY_INSERT \"account\" ON"]
  {
    var column;
    column, after := GeneratedIdColumn("account", FieldType("id", true), base);
    assert IdentityInsertStatement("account") == "SET IDENTITY_INSERT \"account\" ON" by {
      assert EscapedEntityName("account") == "\"account\"";
    }
  }

  /** A limit of 10 renders as "TOP 10 " whatever offset is asked for. */
  method TopTen(offset: Option<JInt>) returns (text: string)
    ensures text == "TOP 10 "
  {
    var sb := new StringBuilder();
    AppendLimitValue(sb, 10, offset);
    text := sb.ToString();
    assert IntToDecimal(10) == "10" by {
      assert NatToDecimal(1) == "1";
    }
  }
}
