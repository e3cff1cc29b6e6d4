/**
 * Stand-in for the generic id-column configuration of the base dialect,
 * whose code is not part of this model. What it writes is given by the
 * caller as an `IdContribution`: text appended to the column definition and
 * entries appended to the three lists it receives. It never sees the
 * statements-after list.
 */
module BaseDatabaseType {
  import opened JavaLang
  import opened JavaUtil
  import opened OrmLiteField

  datatype IdContribution = IdContribution(
    columnText: string,
    statementsBefore: seq<string>,
    additionalArgs: seq<string>,
    queriesAfter: seq<string>)

  /** The three lists are different objects, so each receives exactly its own entries. */
  predicate Distinct3(a: StringList, b: StringList, c: StringList) {
    a != b && a != c && b != c
  }

  method ConfigureId(sb: StringBuilder, fieldType: FieldType, statementsBefore: StringList,
                     additionalArgs: StringList, queriesAfter: StringList, contribution: IdContribution)
    modifies sb, statementsBefore, additionalArgs, queriesAfter
    ensures sb.text == old(sb.text) + contribution.columnText
    ensures Distinct3(statementsBefore, additionalArgs, queriesAfter) ==>
      statementsBefore.items == old(statementsBefore.items) + contribution.statementsBefore &&
      additionalArgs.items == old(additionalArgs.items) + contribution.additionalArgs &&
      queriesAfter.items == old(queriesAfter.items) + contribution.queriesAfter
  {
    sb.Append(contribution.columnText);
    statementsBefore.AddAll(contribution.statementsBefore);
    additionalArgs.AddAll(contribution.additionalArgs);
    queriesAfter.AddAll(contribution.queriesAfter);
  }
}
