/** Questions about the schema catalogue: whether a table exists, and which tables the user created. */
module Catalog {
  import opened Parameters

  /** The catalogue table, `SQLiteHelper.SQLiteMasterTableName`. */
  const MasterTableName: string := "sqlite_master"

  /** The engine's own table for auto-increment counters, which `GetTableList` hides. */
  const SequenceTableName: string := "sqlite_sequence"

  /** `GetTableStatus`: every row of the catalogue. */
  const TableStatusSql: string := "SELECT * FROM " + MasterTableName + ";"

  /** The count query of `TableExists`, around the quoted name. */
  function TableExistsSql(quotedName: string): string {
    "SELECT COUNT(*) FROM sqlite_master WHERE type = 'table' AND name = " + quotedName
  }

  /** `result is long rows && rows == 1`: any other answer, a null or a value of another type included, means no. */
  predicate CountIsOne(answer: Value) {
    answer.LongValue? && answer.l == 1
  }

  /** The catalogue names, in row order, without the sequence table. */
  function UserTables(names: seq<string>): seq<string> {
    if names == [] then []
    else UserTables(names[..|names| - 1]) + (if names[|names| - 1] != SequenceTableName then [names[|names| - 1]] else [])
  }

  /** A name is listed exactly when the catalogue has it and it is not the sequence table. */
  lemma {:induction false} UserTablesMembership(names: seq<string>, name: string)
    ensures name in UserTables(names) <==> name in names && name != SequenceTableName
  {
    if names != [] {
      var prefix := names[..|names| - 1];
      UserTablesMembership(prefix, name);
      assert names == prefix + [names[|names| - 1]];
    }
  }

  /** Without the sequence table in the catalogue, every row is listed, in order. */
  lemma {:induction false} UserTablesKeepsOthers(names: seq<string>)
    requires SequenceTableName !in names
    ensures UserTables(names) == names
  {
    if names != [] {
      var prefix := names[..|names| - 1];
      assert names == prefix + [names[|names| - 1]];
      UserTablesKeepsOthers(prefix);
    }
  }

  /** The row loop of `GetTableList`. */
  method FilterTableNames(names: seq<string>) returns (tables: seq<string>)
    ensures tables == UserTables(names)
  {
    tables := [];
    var i := 0;
    while i < |names|
      invariant i <= |names|
      invariant tables == UserTables(names[..i])
    {
      var t := names[i];
      if t != SequenceTableName {
        tables := tables + [t];
      }
      assert names[..i + 1][..i] == names[..i];
      i := i + 1;
    }
    assert names[..|names|] == names;
  }
}
