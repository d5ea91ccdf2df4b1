/**
 * The extension methods on a connection. Each call creates a fresh command, so a statement
 * carries only the parameters bound for it. The engine is a sink: `log` is what it received,
 * and its answers (a scalar, the columns of a probed table, the catalogue names) are inputs.
 */
module ConnectionExtensions {
  import opened Wrappers
  import opened Strings
  import opened SQLiteString
  import opened Parameters
  import opened Schema
  import opened Statements
  import opened CopyData
  import opened Catalog

  class Connection {
    /** Every statement the engine has received, oldest first. */
    var log: seq<Statement>

    constructor ()
      ensures log == []
    {
      log := [];
    }

    /** `ExecuteNonQuery(sql)`: the text alone. */
    method ExecuteNonQuery(sql: string)
      modifies this
      ensures log == old(log) + [Statement(NonQuery, sql, [])]
    {
      log := log + [Statement(NonQuery, sql, [])];
    }

    /** `ExecuteNonQuery(sql, dictionary)`: each entry bound under its own key, the binding the parameter
        helpers were written to give; a null dictionary binds nothing. */
    method ExecuteNonQueryWith(sql: string, parameters: Option<Dictionary>)
      modifies this
      ensures log == old(log) + [Statement(NonQuery, sql, EnumerateParameterDictionary(parameters))]
    {
      var ps := [];
      if parameters.Some? {
        ps := BindParameters("", parameters.value);
      }
      log := log + [Statement(NonQuery, sql, ps)];
    }

    /** `ExecuteScalar(sql)`: the engine's answer is handed back unchanged. */
    method ExecuteScalar(sql: string, answer: Value) returns (result: Value)
      modifies this
      ensures log == old(log) + [Statement(Scalar, sql, [])]
      ensures result == answer
    {
      log := log + [Statement(Scalar, sql, [])];
      result := answer;
    }

    /** `ExecuteScalar(sql, dictionary)`, binding the dictionary as `ExecuteNonQueryWith` does. */
    method ExecuteScalarWith(sql: string, parameters: Option<Dictionary>, answer: Value) returns (result: Value)
      modifies this
      ensures log == old(log) + [Statement(Scalar, sql, EnumerateParameterDictionary(parameters))]
      ensures result == answer
    {
      var ps := [];
      if parameters.Some? {
        ps := BindParameters("", parameters.value);
      }
      log := log + [Statement(Scalar, sql, ps)];
      result := answer;
    }

    /** `Select(sql)`: a query with no parameters; the rows it returns are the engine's. */
    method Select(sql: string)
      modifies this
      ensures log == old(log) + [Statement(Query, sql, [])]
    {
      log := log + [Statement(Query, sql, [])];
    }

    /** `Insert`: one statement, one `@v` parameter per entry; a null dictionary fails before anything is sent. */
    method Insert(tableName: Option<string>, dic: Option<Dictionary>) returns (outcome: Outcome<Error>)
      modifies this
      ensures dic.None? ==> outcome == Fail(NullReference) && log == old(log)
      ensures dic.Some? ==>
        outcome == Pass &&
        log == old(log) + [Statement(NonQuery, InsertSql(tableName, Keys(dic.value)), Bind("@v", dic.value))]
    {
      if dic.None? {
        return Fail(NullReference);
      }
      var sql := BuildInsert(tableName, dic.value);
      var ps := BindParameters("@v", dic.value);
      log := log + [Statement(NonQuery, sql, ps)];
      return Pass;
    }

    /**
     * `UpdateRows(tableName, data, conditions)`: empty data, then a null condition dictionary, then
     * a null table name are rejected, in that order, before anything is sent.
     */
    method UpdateRows(tableName: Option<string>, data: Option<Dictionary>, conditions: Option<Dictionary>)
      returns (outcome: Outcome<Error>)
      modifies this
      ensures (data.None? || |data.value| == 0) ==>
        outcome == Fail(Argument("The update data cannot be empty.", "data")) && log == old(log)
      ensures data.Some? && |data.value| > 0 && conditions.None? ==>
        outcome == Fail(NullReference) && log == old(log)
      ensures data.Some? && |data.value| > 0 && conditions.Some? && tableName.None? ==>
        outcome == Fail(ArgumentNull("value")) && log == old(log)
      ensures data.Some? && |data.value| > 0 && conditions.Some? && tableName.Some? ==>
        outcome == Pass &&
        log == old(log) + [Statement(NonQuery,
          UpdateSql(Standard, QuotedIdentifier(tableName.value), Keys(data.value), Keys(conditions.value)),
          Bind("@v", data.value) + Bind("@c", conditions.value))]
    {
      if data.None? || |data.value| == 0 {
        return Fail(Argument("The update data cannot be empty.", "data"));
      }
      if conditions.None? {
        return Fail(NullReference);
      }
      var sql := BuildUpdate(Standard, tableName, data.value, conditions.value);
      if sql.Failure? {
        return Fail(sql.error);
      }
      var ps := BindParameters("@v", data.value);
      var cs := BindParameters("@c", conditions.value);
      log := log + [Statement(NonQuery, sql.value, ps + cs)];
      return Pass;
    }

    /** `UpdateRows(tableName, data, conditionColumn, conditionValue)`: a one-entry condition dictionary; a null column is a null key. */
    method UpdateRowsSingle(tableName: Option<string>, data: Option<Dictionary>, conditionColumn: Option<string>, conditionValue: Value)
      returns (outcome: Outcome<Error>)
      modifies this
      ensures conditionColumn.None? ==> outcome == Fail(ArgumentNull("key")) && log == old(log)
      ensures conditionColumn.Some? && (data.None? || |data.value| == 0) ==>
        outcome == Fail(Argument("The update data cannot be empty.", "data")) && log == old(log)
      ensures conditionColumn.Some? && data.Some? && |data.value| > 0 && tableName.None? ==>
        outcome == Fail(ArgumentNull("value")) && log == old(log)
      ensures conditionColumn.Some? && data.Some? && |data.value| > 0 && tableName.Some? ==>
        outcome == Pass &&
        log == old(log) + [Statement(NonQuery,
          UpdateSql(Standard, QuotedIdentifier(tableName.value), Keys(data.value), [conditionColumn.value]),
          Bind("@v", data.value) + [Param("@c" + conditionColumn.value, conditionValue)])]
    {
      if conditionColumn.None? {
        return Fail(ArgumentNull("key"));
      }
      var conditions := [Entry(conditionColumn.value, conditionValue)];
      assert Keys(conditions) == [conditionColumn.value];
      assert Bind("@c", conditions) == [Param("@c" + conditionColumn.value, conditionValue)];
      outcome := UpdateRows(tableName, data, Some(conditions));
    }

    /** `CreateTable`: a null descriptor or a blank column name fails and nothing is sent. */
    method CreateTable(table: Table?) returns (outcome: Outcome<Error>)
      modifies this
      ensures table == null ==> outcome == Fail(NullReference) && log == old(log)
      ensures table != null ==> outcome == CreateTableOutcome(table.name, table.columns.items)
      ensures table != null && CreateTableSql(table.name, table.columns.items).Failure? ==> log == old(log)
      ensures table != null && CreateTableSql(table.name, table.columns.items).Success? ==>
        log == old(log) + [Statement(NonQuery, CreateTableSql(table.name, table.columns.items).value, [])]
    {
      if table == null {
        return Fail(NullReference);
      }
      var sql := BuildCreateTable(table.name, table.columns.items);
      if sql.Failure? {
        return Fail(sql.error);
      }
      log := log + [Statement(NonQuery, sql.value, [])];
      return Pass;
    }

    /**
     * `CopyAllData`: both names are quoted first (a null one fails before anything is sent), both
     * tables are probed, and the columns they share are copied.
     */
    method CopyAllData(tableFrom: Option<string>, tableTo: Option<string>, fromColumns: seq<string>, toColumns: seq<string>)
      returns (outcome: Outcome<Error>)
      modifies this
      ensures (tableFrom.None? || tableTo.None?) ==> outcome == Fail(ArgumentNull("value")) && log == old(log)
      ensures tableFrom.Some? && tableTo.Some? ==>
        outcome == Pass &&
        log == old(log) + CopyAllDataStatements(Standard, QuotedIdentifier(tableFrom.value), QuotedIdentifier(tableTo.value),
                                                fromColumns, toColumns, [])
    {
      var quotedFrom := QuoteIdentifier(tableFrom);
      if quotedFrom.Failure? {
        return Fail(quotedFrom.error);
      }
      var quotedTo := QuoteIdentifier(tableTo);
      if quotedTo.Failure? {
        return Fail(quotedTo.error);
      }
      Select(ProbeSql(Standard, quotedFrom.value));
      Select(ProbeSql(Standard, quotedTo.value));
      var sql := BuildCopyAllData(quotedFrom.value, quotedTo.value, fromColumns, toColumns);
      ExecuteNonQuery(sql);
      return Pass;
    }

    /** `DropTable`: the quoted name; a null one fails before anything is sent. */
    method DropTable(tableName: Option<string>) returns (outcome: Outcome<Error>)
      modifies this
      ensures tableName.None? ==> outcome == Fail(ArgumentNull("value")) && log == old(log)
      ensures tableName.Some? ==>
        outcome == Pass &&
        log == old(log) + [Statement(NonQuery, DropTableSql(QuotedIdentifier(tableName.value)), [])]
    {
      var quoted := QuoteIdentifier(tableName);
      if quoted.Failure? {
        return Fail(quoted.error);
      }
      ExecuteNonQuery(DropTableSql(quoted.value));
      return Pass;
    }

    /** `RenameTable`: both names quoted; a null one fails before anything is sent. */
    method RenameTable(tableFrom: Option<string>, tableTo: Option<string>) returns (outcome: Outcome<Error>)
      modifies this
      ensures (tableFrom.None? || tableTo.None?) ==> outcome == Fail(ArgumentNull("value")) && log == old(log)
      ensures tableFrom.Some? && tableTo.Some? ==>
        outcome == Pass &&
        log == old(log) + [Statement(NonQuery, RenameTableSql(QuotedIdentifier(tableFrom.value), QuotedIdentifier(tableTo.value)), [])]
    {
      var quotedFrom := QuoteIdentifier(tableFrom);
      if quotedFrom.Failure? {
        return Fail(quotedFrom.error);
      }
      var quotedTo := QuoteIdentifier(tableTo);
      if quotedTo.Failure? {
        return Fail(quotedTo.error);
      }
      ExecuteNonQuery(RenameTableSql(quotedFrom.value, quotedTo.value));
      return Pass;
    }

    /**
     * `UpdateTableStructure`: the descriptor is renamed to the temporary name, then the temporary
     * table is created, the target copied into it, the target dropped and the temporary table
     * renamed to the target, with no transaction: a failing step leaves the earlier ones sent.
     */
    method UpdateTableStructure(targetTable: Option<string>, newStructure: Table?, targetColumns: seq<string>, tempColumns: seq<string>)
      returns (outcome: Outcome<Error>)
      modifies this, newStructure
      ensures newStructure == null ==> outcome == Fail(NullReference) && log == old(log)
      ensures newStructure != null ==> newStructure.name == Some(TempTableName(targetTable))
      ensures newStructure != null ==>
        var create := CreateTableSql(Some(TempTableName(targetTable)), newStructure.columns.items);
        (create.Failure? ==> outcome == Fail(create.error) && log == old(log)) &&
        (create.Success? && targetTable.None? ==>
          outcome == Fail(ArgumentNull("value")) && log == old(log) + [Statement(NonQuery, create.value, [])]) &&
        (create.Success? && targetTable.Some? ==>
          outcome == Pass &&
          log == old(log) + [Statement(NonQuery, create.value, [])]
            + CopyAllDataStatements(Standard, QuotedIdentifier(targetTable.value), QuotedIdentifier(TempTableName(targetTable)),
                                    targetColumns, tempColumns, [])
            + [Statement(NonQuery, DropTableSql(QuotedIdentifier(targetTable.value)), []),
               Statement(NonQuery, RenameTableSql(QuotedIdentifier(TempTableName(targetTable)), QuotedIdentifier(targetTable.value)), [])])
    {
      if newStructure == null {
        return Fail(NullReference);
      }
      newStructure.name := Some(TempTableName(targetTable));
      ghost var create := CreateTableSql(Some(TempTableName(targetTable)), newStructure.columns.items);
      outcome := CreateTable(newStructure);
      if outcome.Fail? {
        return;
      }
      ghost var created := log;
      assert created == old(log) + [Statement(NonQuery, create.value, [])];
      outcome := CopyAllData(targetTable, newStructure.name, targetColumns, tempColumns);
      if outcome.Fail? {
        return;
      }
      ghost var copied := log;
      assert copied == created + CopyAllDataStatements(Standard, QuotedIdentifier(targetTable.value),
                                                       QuotedIdentifier(TempTableName(targetTable)), targetColumns, tempColumns, []);
      outcome := DropTable(targetTable);
      outcome := RenameTable(newStructure.name, targetTable);
      assert log == copied + [Statement(NonQuery, DropTableSql(QuotedIdentifier(targetTable.value)), []),
                              Statement(NonQuery, RenameTableSql(QuotedIdentifier(TempTableName(targetTable)), QuotedIdentifier(targetTable.value)), [])];
    }

    /** `TableExists`: a null or empty name is answered without a query; otherwise the count query decides. */
    method TableExists(tableName: Option<string>, answer: Value) returns (found: bool)
      modifies this
      ensures IsNullOrEmpty(tableName) ==> !found && log == old(log)
      ensures !IsNullOrEmpty(tableName) ==>
        (found <==> CountIsOne(answer)) &&
        log == old(log) + [Statement(Scalar, TableExistsSql(QuotedIdentifier(tableName.value)), [])]
    {
      if IsNullOrEmpty(tableName) {
        return false;
      }
      var quoted := QuoteIdentifier(tableName);
      var result := ExecuteScalar(TableExistsSql(quoted.value), answer);
      found := result.LongValue? && result.l == 1;
    }

    /** `GetTableList`: the catalogue is read and every table but the sequence table is listed, in catalogue order. */
    method GetTableList(catalogueNames: seq<string>) returns (tables: seq<string>)
      modifies this
      ensures log == old(log) + [Statement(Query, TableStatusSql, [])]
      ensures tables == UserTables(catalogueNames)
    {
      Select(TableStatusSql);
      tables := FilterTableNames(catalogueNames);
    }
  }

  function CreateTableOutcome(name: Option<string>, columns: seq<Column>): Outcome<Error> {
    match CreateTableSql(name, columns)
    case Failure(e) => Fail(e)
    case Success(_) => Pass
  }
}
