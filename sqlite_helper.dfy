/**
 * The `SQLiteHelper` class: one command object reused by every call. Each call overwrites the
 * command text and appends its parameters to the command's parameter list, which is never
 * cleared, so every statement the engine receives carries all the parameters bound so far.
 */
module Helper {
  import opened Wrappers
  import opened Strings
  import SQLiteString
  import opened Parameters
  import opened Schema
  import opened Statements
  import opened CopyData
  import opened Catalog

  /** `QuoteIdentifier`: null raises; a string already wrapped comes back as it is; otherwise `"` doubled and wrapped. */
  function QuoteIdentifier(value: Option<string>): (r: Result<string, Error>)
    ensures value.None? <==> r == Failure(ArgumentNull("value"))
    ensures value.Some? && SQLiteString.HasIdentifierQuotes(value.value) ==> r == Success(value.value)
    ensures value.Some? && !SQLiteString.HasIdentifierQuotes(value.value) ==>
      r.Success? && SQLiteString.Unquote(r.value, '"') == Some(value.value)
    ensures r.Success? ==> SQLiteString.HasIdentifierQuotes(r.value)
  {
    SQLiteString.QuoteIdentifier(value)
  }

  /** `QuoteLiteral`: null raises; a string already wrapped comes back as it is; otherwise `'` doubled and wrapped. */
  function QuoteLiteral(value: Option<string>): (r: Result<string, Error>)
    ensures value.None? <==> r == Failure(ArgumentNull("value"))
    ensures value.Some? && SQLiteString.HasLiteralQuotes(value.value) ==> r == Success(value.value)
    ensures value.Some? && !SQLiteString.HasLiteralQuotes(value.value) ==>
      r.Success? && SQLiteString.Unquote(r.value, '\'') == Some(value.value)
    ensures r.Success? ==> SQLiteString.HasLiteralQuotes(r.value)
  {
    SQLiteString.QuoteLiteral(value)
  }

  /** `IsQuotedIdentifier`: null raises; otherwise the textual wrap test. */
  function IsQuotedIdentifier(value: Option<string>): (r: Result<bool, Error>)
    ensures value.None? <==> r == Failure(ArgumentNull("value"))
    ensures value.Some? ==> r == Success(SQLiteString.HasIdentifierQuotes(value.value))
  {
    SQLiteString.IsQuotedIdentifier(value)
  }

  /** `IsQuotedLiteral`: null raises; otherwise the textual wrap test. */
  function IsQuotedLiteral(value: Option<string>): (r: Result<bool, Error>)
    ensures value.None? <==> r == Failure(ArgumentNull("value"))
    ensures value.Some? ==> r == Success(SQLiteString.HasLiteralQuotes(value.value))
  {
    SQLiteString.IsQuotedLiteral(value)
  }

  class SQLiteHelper {
    /** `_cmd.CommandText`. */
    var commandText: string
    /** `_cmd.Parameters`, in the order they were added. */
    var parameters: seq<Param>
    /** Every statement the engine has received through the command, oldest first. */
    var sent: seq<Statement>

    /** `SQLiteHelper(command)`: the command as it was handed over. */
    constructor (commandText: string, parameters: seq<Param>)
      ensures this.commandText == commandText && this.parameters == parameters && sent == []
    {
      this.commandText := commandText;
      this.parameters := parameters;
      sent := [];
    }

    /** Sets the text, appends the parameters (a null list adds none) and runs the command. */
    method Run(kind: Kind, sql: string, added: Option<seq<Param>>)
      modifies this
      ensures commandText == sql
      ensures parameters == old(parameters) + (if added.None? then [] else added.value)
      ensures sent == old(sent) + [Statement(kind, sql, parameters)]
    {
      commandText := sql;
      if added.Some? {
        var i := 0;
        while i < |added.value|
          invariant i <= |added.value|
          invariant parameters == old(parameters) + added.value[..i]
          invariant commandText == sql && sent == old(sent)
        {
          parameters := parameters + [added.value[i]];
          i := i + 1;
        }
        assert added.value[..|added.value|] == added.value;
      }
      sent := sent + [Statement(kind, sql, parameters)];
    }

    /** `GetParametersList`: none for null, otherwise one per entry named by its key, in order. */
    method GetParametersList(d: Option<Dictionary>) returns (list: seq<Param>)
      ensures list == EnumerateParameterDictionary(d)
    {
      list := [];
      if d.Some? {
        list := BindParameters("", d.value);
      }
    }

    /** `Select(sql)`: an empty list, so the parameters stay as they are. */
    method Select(sql: string)
      modifies this
      ensures commandText == sql && parameters == old(parameters)
      ensures sent == old(sent) + [Statement(Query, sql, parameters)]
    {
      Run(Query, sql, Some([]));
    }

    /** `Select(sql, dicParameters)`. */
    method SelectWith(sql: string, dicParameters: Option<Dictionary>)
      modifies this
      ensures commandText == sql && parameters == old(parameters) + EnumerateParameterDictionary(dicParameters)
      ensures sent == old(sent) + [Statement(Query, sql, parameters)]
    {
      var list := GetParametersList(dicParameters);
      Run(Query, sql, Some(list));
    }

    /** `Select(sql, parameters)`: a null sequence adds nothing. */
    method SelectParams(sql: string, ps: Option<seq<Param>>)
      modifies this
      ensures commandText == sql && parameters == old(parameters) + (if ps.None? then [] else ps.value)
      ensures sent == old(sent) + [Statement(Query, sql, parameters)]
    {
      Run(Query, sql, ps);
    }

    /** `Execute(sql)`: a null list, so the parameters stay as they are. */
    method Execute(sql: string)
      modifies this
      ensures commandText == sql && parameters == old(parameters)
      ensures sent == old(sent) + [Statement(NonQuery, sql, parameters)]
    {
      Run(NonQuery, sql, None);
    }

    /** `Execute(sql, parameters)` with a dictionary. */
    method ExecuteWith(sql: string, dicParameters: Option<Dictionary>)
      modifies this
      ensures commandText == sql && parameters == old(parameters) + EnumerateParameterDictionary(dicParameters)
      ensures sent == old(sent) + [Statement(NonQuery, sql, parameters)]
    {
      var list := GetParametersList(dicParameters);
      Run(NonQuery, sql, Some(list));
    }

    /** `Execute(sql, parameters)` with a parameter sequence. */
    method ExecuteParams(sql: string, ps: Option<seq<Param>>)
      modifies this
      ensures commandText == sql && parameters == old(parameters) + (if ps.None? then [] else ps.value)
      ensures sent == old(sent) + [Statement(NonQuery, sql, parameters)]
    {
      Run(NonQuery, sql, ps);
    }

    /** `ExecuteScalar(sql)`: the engine's answer is handed back unchanged. */
    method ExecuteScalar(sql: string, answer: Value) returns (result: Value)
      modifies this
      ensures commandText == sql && parameters == old(parameters)
      ensures sent == old(sent) + [Statement(Scalar, sql, parameters)]
      ensures result == answer
    {
      Run(Scalar, sql, None);
      result := answer;
    }

    /** `ExecuteScalar(sql, parameters)` with a dictionary. */
    method ExecuteScalarWith(sql: string, dicParameters: Option<Dictionary>, answer: Value) returns (result: Value)
      modifies this
      ensures commandText == sql && parameters == old(parameters) + EnumerateParameterDictionary(dicParameters)
      ensures sent == old(sent) + [Statement(Scalar, sql, parameters)]
      ensures result == answer
    {
      var list := GetParametersList(dicParameters);
      Run(Scalar, sql, Some(list));
      result := answer;
    }

    /** `ExecuteScalar(sql, parameters)` with a parameter sequence. */
    method ExecuteScalarParams(sql: string, ps: Option<seq<Param>>, answer: Value) returns (result: Value)
      modifies this
      ensures commandText == sql && parameters == old(parameters) + (if ps.None? then [] else ps.value)
      ensures sent == old(sent) + [Statement(Scalar, sql, parameters)]
      ensures result == answer
    {
      Run(Scalar, sql, ps);
      result := answer;
    }

    /** `Insert`: the same text as the extension method; its `@v` parameters join those already bound. */
    method Insert(tableName: Option<string>, dic: Option<Dictionary>) returns (outcome: Outcome<Error>)
      modifies this
      ensures dic.None? ==> outcome == Fail(NullReference) && unchanged(this)
      ensures dic.Some? ==>
        outcome == Pass &&
        commandText == InsertSql(tableName, Keys(dic.value)) &&
        parameters == old(parameters) + Bind("@v", dic.value) &&
        sent == old(sent) + [Statement(NonQuery, commandText, parameters)]
    {
      if dic.None? {
        return Fail(NullReference);
      }
      var sql := BuildInsert(tableName, dic.value);
      commandText := sql;
      var ps := BindParameters("@v", dic.value);
      parameters := parameters + ps;
      sent := sent + [Statement(NonQuery, commandText, parameters)];
      return Pass;
    }

    /**
     * `Update(tableName, dicData, dicCond)`: a null or empty data dictionary and a null condition
     * dictionary fail before the command is touched; names are wrapped in backticks unescaped.
     */
    method Update(tableName: Option<string>, dicData: Option<Dictionary>, dicCond: Option<Dictionary>) returns (outcome: Outcome<Error>)
      modifies this
      ensures dicData.None? ==> outcome == Fail(NullReference) && unchanged(this)
      ensures dicData.Some? && |dicData.value| == 0 ==> outcome == Fail(General("dicData is empty.")) && unchanged(this)
      ensures dicData.Some? && |dicData.value| > 0 && dicCond.None? ==> outcome == Fail(NullReference) && unchanged(this)
      ensures dicData.Some? && |dicData.value| > 0 && dicCond.Some? ==>
        outcome == Pass &&
        commandText == UpdateSql(RawBacktick, Backticked(OrEmpty(tableName)), Keys(dicData.value), Keys(dicCond.value)) &&
        parameters == old(parameters) + Bind("@v", dicData.value) + Bind("@c", dicCond.value) &&
        sent == old(sent) + [Statement(NonQuery, commandText, parameters)]
    {
      if dicData.None? {
        return Fail(NullReference);
      }
      if |dicData.value| == 0 {
        return Fail(General("dicData is empty."));
      }
      if dicCond.None? {
        return Fail(NullReference);
      }
      var sql := BuildUpdate(RawBacktick, tableName, dicData.value, dicCond.value);
      commandText := sql.value;
      var ps := BindParameters("@v", dicData.value);
      var cs := BindParameters("@c", dicCond.value);
      parameters := parameters + ps + cs;
      sent := sent + [Statement(NonQuery, commandText, parameters)];
      return Pass;
    }

    /** `Update(tableName, dicData, colCond, varCond)`: a one-entry condition dictionary; a null column is a null key. */
    method UpdateSingle(tableName: Option<string>, dicData: Option<Dictionary>, colCond: Option<string>, varCond: Value)
      returns (outcome: Outcome<Error>)
      modifies this
      ensures colCond.None? ==> outcome == Fail(ArgumentNull("key")) && unchanged(this)
      ensures colCond.Some? && dicData.None? ==> outcome == Fail(NullReference) && unchanged(this)
      ensures colCond.Some? && dicData.Some? && |dicData.value| == 0 ==>
        outcome == Fail(General("dicData is empty.")) && unchanged(this)
      ensures colCond.Some? && dicData.Some? && |dicData.value| > 0 ==>
        outcome == Pass &&
        commandText == UpdateSql(RawBacktick, Backticked(OrEmpty(tableName)), Keys(dicData.value), [colCond.value]) &&
        parameters == old(parameters) + Bind("@v", dicData.value) + [Param("@c" + colCond.value, varCond)] &&
        sent == old(sent) + [Statement(NonQuery, commandText, parameters)]
    {
      if colCond.None? {
        return Fail(ArgumentNull("key"));
      }
      var dic := [Entry(colCond.value, varCond)];
      assert Keys(dic) == [colCond.value];
      outcome := Update(tableName, dicData, Some(dic));
    }

    /** `CreateTable`: the same text as the extension method; a null descriptor or a blank column name leaves the command untouched. */
    method CreateTable(table: Table?) returns (outcome: Outcome<Error>)
      modifies this
      ensures table == null ==> outcome == Fail(NullReference) && unchanged(this)
      ensures table != null && CreateTableSql(table.name, table.columns.items).Failure? ==>
        outcome == Fail(CreateTableSql(table.name, table.columns.items).error) && unchanged(this)
      ensures table != null && CreateTableSql(table.name, table.columns.items).Success? ==>
        outcome == Pass &&
        commandText == CreateTableSql(table.name, table.columns.items).value &&
        parameters == old(parameters) &&
        sent == old(sent) + [Statement(NonQuery, commandText, parameters)]
    {
      if table == null {
        return Fail(NullReference);
      }
      var sql := BuildCreateTable(table.name, table.columns.items);
      if sql.Failure? {
        return Fail(sql.error);
      }
      commandText := sql.value;
      sent := sent + [Statement(NonQuery, commandText, parameters)];
      return Pass;
    }

    /** `RenameTable`: both names quoted; a null one fails before the command is touched. */
    method RenameTable(tableFrom: Option<string>, tableTo: Option<string>) returns (outcome: Outcome<Error>)
      modifies this
      ensures (tableFrom.None? || tableTo.None?) ==> outcome == Fail(ArgumentNull("value")) && unchanged(this)
      ensures tableFrom.Some? && tableTo.Some? ==>
        outcome == Pass &&
        commandText == RenameTableSql(SQLiteString.QuotedIdentifier(tableFrom.value), SQLiteString.QuotedIdentifier(tableTo.value)) &&
        parameters == old(parameters) &&
        sent == old(sent) + [Statement(NonQuery, commandText, parameters)]
    {
      var quotedFrom := QuoteIdentifier(tableFrom);
      if quotedFrom.Failure? {
        return Fail(quotedFrom.error);
      }
      var quotedTo := QuoteIdentifier(tableTo);
      if quotedTo.Failure? {
        return Fail(quotedTo.error);
      }
      commandText := RenameTableSql(quotedFrom.value, quotedTo.value);
      sent := sent + [Statement(NonQuery, commandText, parameters)];
      return Pass;
    }

    /**
     * `CopyAllData`: both names quoted (a null one fails first), both tables probed with the
     * quoted name between backticks, and the shared columns copied.
     */
    method CopyAllData(tableFrom: Option<string>, tableTo: Option<string>, fromColumns: seq<string>, toColumns: seq<string>)
      returns (outcome: Outcome<Error>)
      modifies this
      ensures (tableFrom.None? || tableTo.None?) ==> outcome == Fail(ArgumentNull("value")) && unchanged(this)
      ensures tableFrom.Some? && tableTo.Some? ==>
        var quotedFrom := SQLiteString.QuotedIdentifier(tableFrom.value);
        var quotedTo := SQLiteString.QuotedIdentifier(tableTo.value);
        outcome == Pass &&
        commandText == CopyAllDataSql(quotedFrom, quotedTo, ColumnListText(SharedColumns(fromColumns, toColumns))) &&
        parameters == old(parameters) &&
        sent == old(sent) + CopyAllDataStatements(RawBacktick, quotedFrom, quotedTo, fromColumns, toColumns, parameters)
    {
      var quotedFrom := QuoteIdentifier(tableFrom);
      if quotedFrom.Failure? {
        return Fail(quotedFrom.error);
      }
      var quotedTo := QuoteIdentifier(tableTo);
      if quotedTo.Failure? {
        return Fail(quotedTo.error);
      }
      Select(ProbeSql(RawBacktick, quotedFrom.value));
      Select(ProbeSql(RawBacktick, quotedTo.value));
      var sql := BuildCopyAllData(quotedFrom.value, quotedTo.value, fromColumns, toColumns);
      commandText := sql;
      sent := sent + [Statement(NonQuery, commandText, parameters)];
      return Pass;
    }

    /** `DropTable`: the raw name between backticks, without a semicolon. */
    method DropTable(table: Option<string>)
      modifies this
      ensures commandText == HelperDropTableSql(table) && parameters == old(parameters)
      ensures sent == old(sent) + [Statement(NonQuery, commandText, parameters)]
    {
      commandText := HelperDropTableSql(table);
      sent := sent + [Statement(NonQuery, commandText, parameters)];
    }

    /**
     * `UpdateTableStructure`: the descriptor is renamed to the temporary name, then create, copy
     * target to temporary, drop target, rename temporary to target; a failing step leaves the
     * earlier ones sent.
     */
    method UpdateTableStructure(targetTable: Option<string>, newStructure: Table?, targetColumns: seq<string>, tempColumns: seq<string>)
      returns (outcome: Outcome<Error>)
      modifies this, newStructure
      ensures newStructure == null ==> outcome == Fail(NullReference) && unchanged(this)
      ensures newStructure != null ==> newStructure.name == Some(TempTableName(targetTable))
      ensures parameters == old(parameters)
      ensures newStructure != null ==>
        var temp := TempTableName(targetTable);
        var create := CreateTableSql(Some(temp), newStructure.columns.items);
        (create.Failure? ==> outcome == Fail(create.error) && commandText == old(commandText) && sent == old(sent)) &&
        (create.Success? && targetTable.None? ==>
          outcome == Fail(ArgumentNull("value")) && commandText == create.value &&
          sent == old(sent) + [Statement(NonQuery, create.value, parameters)]) &&
        (create.Success? && targetTable.Some? ==>
          outcome == Pass &&
          commandText == RenameTableSql(SQLiteString.QuotedIdentifier(temp), SQLiteString.QuotedIdentifier(targetTable.value)) &&
          sent == old(sent) + [Statement(NonQuery, create.value, parameters)]
            + CopyAllDataStatements(RawBacktick, SQLiteString.QuotedIdentifier(targetTable.value), SQLiteString.QuotedIdentifier(temp),
                                    targetColumns, tempColumns, parameters)
            + [Statement(NonQuery, HelperDropTableSql(targetTable), parameters),
               Statement(NonQuery, RenameTableSql(SQLiteString.QuotedIdentifier(temp), SQLiteString.QuotedIdentifier(targetTable.value)), parameters)])
    {
      if newStructure == null {
        return Fail(NullReference);
      }
      newStructure.name := Some(TempTableName(targetTable));
      outcome := CreateTable(newStructure);
      if outcome.Fail? {
        return;
      }
      outcome := CopyAllData(targetTable, newStructure.name, targetColumns, tempColumns);
      if outcome.Fail? {
        return;
      }
      DropTable(targetTable);
      outcome := RenameTable(newStructure.name, targetTable);
    }

    /** `GetTableList`: the catalogue is read and every table but the sequence table is listed, in catalogue order. */
    method GetTableList(catalogueNames: seq<string>) returns (tables: seq<string>)
      modifies this
      ensures commandText == TableStatusSql && parameters == old(parameters)
      ensures sent == old(sent) + [Statement(Query, TableStatusSql, parameters)]
      ensures tables == UserTables(catalogueNames)
    {
      Select(TableStatusSql);
      tables := FilterTableNames(catalogueNames);
    }
  }
}
