# SQLiteHelper, modelled in Dafny

SQLiteHelper is a small C# library on top of an embedded SQLite connection. It quotes
identifiers and string literals. It builds the text of `INSERT`, `UPDATE`, `CREATE TABLE`,
copy, drop and rename statements from dictionaries and table descriptors. It replaces a
table's structure by create, copy, drop and rename. It binds named parameters and hands
everything to the engine.

The library ships the statement builders twice:

- as extension methods on a connection (`SQLiteConnectionExtensions`). Each call creates a fresh command.
- as the `SQLiteHelper` class, which wraps a single command. Each call overwrites that command's text and appends to its parameter list, which is never cleared.

This project models what the library sends to the engine: the text, the parameters and the order.

- **Quoting** (`sqlite_string.dfy`). `SQLiteString`'s four functions. Null becomes an `ArgumentNull` error. Identifiers are checked for the shallow "already wrapped" test. Escaping doubles the delimiter. Both directions of the round trip are proved: unquoting the quoted form gives the name back, and the quoted form is the only text that unquotes to it. Quoting is proved idempotent.
- **Append helpers** (`string_builder.dfy`). `AppendQuotedIdentifier` and `AppendQuotedLiteral` over a `StringBuilder` class whose content only grows.
- **Schema** (`schema.dfy`). Columns are a record with four factory presets. `SQLiteColumnList` is a class keyed by column name, which rejects a duplicate key. `SQLiteTable` is a class with a settable name and a fixed column list.
- **Parameters** (`parameters.dfy`). Dictionaries are sequences of entries with distinct keys, in enumeration order. The module covers binding under `@v`, `@c` or no prefix, and `EnumerateParameterDictionary`.
- **Statement text** (`statements.dfy`, `copy_data.dfy`, `catalog.dfy`). Each statement has three parts:
  - a reference definition in terms of `Join`;
  - a builder method with the source's loop (first-record flags, length tests);
  - a proof that the builder produces exactly the reference text.

  The extension methods quote names with `QuoteIdentifier` (`Standard`). The helper class writes them raw between backticks (`RawBacktick`).
- **Execution** (`connection_extensions.dfy`, `sqlite_helper.dfy`).
  - The engine is a sink. `Connection.log` and `SQLiteHelper.sent` record what it received: the kind of execution, the text, and the parameters bound at that moment.
  - What the engine answers is an input of the method: a scalar, the columns of a probed table, or the catalogue names.
  - A C# exception becomes a `Fail`/`Failure` outcome with nothing sent after it.

Behaviour of the code worth knowing:

- `TableExists` quotes the name with the identifier routine (`"name"`). SQLite reads a double-quoted word that names no column as a string, so the query compares the catalogue's `name` with the table name.
- The insert text is the column part, `) `, the value part and `);`. The column part is `insert into`, the table name (not quoted at all), `(` and the backticked keys separated by `,`. The value part is ` values(` and the `@v` placeholders separated by `, `, so there are two spaces before `values`. With an empty dictionary the text is `) );`.
- The rule that only an integer primary key is auto-incremented is kept by the factory presets but not by the settable properties (`Schema.SettersCanBreakAutoIncrementRule`). An auto-increment column is written `integer primary key autoincrement` whatever its declared type.
- Empty update data is an `ArgumentException` in the extension method. It is a plain `Exception("dicData is empty.")` in the helper class. A null data dictionary is a null dereference in the helper class.
- Keys written between backticks are not escaped. Default values written between single quotes are not escaped.
- `CopyAllData` wraps the already quoted table names in backticks once more, in the copy statement and, in the helper class, in the probes.
- The helper's `DropTable` neither quotes the name nor ends with a semicolon.
- Every statement the helper class sends carries every parameter bound since it was created.
- The extension `ExecuteNonQuery` and `ExecuteScalar` with a dictionary call `AddRange`. Its `@this.Add(kvp)` picks the collection's instance `Add(object)`, not the `KeyValuePair` extension beside it, so the `AddWithValue` binding that extension was written for never runs.

## Model

| member | source | states |
|---|---|---|
| SQLiteString.Escape | src/SQLiteHelper/SQLiteString.cs:17 | doubling the delimiter lengthens the text by one per occurrence |
| SQLiteString.UnescapeEscape | src/SQLiteHelper/SQLiteString.cs:17 | collapsing doubled delimiters undoes the `Replace` |
| SQLiteString.EscapeUnescape | src/SQLiteHelper/SQLiteString.cs:17 | the escaped form is the only text that collapses to a given string |
| SQLiteString.UnquoteInverse | src/SQLiteHelper/SQLiteString.cs:17-18 | a text that unquotes to `v` is exactly the delimiter, `v` escaped, and the delimiter |
| SQLiteString.QuotedIdentifier | src/SQLiteHelper/SQLiteString.cs:15-18 | already wrapped: unchanged; otherwise `"` + escaped + `"`, two longer plus one per embedded `"`, unquoting back to the input; the result always passes the wrap test |
| SQLiteString.QuotedLiteral | src/SQLiteHelper/SQLiteString.cs:25-28 | the same for `'` |
| SQLiteString.IsQuotedIdentifier | src/SQLiteHelper/SQLiteString.cs:31-41 | null raises ArgumentNull("value"); otherwise true iff the text is non-empty and starts and ends with `"`, `[`…`]` or a backtick |
| SQLiteString.IsQuotedLiteral | src/SQLiteHelper/SQLiteString.cs:43-49 | null raises; otherwise true iff it starts and ends with `'` |
| SQLiteString.QuoteIdentifier | src/SQLiteHelper/SQLiteString.cs:11-19 | null raises ArgumentNull("value"); the result always passes `IsQuotedIdentifier`; an already quoted input is returned as is; any other input is escaped, wrapped and unquotes back |
| SQLiteString.QuoteLiteral | src/SQLiteHelper/SQLiteString.cs:21-29 | the same for literals |
| SQLiteString.QuoteIdentifierIdempotent | src/SQLiteHelper/SQLiteString.cs:15-16 | quoting twice equals quoting once |
| SQLiteString.QuoteLiteralIdempotent | src/SQLiteHelper/SQLiteString.cs:25-26 | quoting twice equals quoting once |
| SQLiteString.IdentifierRoundTrip | src/SQLiteHelper/SQLiteString.cs:11-19 | for an unwrapped name, unquoting its quoted form gives it back, and no other text unquotes to it |
| SQLiteString.LiteralRoundTrip | src/SQLiteHelper/SQLiteString.cs:21-29 | the same for literals |
| SQLiteString.ShallowQuotedTest | src/SQLiteHelper/SQLiteString.cs:36-40 | the test is textual: a lone `"` counts as quoted, the empty string and a name opened with `[` but closed with a backtick do not, an unescaped inner `"` is accepted; the same for `'` |
| StringBuilderExtensions.AppendQuotedIdentifier | src/SQLiteHelper/StringBuilderExtensions.cs:13-18 | null raises and leaves the buffer untouched; otherwise exactly the quoted identifier is appended and the same builder is returned |
| StringBuilderExtensions.AppendQuotedLiteral | src/SQLiteHelper/StringBuilderExtensions.cs:20-25 | the same with literal quoting |
| Schema.CreatePrimaryKey | src/SQLiteHelper/SQLiteColumn.cs:10-20 | a required primary key with the given name and type, auto-incremented iff the type is Integer; keeps the auto-increment rule |
| Schema.CreateIntegerPrimaryKey | src/SQLiteHelper/SQLiteColumn.cs:5-8 | the Integer case of `CreatePrimaryKey`, always auto-incremented |
| Schema.Create | src/SQLiteHelper/SQLiteColumn.cs:22-31 | never a key nor auto-incremented; `notNull` and default as given |
| Schema.CreateRequired | src/SQLiteHelper/SQLiteColumn.cs:33-41 | required, no key, no default: `Create(name, t, true, null)` |
| Schema.SettersCanBreakAutoIncrementRule | src/SQLiteHelper/SQLiteColumn.cs:45-50 | the rule holds for a preset and is broken by setting `AutoIncrement` afterwards |
| Schema.IndexOfKey | src/SQLiteHelper/SQLiteColumnList.cs:5-10 | the key lookup finds a column with that name, or reports that none has it |
| Schema.ColumnList.constructor | src/SQLiteHelper/SQLiteColumnList.cs:5 | an empty list, keys distinct |
| Schema.ColumnList.Add | src/SQLiteHelper/SQLiteColumnList.cs:5-10 | a duplicate key raises and changes nothing; otherwise the column goes last; keys stay distinct |
| Schema.ColumnList.Get | src/SQLiteHelper/SQLiteColumnList.cs:5-10 | a null key raises ArgumentNull("key"); success iff a column has the key; the result is the unique column with that name; otherwise KeyNotFound |
| Schema.Table.constructor | src/SQLiteHelper/SQLiteTable.cs:10-14 | the given name and a fresh empty column list |
| Schema.Table.Unnamed | src/SQLiteHelper/SQLiteTable.cs:5-8 | a null name and a fresh empty column list |
| Schema.PeopleTableSpec | src/SQLiteHelper.Tests/TestObjects.cs:21-29 | all four `Add` calls succeed and the columns are the four presets in order |
| Parameters.PlaceholdersAreBound | src/SQLiteHelper/SQLiteConnectionExtensions.cs:165-179 | the `@v` placeholders of the insert text are, in order, the names of the bound parameters |
| Parameters.BindNamesDistinct | src/SQLiteHelper/SQLiteConnectionExtensions.cs:176-179 | distinct keys give distinct parameter names |
| Parameters.SetAndWhereNamesDiffer | src/SQLiteHelper/SQLiteConnectionExtensions.cs:270-278 | no `@v` name equals a `@c` name, so a column both set and tested gets two parameters |
| Parameters.UpdateNamesDistinct | src/SQLiteHelper/SQLiteConnectionExtensions.cs:270-278 | all parameters an update binds have distinct names |
| Parameters.BoundUpToIsBind | src/SQLiteHelper/SQLiteConnectionExtensions.cs:176-179 | after `n` iterations the binding loop has bound exactly the first `n` entries |
| Parameters.BindParameters | src/SQLiteHelper/SQLiteConnectionExtensions.cs:176-179 | one parameter per entry, prefix + key and value, in enumeration order |
| Parameters.EnumerateParameterDictionary | src/SQLiteHelper/SQLiteConnectionExtensions.cs:532-539 | none for null; otherwise one parameter per entry, named by the key, with its value, in order |
| Catalog.UserTablesMembership | src/SQLiteHelper/SQLiteConnectionExtensions.cs:459-464 | a name is listed iff the catalogue has it and it is not `sqlite_sequence` |
| Catalog.UserTablesKeepsOthers | src/SQLiteHelper/SQLiteConnectionExtensions.cs:459-464 | without `sqlite_sequence`, every catalogue row is listed in order |
| Catalog.FilterTableNames | src/SQLiteHelper/SQLiteConnectionExtensions.cs:459-464 | the row loop yields the catalogue names without `sqlite_sequence`, in order |
| CopyData.SharedColumnsMembership | src/SQLiteHelper/SQLiteConnectionExtensions.cs:322-344 | a column is copied iff both tables have it |
| CopyData.SharedColumnsDistinct | src/SQLiteHelper/SQLiteConnectionExtensions.cs:328-330 | no column is copied twice |
| CopyData.FilterMembership | src/SQLiteHelper/SQLiteConnectionExtensions.cs:324-333 | the reference filter keeps exactly the source columns the destination has |
| CopyData.SharedColumnsOfDistinctSource | src/SQLiteHelper/SQLiteConnectionExtensions.cs:324-344 | for distinct source columns, the copied columns are the source's shared columns in source order; the second loop adds nothing |
| CopyData.BuildSharedColumns | src/SQLiteHelper/SQLiteConnectionExtensions.cs:322-344 | both loops fill the dictionary with the shared columns |
| CopyData.BuildColumnList | src/SQLiteHelper/SQLiteConnectionExtensions.cs:346-356 | the length-tested comma loop gives the backticked names joined by `,` |
| CopyData.BuildCopyAllData | src/SQLiteHelper/SQLiteConnectionExtensions.cs:346-367 | the copy text lists the shared columns on both sides, names wrapped in backticks once more |
| Statements.TableText | src/SQLiteHelper/SQLiteConnectionExtensions.cs:224-226 | fails, with ArgumentNull("value"), exactly when identifier quoting meets a null name; otherwise the name as the builder wraps it, a null name being written as nothing between backticks |
| Statements.ColumnsUpToIsJoin | src/SQLiteHelper/SQLiteConnectionExtensions.cs:139-155 | after `n` iterations the column builder holds the head and the first `n` backticked keys joined by `,` |
| Statements.ValuesUpToIsJoin | src/SQLiteHelper/SQLiteConnectionExtensions.cs:156-167 | after `n` iterations the value builder holds ` values(` and the first `n` placeholders joined by `, ` |
| Statements.BuildInsert | src/SQLiteHelper/SQLiteConnectionExtensions.cs:134-174 | the two-builder loop gives the insert text for the keys in order |
| Statements.AssignmentsUseBoundNames | src/SQLiteHelper/SQLiteConnectionExtensions.cs:237-278 | each `name = @pkey` assignment names the parameter bound for that entry |
| Statements.AppendClause | src/SQLiteHelper/SQLiteConnectionExtensions.cs:228-262 | the first-record loop appends the assignments joined by the separator |
| Statements.BuildUpdate | src/SQLiteHelper/SQLiteConnectionExtensions.cs:224-264 | a rejected table name fails first; otherwise the update text with `,` between assignments and ` and ` between conditions |
| Statements.NamesCheckedUpToNoBlank | src/SQLiteHelper/SQLiteConnectionExtensions.cs:381-386 | the loop's progressive check equals "no blank name among the first `n` columns" |
| Statements.AppendColumn | src/SQLiteHelper/SQLiteConnectionExtensions.cs:388-435 | one pass appends `,` + newline unless it is the first column, then that column's definition |
| Statements.AppendDefinition | src/SQLiteHelper/SQLiteConnectionExtensions.cs:393-435 | the loop body appends exactly the column's definition |
| Statements.BuildCreateTable | src/SQLiteHelper/SQLiteConnectionExtensions.cs:372-438 | a blank column name fails with "Column name cannot be blank."; otherwise the head, the definitions joined by `,` + newline, and `);` + newline |
| Statements.IntegerPrimaryKeyClause | src/SQLiteHelper/SQLiteConnectionExtensions.cs:396-401 | an integer primary key preset renders as `integer primary key autoincrement` |
| Statements.PrimaryKeyClause | src/SQLiteHelper/SQLiteConnectionExtensions.cs:403-418 | a primary key of another type renders as its keyword and ` primary key` |
| Statements.RequiredClause | src/SQLiteHelper/SQLiteConnectionExtensions.cs:403-420 | a required column renders as its keyword and ` not null` |
| Statements.OptionalClause | src/SQLiteHelper/SQLiteConnectionExtensions.cs:403-435 | an optional column renders its non-empty default, and nothing without one |
| Statements.AutoIncrementOverrides | src/SQLiteHelper/SQLiteConnectionExtensions.cs:396-401 | the auto-increment flag overrides the type and every other flag |
| ConnectionExtensions.Connection.ExecuteNonQuery | src/SQLiteHelper/SQLiteConnectionExtensions.cs:40-47 | one non-query with the text and no parameters |
| ConnectionExtensions.Connection.ExecuteNonQueryWith | src/SQLiteHelper/SQLiteConnectionExtensions.cs:56-64 | one non-query carrying each entry under its key, the binding `SQLiteParameterCollectionExtensions.Add` was written to give; null binds nothing |
| ConnectionExtensions.Connection.ExecuteScalar | src/SQLiteHelper/SQLiteConnectionExtensions.cs:83-90 | one scalar query; the engine's answer is returned unchanged |
| ConnectionExtensions.Connection.ExecuteScalarWith | src/SQLiteHelper/SQLiteConnectionExtensions.cs:92-100 | the same, carrying the dictionary's entries |
| ConnectionExtensions.Connection.Select | src/SQLiteHelper/SQLiteConnectionExtensions.cs:288-291 | one query with the text |
| ConnectionExtensions.Connection.Insert | src/SQLiteHelper/SQLiteConnectionExtensions.cs:134-183 | null dictionary: null dereference, nothing sent; otherwise one non-query with the insert text and one `@v` parameter per entry |
| ConnectionExtensions.Connection.UpdateRows | src/SQLiteHelper/SQLiteConnectionExtensions.cs:205-282 | empty data, then null conditions, then a null table name are rejected in that order with nothing sent; otherwise one update with the `@v` then `@c` parameters |
| ConnectionExtensions.Connection.UpdateRowsSingle | src/SQLiteHelper/SQLiteConnectionExtensions.cs:194-199 | a null column raises ArgumentNull("key"); then the checks of `UpdateRows`; otherwise one update whose only condition is that column, bound as `@c` + column |
| ConnectionExtensions.Connection.CreateTable | src/SQLiteHelper/SQLiteConnectionExtensions.cs:372-441 | a null table or a blank column name fails with nothing sent; otherwise one non-query with the create text |
| ConnectionExtensions.Connection.CopyAllData | src/SQLiteHelper/SQLiteConnectionExtensions.cs:315-370 | a null name fails with nothing sent; otherwise the two probes and the copy of the shared columns |
| ConnectionExtensions.Connection.DropTable | src/SQLiteHelper/SQLiteConnectionExtensions.cs:443-447 | a null name fails; otherwise `drop table if exists` with the quoted name and `;` |
| ConnectionExtensions.Connection.RenameTable | src/SQLiteHelper/SQLiteConnectionExtensions.cs:475-481 | a null name fails; otherwise `alter table … rename to …;` with both names quoted |
| ConnectionExtensions.Connection.UpdateTableStructure | src/SQLiteHelper/SQLiteConnectionExtensions.cs:484-491 | the descriptor is renamed `<target>_temp`; create, copy, drop and rename are sent in order; a failure keeps the statements already sent and sends nothing more |
| ConnectionExtensions.Connection.TableExists | src/SQLiteHelper/SQLiteConnectionExtensions.cs:515-528 | a null or empty name is false with no query; otherwise one count query with the identifier-quoted name, true iff the answer is the integer 1 |
| ConnectionExtensions.Connection.GetTableList | src/SQLiteHelper/SQLiteConnectionExtensions.cs:449-466 | one catalogue query; the list is the catalogue without `sqlite_sequence` |
| Helper.QuoteIdentifier | src/SQLiteHelper/SQLiteHelper.cs:20-28 | null raises; an already quoted name is returned as is; any other is wrapped and unquotes back; the result passes the wrap test |
| Helper.QuoteLiteral | src/SQLiteHelper/SQLiteHelper.cs:30-38 | the same for literals |
| Helper.IsQuotedIdentifier | src/SQLiteHelper/SQLiteHelper.cs:40-50 | null raises; otherwise the textual wrap test |
| Helper.IsQuotedLiteral | src/SQLiteHelper/SQLiteHelper.cs:52-58 | null raises; otherwise the textual wrap test |
| Helper.SQLiteHelper.constructor | src/SQLiteHelper/SQLiteHelper.cs:15-18 | the command as handed over, nothing sent yet |
| Helper.SQLiteHelper.Run | src/SQLiteHelper/SQLiteHelper.cs:151-162 | the text is replaced; the parameters are appended (null adds none); the statement carries every parameter bound so far |
| Helper.SQLiteHelper.GetParametersList | src/SQLiteHelper/SQLiteHelper.cs:222-233 | none for null; otherwise one per entry, named by its key, in order |
| Helper.SQLiteHelper.Select | src/SQLiteHelper/SQLiteHelper.cs:113-116 | one query; the parameters stay as they were and are all sent |
| Helper.SQLiteHelper.SelectWith | src/SQLiteHelper/SQLiteHelper.cs:118-122 | the dictionary's parameters are appended to those already bound |
| Helper.SQLiteHelper.SelectParams | src/SQLiteHelper/SQLiteHelper.cs:124-138 | the given parameters are appended; null adds none |
| Helper.SQLiteHelper.Execute | src/SQLiteHelper/SQLiteHelper.cs:140-143 | one non-query; the parameters stay as they were |
| Helper.SQLiteHelper.ExecuteWith | src/SQLiteHelper/SQLiteHelper.cs:145-149 | the dictionary's parameters are appended |
| Helper.SQLiteHelper.ExecuteParams | src/SQLiteHelper/SQLiteHelper.cs:151-162 | the given parameters are appended; null adds none |
| Helper.SQLiteHelper.ExecuteScalar | src/SQLiteHelper/SQLiteHelper.cs:164-168 | one scalar query; the answer is returned unchanged |
| Helper.SQLiteHelper.ExecuteScalarWith | src/SQLiteHelper/SQLiteHelper.cs:170-174 | the same, appending the dictionary's parameters |
| Helper.SQLiteHelper.ExecuteScalarParams | src/SQLiteHelper/SQLiteHelper.cs:176-187 | the same, appending the given parameters |
| Helper.SQLiteHelper.Insert | src/SQLiteHelper/SQLiteHelper.cs:235-281 | the extension's insert text; its `@v` parameters join those already bound; null dictionary fails and changes nothing |
| Helper.SQLiteHelper.Update | src/SQLiteHelper/SQLiteHelper.cs:290-367 | null data, empty data ("dicData is empty."), then null conditions fail with nothing changed; otherwise backtick-wrapped names and the `@v`, `@c` parameters appended |
| Helper.SQLiteHelper.UpdateSingle | src/SQLiteHelper/SQLiteHelper.cs:283-288 | a null column raises ArgumentNull("key"); otherwise `Update` with a one-entry condition |
| Helper.SQLiteHelper.CreateTable | src/SQLiteHelper/SQLiteHelper.cs:378-448 | the extension's create text; a null table or blank name changes nothing |
| Helper.SQLiteHelper.RenameTable | src/SQLiteHelper/SQLiteHelper.cs:450-456 | both names quoted; a null one fails and changes nothing |
| Helper.SQLiteHelper.CopyAllData | src/SQLiteHelper/SQLiteHelper.cs:458-514 | both probes wrap the quoted names in backticks; then the copy of the shared columns; all three carry the accumulated parameters |
| Helper.SQLiteHelper.DropTable | src/SQLiteHelper/SQLiteHelper.cs:516-520 | the raw name between backticks, without a semicolon |
| Helper.SQLiteHelper.UpdateTableStructure | src/SQLiteHelper/SQLiteHelper.cs:522-533 | the descriptor is renamed; create, copy, drop and rename are sent in order; a failure keeps what was sent; the command text ends as the rename text, the create text when the copy fails, or unchanged when the create fails; the parameters are unchanged |
| Helper.SQLiteHelper.GetTableList | src/SQLiteHelper/SQLiteHelper.cs:62-79 | one catalogue query; the list is the catalogue without `sqlite_sequence` |

## Left out

- Executing SQL. The engine, its rows and its errors (a missing table, a syntax error in the generated text) are not modelled. What the engine answers is an input, and a statement is recorded as sent.
- `ExecuteScalar<T>` and `LastInsertRowId`: these convert the engine's answer with `Convert.ChangeType`, which is .NET runtime behaviour.
- Transactions, `AttachDatabase`, `DetachDatabase`, `ShowDatabase` and `GetColumnStatus`: each sends one fixed or `string.Format` text and builds nothing else. `GetTableStatus` appears only inside `GetTableList`, as `Catalog.TableStatusSql`.
- `ExecuteSelect` and the extension `Select(sql, IEnumerable<SQLiteParameter>)`: they pass the whole sequence to `Parameters.Add(object)`, whose effect belongs to the SQLite provider.
- ConnectionExtensions.Connection.Select: modelled as a query that binds no parameter. The source hands a null sequence to `Parameters.Add(object)`, and what the provider does with it is not visible here.
- ConnectionExtensions.Connection.CopyAllData: both column probes go through the parameterless `Select` (SQLiteConnectionExtensions.cs:288-291), so they rest on the same reading of `Parameters.Add(object)` with a null sequence.
- ConnectionExtensions.Connection.GetTableList: the catalogue query goes through the parameterless `Select` too, and rests on the same reading.
- ConnectionExtensions.Connection.ExecuteNonQueryWith: binds each entry under its key, as `AddWithValue` would. That is what `SQLiteParameterCollectionExtensions.Add(KeyValuePair)` was written to do. But in `AddRange` (SQLiteParameterCollectionExtensions.cs:17-25) the call `@this.Add(kvp)` resolves to the collection's own instance method `Add(object)`, because C# prefers an applicable instance method to an extension method. So a non-empty dictionary reaches the provider's `Add(object)` holding a `KeyValuePair`, and what the provider does then is not modelled. A null or empty dictionary binds nothing, as modelled.
- ConnectionExtensions.Connection.ExecuteScalarWith: the same `AddRange` call and the same gap as `ExecuteNonQueryWith`.
- The extension `ExecuteNonQuery` and `ExecuteScalar` with an `IEnumerable<SQLiteParameter>`: these add the given `SQLiteParameter` objects through the collection's own `Add(SQLiteParameter)`, and bind nothing for null. They are not modelled, and `SQLiteParameterCollectionExtensions.cs` is not part of this model beyond the dictionary case above.
- `dicTypeSource` in both update builders: it is filled and never read.
- `Constants.cs` is not part of this model. `Constants.SQLiteMasterTableName` is taken to be `sqlite_master`, as in `SQLiteHelper.SQLiteMasterTableName`.
- `DataTable` results: the catalogue rows are reduced to their `name` column as strings (`value + ""`), and the probed tables to their column names.
- `DataColumnCollection.Contains` ignores case; the model compares column names exactly.
- `string.StartsWith(string)` and `EndsWith(string)` are culture-sensitive in .NET; the model compares characters ordinally.
- `Environment.NewLine` is a constant `NL` whose value is left open.
- The builders append to local strings in the order the source appends to its `StringBuilder`. The `StringBuilder` class is modelled only where the append helpers use it.
- Parameter values are a small sum type (`Value`). The provider's type mapping is not modelled.
