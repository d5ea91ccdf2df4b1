/**
 * The SQL text the library sends. Each statement has a reference definition in terms of
 * `Join` over the keys or columns, a recursive description of the text after the first `n`
 * iterations of the builder loop, a lemma connecting the two, and a builder method with the
 * library's loop, proved to produce the reference text.
 */
module Statements {
  import opened Wrappers
  import opened Strings
  import opened SQLiteString
  import opened Parameters
  import opened Schema
  import opened StringBuilderExtensions

  /**
   * How a builder wraps a name: the connection extensions call `AppendQuotedIdentifier`
   * (`Standard`), the helper class appends a backtick, the raw name and a backtick (`RawBacktick`).
   */
  datatype Quoting = Standard | RawBacktick

  /** A name between backticks, as written by the builders that do not call the quoting routine; nothing is escaped. */
  function Backticked(s: string): string {
    "`" + s + "`"
  }

  function Wrap(q: Quoting, s: string): string {
    match q
    case Standard => QuotedIdentifier(s)
    case RawBacktick => Backticked(s)
  }

  /** The table name of an update: `AppendQuotedIdentifier` rejects null; appending null to a builder adds nothing. */
  function TableText(q: Quoting, table: Option<string>): (r: Result<string, Error>)
    ensures r.Failure? <==> q.Standard? && table.None?
    ensures r.Failure? ==> r.error == ArgumentNull("value")
    ensures r.Success? ==> r.value == Wrap(q, OrEmpty(table))
  {
    if q.Standard? && table.None? then Failure(ArgumentNull("value")) else Success(Wrap(q, OrEmpty(table)))
  }

  // ---------------------------------------------------------------- INSERT

  function BacktickedAll(names: seq<string>): seq<string> {
    seq(|names|, i requires 0 <= i < |names| => Backticked(names[i]))
  }

  /** The column half of an insert: nothing for no keys, otherwise the head and the backticked keys separated by commas. */
  function InsertColumns(table: Option<string>, keys: seq<string>): string {
    if keys == [] then "" else "insert into " + OrEmpty(table) + "(" + Join(BacktickedAll(keys), ",")
  }

  /** The value half of an insert: the `@v` placeholders separated by `, `. */
  function InsertValues(keys: seq<string>): string {
    if keys == [] then "" else " values(" + Join(Placeholders("@v", keys), ", ")
  }

  /** The insert text, the table name unquoted and the keys wrapped in backticks without escaping. */
  function InsertSql(table: Option<string>, keys: seq<string>): string {
    InsertColumns(table, keys) + ") " + InsertValues(keys) + ");"
  }

  /** The column builder after `n` iterations: it opens the statement while it is still empty. */
  function ColumnsUpTo(table: Option<string>, keys: seq<string>, n: nat): string
    requires n <= |keys|
  {
    if n == 0 then ""
    else ColumnsUpTo(table, keys, n - 1) + (if n == 1 then "insert into " + OrEmpty(table) + "(" else ",") + Backticked(keys[n - 1])
  }

  /** The value builder after `n` iterations. */
  function ValuesUpTo(keys: seq<string>, n: nat): string
    requires n <= |keys|
  {
    if n == 0 then ""
    else ValuesUpTo(keys, n - 1) + (if n == 1 then " values(" else ", ") + ("@v" + keys[n - 1])
  }

  lemma {:induction false} ColumnsUpToIsJoin(table: Option<string>, keys: seq<string>, n: nat)
    requires 0 < n <= |keys|
    ensures ColumnsUpTo(table, keys, n) == "insert into " + OrEmpty(table) + "(" + Join(BacktickedAll(keys)[..n], ",")
  {
    if n > 1 {
      ColumnsUpToIsJoin(table, keys, n - 1);
      JoinPrefixSnoc(BacktickedAll(keys), n, ",");
      Regroup("insert into " + OrEmpty(table) + "(", Join(BacktickedAll(keys)[..n - 1], ","), ",", Backticked(keys[n - 1]));
    }
  }

  lemma {:induction false} ValuesUpToIsJoin(keys: seq<string>, n: nat)
    requires 0 < n <= |keys|
    ensures ValuesUpTo(keys, n) == " values(" + Join(Placeholders("@v", keys)[..n], ", ")
  {
    if n > 1 {
      ValuesUpToIsJoin(keys, n - 1);
      JoinPrefixSnoc(Placeholders("@v", keys), n, ", ");
      Regroup(" values(", Join(Placeholders("@v", keys)[..n - 1], ", "), ", ", "@v" + keys[n - 1]);
    }
  }

  /** The two `StringBuilder` loop of `Insert`, each builder testing its own length for the first entry. */
  method BuildInsert(table: Option<string>, d: Dictionary) returns (sql: string)
    ensures sql == InsertSql(table, Keys(d))
  {
    var sbCol := "";
    var sbVal := "";
    var i := 0;
    while i < |d|
      invariant i <= |d|
      invariant sbCol == ColumnsUpTo(table, Keys(d), i)
      invariant sbVal == ValuesUpTo(Keys(d), i)
      invariant |sbCol| == 0 <==> i == 0
      invariant |sbVal| == 0 <==> i == 0
    {
      if |sbCol| == 0 {
        sbCol := sbCol + ("insert into " + OrEmpty(table) + "(");
      } else {
        sbCol := sbCol + ",";
      }
      sbCol := sbCol + ("`" + d[i].key + "`");
      if |sbVal| == 0 {
        sbVal := sbVal + " values(";
      } else {
        sbVal := sbVal + ", ";
      }
      sbVal := sbVal + ("@v" + d[i].key);
      i := i + 1;
    }
    if |d| > 0 {
      ColumnsUpToIsJoin(table, Keys(d), |d|);
      ValuesUpToIsJoin(Keys(d), |d|);
      assert BacktickedAll(Keys(d))[..|d|] == BacktickedAll(Keys(d));
      assert Placeholders("@v", Keys(d))[..|d|] == Placeholders("@v", Keys(d));
    }
    sql := sbCol + ") " + sbVal + ");";
  }

  // ---------------------------------------------------------------- UPDATE

  /** One `name = @prefixname` assignment or condition. */
  function Assignment(q: Quoting, prefix: string, key: string): string {
    Wrap(q, key) + " = " + prefix + key
  }

  function Assignments(q: Quoting, prefix: string, keys: seq<string>): seq<string> {
    seq(|keys|, i requires 0 <= i < |keys| => Assignment(q, prefix, keys[i]))
  }

  /** The update text around an already rendered table name. */
  function UpdateSql(q: Quoting, tableText: string, dataKeys: seq<string>, conditionKeys: seq<string>): string {
    "update " + tableText + " set " + Join(Assignments(q, "@v", dataKeys), ",")
    + " where " + Join(Assignments(q, "@c", conditionKeys), " and ") + ";"
  }

  /** Each assignment of the text names, after `=`, the parameter bound for the same entry. */
  lemma AssignmentsUseBoundNames(q: Quoting, prefix: string, d: seq<Entry>)
    ensures |Assignments(q, prefix, Keys(d))| == |Bind(prefix, d)|
    ensures forall i :: 0 <= i < |d| ==>
      Assignments(q, prefix, Keys(d))[i] == Wrap(q, d[i].key) + " = " + Bind(prefix, d)[i].name
  {
  }

  /** The assignment for entry `i`, as the loop below writes it. */
  lemma AssignmentAt(q: Quoting, prefix: string, d: seq<Entry>, i: nat)
    requires i < |d|
    ensures Assignments(q, prefix, Keys(d))[i] == Wrap(q, d[i].key) + " = " + prefix + d[i].key
  {
  }

  /** One `foreach` over a dictionary with a `firstRecord` flag, appending to `head`. */
  method AppendClause(head: string, q: Quoting, prefix: string, sep: string, d: seq<Entry>) returns (sb: string)
    ensures sb == head + Join(Assignments(q, prefix, Keys(d)), sep)
  {
    sb := head;
    ghost var items := Assignments(q, prefix, Keys(d));
    var firstRecord := true;
    var i := 0;
    while i < |d|
      invariant i <= |d|
      invariant sb == head + Join(items[..i], sep)
      invariant firstRecord <==> i == 0
    {
      var item := Wrap(q, d[i].key) + " = " + prefix + d[i].key;
      AssignmentAt(q, prefix, d, i);
      AppendJoined(head, items, i, sep);
      if firstRecord {
        firstRecord := false;
      } else {
        sb := sb + sep;
      }
      sb := sb + item;
      i := i + 1;
    }
    assert items[..|d|] == items;
  }

  /** The text of an update: the table name is rendered first, so a rejected name stops the statement. */
  method BuildUpdate(q: Quoting, table: Option<string>, data: Dictionary, conditions: Dictionary) returns (r: Result<string, Error>)
    ensures TableText(q, table).Failure? ==> r == Failure(ArgumentNull("value"))
    ensures TableText(q, table).Success? ==> r == Success(UpdateSql(q, TableText(q, table).value, Keys(data), Keys(conditions)))
  {
    var tableText := TableText(q, table);
    if tableText.Failure? {
      return Failure(tableText.error);
    }
    var sb := AppendClause("update " + tableText.value + " set ", q, "@v", ",", data);
    sb := AppendClause(sb + " where ", q, "@c", " and ", conditions);
    r := Success(sb + ";");
  }

  // ---------------------------------------------------------------- CREATE TABLE

  /** The keyword each column type is declared with. */
  function TypeKeyword(t: ColumnType): string {
    match t
    case Text => "text"
    case Integer => "integer"
    case Decimal => "decimal"
    case DateTime => "datetime"
    case Blob => "blob"
  }

  /** A default value is written between single quotes, unescaped, when it holds a space or the column is text or a date. */
  function DefaultText(t: ColumnType, value: string): string {
    if ' ' in value || t == Text || t == DateTime then "'" + value + "'" else value
  }

  /** At most one qualifier after the type keyword: primary key, else not null, else a non-empty default. */
  function Qualifier(c: Column): string {
    if c.primaryKey then " primary key"
    else if c.notNull then " not null"
    else if IsNullOrEmpty(c.defaultValue) then ""
    else " default " + DefaultText(c.columnType, c.defaultValue.value)
  }

  /** What follows the column name: an auto-increment column ignores its type and every other flag. */
  function ColumnClause(c: Column): string {
    if c.autoIncrement then "integer primary key autoincrement" else TypeKeyword(c.columnType) + Qualifier(c)
  }

  function Definition(c: Column): string {
    OrEmpty(c.name) + " " + ColumnClause(c)
  }

  function Definitions(columns: seq<Column>): seq<string> {
    seq(|columns|, i requires 0 <= i < |columns| => Definition(columns[i]))
  }

  /** The definition for column `i`, as the loop writes it. */
  lemma DefinitionAt(columns: seq<Column>, i: nat)
    requires i < |columns|
    ensures Definitions(columns)[i] == Definition(columns[i])
  {
  }

  predicate BlankName(c: Column) {
    IsNullOrWhiteSpace(c.name)
  }

  predicate AnyBlankName(columns: seq<Column>) {
    exists i :: 0 <= i < |columns| && BlankName(columns[i])
  }

  /** The first `n` columns have passed the blank-name check. */
  predicate NamesCheckedUpTo(columns: seq<Column>, n: nat)
    requires n <= |columns|
  {
    n == 0 || (NamesCheckedUpTo(columns, n - 1) && !BlankName(columns[n - 1]))
  }

  lemma {:induction false} NamesCheckedUpToNoBlank(columns: seq<Column>, n: nat)
    requires n <= |columns|
    ensures NamesCheckedUpTo(columns, n) <==> forall j :: 0 <= j < n ==> !BlankName(columns[j])
  {
    if n > 0 {
      NamesCheckedUpToNoBlank(columns, n - 1);
    }
  }

  /** A column that passes the check extends the checked prefix by one. */
  lemma NamesCheckedStep(columns: seq<Column>, i: nat)
    requires i < |columns| && NamesCheckedUpTo(columns, i) && !IsNullOrWhiteSpace(columns[i].name)
    ensures NamesCheckedUpTo(columns, i + 1)
  {
  }

  /** `AppendLine(",")` between two column definitions. */
  const ColumnSeparator: string := "," + NL

  function CreateTableHead(name: Option<string>): string {
    "create table if not exists `" + OrEmpty(name) + "`(" + NL
  }

  /** The create-table text, or the error a blank column name raises. */
  function CreateTableSql(name: Option<string>, columns: seq<Column>): Result<string, Error> {
    if AnyBlankName(columns) then Failure(General("Column name cannot be blank."))
    else Success(CreateTableHead(name) + Join(Definitions(columns), ColumnSeparator) + ");" + NL)
  }

  /** The body of the column loop: name, a space, then the clause, with the source's early `continue` for auto-increment. */
  method AppendDefinition(sb: string, c: Column) returns (r: string)
    requires c.name.Some?
    ensures r == sb + Definition(c)
  {
    if c.autoIncrement {
      return sb + (c.name.value + " " + "integer primary key autoincrement");
    }
    var keyword;
    match c.columnType {
      case Text => keyword := "text";
      case Integer => keyword := "integer";
      case Decimal => keyword := "decimal";
      case DateTime => keyword := "datetime";
      case Blob => keyword := "blob";
    }
    var qualifier := "";
    if c.primaryKey {
      qualifier := " primary key";
    } else if c.notNull {
      qualifier := " not null";
    } else if !IsNullOrEmpty(c.defaultValue) {
      var v := c.defaultValue.value;
      if ' ' in v || c.columnType == Text || c.columnType == DateTime {
        qualifier := " default " + ("'" + v + "'");
      } else {
        qualifier := " default " + v;
      }
    }
    r := sb + (c.name.value + " " + (keyword + qualifier));
  }

  /** One pass of the column loop: the separator unless this is the first column, then the definition. */
  method AppendColumn(sb: string, firstRecord: bool, c: Column) returns (next: string)
    requires c.name.Some?
    ensures next == (if firstRecord then sb else sb + ColumnSeparator) + Definition(c)
  {
    next := sb;
    if !firstRecord {
      next := next + ColumnSeparator;
    }
    next := AppendDefinition(next, c);
  }

  /** The `CreateTable` loop: a blank name stops the statement; columns are separated by a comma and a newline. */
  method BuildCreateTable(name: Option<string>, columns: seq<Column>) returns (r: Result<string, Error>)
    ensures r == CreateTableSql(name, columns)
  {
    var head := CreateTableHead(name);
    var sb := head;
    ghost var defs := Definitions(columns);
    var firstRecord := true;
    var i := 0;
    while i < |columns|
      invariant i <= |columns|
      invariant NamesCheckedUpTo(columns, i)
      invariant sb == head + Join(defs[..i], ColumnSeparator)
      invariant firstRecord <==> i == 0
    {
      var c := columns[i];
      if IsNullOrWhiteSpace(c.name) {
        assert BlankName(columns[i]);
        return Failure(General("Column name cannot be blank."));
      }
      var next := AppendColumn(sb, firstRecord, c);
      firstRecord := false;
      DefinitionAt(columns, i);
      AppendJoined(head, defs, i, ColumnSeparator);
      sb := next;
      NamesCheckedStep(columns, i);
      i := i + 1;
    }
    NamesCheckedUpToNoBlank(columns, |columns|);
    assert !AnyBlankName(columns);
    assert defs[..|columns|] == defs;
    r := Success(sb + ");" + NL);
  }

  /** An integer primary key renders as an auto-increment key. */
  lemma IntegerPrimaryKeyClause(name: Option<string>)
    ensures ColumnClause(CreateIntegerPrimaryKey(name)) == "integer primary key autoincrement"
  {
  }

  /** A primary key of any other type renders as its type keyword and `primary key`. */
  lemma PrimaryKeyClause(name: Option<string>, t: ColumnType)
    requires t != Integer
    ensures ColumnClause(CreatePrimaryKey(name, t)) == TypeKeyword(t) + " primary key"
  {
  }

  /** A required column renders as its type keyword and `not null`. */
  lemma RequiredClause(name: Option<string>, t: ColumnType)
    ensures ColumnClause(CreateRequired(name, t)) == TypeKeyword(t) + " not null"
  {
  }

  /** An optional column renders its non-empty default, and nothing after the type keyword without one. */
  lemma OptionalClause(name: Option<string>, t: ColumnType, defaultValue: Option<string>)
    ensures IsNullOrEmpty(defaultValue) ==> ColumnClause(Create(name, t, false, defaultValue)) == TypeKeyword(t)
    ensures !IsNullOrEmpty(defaultValue) ==>
      ColumnClause(Create(name, t, false, defaultValue)) == TypeKeyword(t) + " default " + DefaultText(t, defaultValue.value)
  {
  }

  /** The auto-increment flag overrides the declared type and every other flag. */
  lemma AutoIncrementOverrides(c: Column, t: ColumnType, primaryKey: bool, notNull: bool, defaultValue: Option<string>)
    requires c.autoIncrement
    ensures ColumnClause(c.(columnType := t, primaryKey := primaryKey, notNull := notNull, defaultValue := defaultValue))
      == "integer primary key autoincrement"
  {
  }

  // ---------------------------------------------------------------- TABLE MAINTENANCE

  /** `DropTable` of the connection extensions: the name is quoted first, the statement ends with a semicolon. */
  function DropTableSql(quotedName: string): string {
    "drop table if exists " + quotedName + ";"
  }

  /** `DropTable` of the helper class: the raw name between backticks and no semicolon. */
  function HelperDropTableSql(table: Option<string>): string {
    "drop table if exists " + Backticked(OrEmpty(table))
  }

  function RenameTableSql(quotedFrom: string, quotedTo: string): string {
    "alter table " + quotedFrom + " rename to " + quotedTo + ";"
  }

  /** The name `UpdateTableStructure` gives the new structure: `targetTable + "_temp"`, a null target adding nothing. */
  function TempTableName(target: Option<string>): string {
    OrEmpty(target) + "_temp"
  }
}
