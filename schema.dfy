/** Table descriptors: columns built by named presets, a name-keyed ordered column list, and the table. */
module Schema {
  import opened Wrappers

  /** `ColumnType`: the five declared column types. */
  datatype ColumnType = Text | Integer | Decimal | DateTime | Blob

  /** `SQLiteColumn`: a record of settable properties; a null name or default value is `None`. */
  datatype Column = Column(
    name: Option<string>,
    columnType: ColumnType,
    primaryKey: bool,
    autoIncrement: bool,
    notNull: bool,
    defaultValue: Option<string>)

  /** The rule the presets keep: only an integer primary key is auto-incremented. */
  predicate AutoIncrementWellFormed(c: Column) {
    c.autoIncrement ==> c.columnType == Integer && c.primaryKey
  }

  /** `CreatePrimaryKey`: a required primary key, auto-incremented exactly when its type is `Integer`. */
  function CreatePrimaryKey(name: Option<string>, t: ColumnType): (c: Column)
    ensures c.name == name && c.columnType == t && c.defaultValue.None?
    ensures c.primaryKey && c.notNull
    ensures c.autoIncrement <==> t == Integer
    ensures AutoIncrementWellFormed(c)
  {
    Column(name, t, true, t == Integer, true, None)
  }

  /** `CreateIntegerPrimaryKey`: the integer case of `CreatePrimaryKey`, hence always auto-incremented. */
  function CreateIntegerPrimaryKey(name: Option<string>): (c: Column)
    ensures c == CreatePrimaryKey(name, Integer)
    ensures c.autoIncrement && c.primaryKey && c.notNull && c.columnType == Integer
  {
    CreatePrimaryKey(name, Integer)
  }

  /** `Create`: a plain column; never a key, never auto-incremented; `notNull` and the default kept as given. */
  function Create(name: Option<string>, t: ColumnType, notNull: bool, defaultValue: Option<string>): (c: Column)
    ensures c.name == name && c.columnType == t
    ensures !c.primaryKey && !c.autoIncrement
    ensures c.notNull == notNull && c.defaultValue == defaultValue
    ensures AutoIncrementWellFormed(c)
  {
    Column(name, t, false, false, notNull, defaultValue)
  }

  /** `CreateRequired`: a required plain column with no default. */
  function CreateRequired(name: Option<string>, t: ColumnType): (c: Column)
    ensures c.name == name && c.columnType == t
    ensures c.notNull && !c.primaryKey && !c.autoIncrement && c.defaultValue.None?
    ensures c == Create(name, t, true, None)
  {
    Column(name, t, false, false, true, None)
  }

  /** The properties are settable, so the preset rule can be broken after construction. */
  lemma SettersCanBreakAutoIncrementRule()
    ensures AutoIncrementWellFormed(CreateRequired(Some("Age"), Text))
    ensures !AutoIncrementWellFormed(CreateRequired(Some("Age"), Text).(autoIncrement := true))
  {
  }

  /** No two columns share a (non-null) key. A null name is no key, and a keyed collection admits any number of them. */
  ghost predicate KeysDistinct(items: seq<Column>) {
    forall i, j :: 0 <= i < j < |items| && items[i].name.Some? ==> items[i].name != items[j].name
  }

  /** The position of the column whose key is `key`, searched from the front. */
  function IndexOfKey(items: seq<Column>, key: string): (r: Option<nat>)
    ensures r.None? <==> forall i :: 0 <= i < |items| ==> items[i].name != Some(key)
    ensures r.Some? ==> r.value < |items| && items[r.value].name == Some(key)
  {
    if items == [] then None
    else if items[0].name == Some(key) then Some(0)
    else
      match IndexOfKey(items[1..], key)
      case None => None
      case Some(k) => Some(k + 1)
  }

  /** `SQLiteColumnList`: a keyed collection whose key for each column is its `Name`, iterated in insertion order. */
  class ColumnList {
    var items: seq<Column>

    ghost predicate Valid()
      reads this
    {
      KeysDistinct(items)
    }

    constructor ()
      ensures Valid() && items == []
    {
      items := [];
    }

    /** `Contains(key)`: some column has this name. */
    predicate Contains(key: string)
      reads this
    {
      exists i :: 0 <= i < |items| && items[i].name == Some(key)
    }

    /** `Add`: a column whose name is already a key is rejected and the list is left as it was; otherwise the
        column goes to the end. */
    method Add(c: Column) returns (outcome: Outcome<Error>)
      requires Valid()
      modifies this
      ensures Valid()
      ensures c.name.Some? && old(Contains(c.name.value)) ==>
        outcome == Fail(DuplicateKey(c.name.value)) && items == old(items)
      ensures !(c.name.Some? && old(Contains(c.name.value))) ==>
        outcome == Pass && items == old(items) + [c]
    {
      if c.name.Some? && Contains(c.name.value) {
        return Fail(DuplicateKey(c.name.value));
      }
      items := items + [c];
      return Pass;
    }

    /** The indexer `this[key]`: the unique column with that name; a null key or an absent one raises. */
    function Get(key: Option<string>): (r: Result<Column, Error>)
      reads this
      requires Valid()
      ensures key.None? ==> r == Failure(ArgumentNull("key"))
      ensures key.Some? ==> (r.Success? <==> Contains(key.value))
      ensures key.Some? && r.Failure? ==> r == Failure(KeyNotFound(key.value))
      ensures r.Success? ==> r.value in items && r.value.name == key
      ensures r.Success? ==> forall i :: 0 <= i < |items| && items[i].name == key ==> items[i] == r.value
    {
      if key.None? then Failure(ArgumentNull("key"))
      else
        match IndexOfKey(items, key.value)
        case None => Failure(KeyNotFound(key.value))
        case Some(k) => Success(items[k])
    }
  }

  /** `SQLiteTable`: a mutable name and a column list whose reference never changes (only its contents do). */
  class Table {
    var name: Option<string>
    const columns: ColumnList

    /** `SQLiteTable(name)`: the given name and an empty column list. */
    constructor (name: Option<string>)
      ensures this.name == name
      ensures fresh(columns) && columns.Valid() && columns.items == []
    {
      this.name := name;
      columns := new ColumnList();
    }

    /** `SQLiteTable()`: a null name and an empty column list. */
    constructor Unnamed()
      ensures name.None?
      ensures fresh(columns) && columns.Valid() && columns.items == []
    {
      name := None;
      columns := new ColumnList();
    }
  }

  /** The four-column "Person" descriptor of the tests: every `Add` succeeds and the columns keep their order. */
  method PeopleTableSpec() returns (table: Table)
    ensures fresh(table) && fresh(table.columns) && table.columns.Valid()
    ensures table.name == Some("Person")
    ensures table.columns.items == [
      CreateIntegerPrimaryKey(Some("Id")),
      CreateRequired(Some("FirstName"), Text),
      CreateRequired(Some("LastName"), Text),
      CreateRequired(Some("Age"), Integer)]
  {
    table := new Table(Some("Person"));
    var o1 := table.columns.Add(CreateIntegerPrimaryKey(Some("Id")));
    var o2 := table.columns.Add(CreateRequired(Some("FirstName"), Text));
    var o3 := table.columns.Add(CreateRequired(Some("LastName"), Text));
    var o4 := table.columns.Add(CreateRequired(Some("Age"), Integer));
  }
}
