/** `CopyAllData`: the columns two tables share and the `insert ... select` that copies them. */
module CopyData {
  import opened Strings
  import opened Statements
  import opened Parameters

  /**
   * The shared columns after the source columns `from` have been scanned: each source column
   * the destination also has, in source order, unless it was already recorded.
   */
  function SharedColumns(from: seq<string>, to: seq<string>): seq<string> {
    if from == [] then []
    else
      var shared := SharedColumns(from[..|from| - 1], to);
      var name := from[|from| - 1];
      if name in to && name !in shared then shared + [name] else shared
  }

  /** A column is copied exactly when both tables have it. */
  lemma {:induction false} SharedColumnsMembership(from: seq<string>, to: seq<string>, name: string)
    ensures name in SharedColumns(from, to) <==> name in from && name in to
  {
    if from != [] {
      var prefix := from[..|from| - 1];
      SharedColumnsMembership(prefix, to, name);
      assert from == prefix + [from[|from| - 1]];
    }
  }

  predicate Distinct(names: seq<string>) {
    forall i, j :: 0 <= i < j < |names| ==> names[i] != names[j]
  }

  /** No column is copied twice. */
  lemma {:induction false} SharedColumnsDistinct(from: seq<string>, to: seq<string>)
    ensures Distinct(SharedColumns(from, to))
  {
    if from != [] {
      SharedColumnsDistinct(from[..|from| - 1], to);
    }
  }

  /** The source columns the destination also has, in source order, duplicates kept. */
  function Filter(from: seq<string>, to: seq<string>): seq<string> {
    if from == [] then []
    else Filter(from[..|from| - 1], to) + (if from[|from| - 1] in to then [from[|from| - 1]] else [])
  }

  lemma {:induction false} FilterMembership(from: seq<string>, to: seq<string>, name: string)
    ensures name in Filter(from, to) <==> name in from && name in to
  {
    if from != [] {
      var prefix := from[..|from| - 1];
      FilterMembership(prefix, to, name);
      assert from == prefix + [from[|from| - 1]];
    }
  }

  /** For a source whose column names are distinct, the copied columns are the source columns the destination has, in source order. */
  lemma {:induction false} SharedColumnsOfDistinctSource(from: seq<string>, to: seq<string>)
    requires Distinct(from)
    ensures SharedColumns(from, to) == Filter(from, to)
  {
    if from != [] {
      var prefix := from[..|from| - 1];
      var name := from[|from| - 1];
      assert Distinct(prefix);
      SharedColumnsOfDistinctSource(prefix, to);
      assert name !in prefix;
      SharedColumnsMembership(prefix, to, name);
    }
  }

  /**
   * The two loops of `CopyAllData` filling its dictionary: source columns the destination has,
   * then destination columns the source has, each added when not yet present.
   */
  method BuildSharedColumns(from: seq<string>, to: seq<string>) returns (dic: seq<string>)
    ensures dic == SharedColumns(from, to)
  {
    dic := [];
    var i := 0;
    while i < |from|
      invariant i <= |from|
      invariant dic == SharedColumns(from[..i], to)
    {
      var name := from[i];
      if name in to {
        if name !in dic {
          dic := dic + [name];
        }
      }
      assert from[..i + 1][..i] == from[..i];
      i := i + 1;
    }
    assert from[..|from|] == from;
    var j := 0;
    while j < |to|
      invariant j <= |to|
      invariant dic == SharedColumns(from, to)
    {
      var name := to[j];
      SharedColumnsMembership(from, to, name);
      if name in from {
        if name !in dic {
          dic := dic + [name];
        }
      }
      j := j + 1;
    }
  }

  /** The column list written on both sides of the copy: each name between backticks, separated by commas. */
  function ColumnListText(names: seq<string>): string {
    Join(BacktickedAll(names), ",")
  }

  /** The column-list loop, which puts a comma before a name whenever the builder is not empty. */
  method BuildColumnList(names: seq<string>) returns (sb: string)
    ensures sb == ColumnListText(names)
  {
    sb := "";
    ghost var items := BacktickedAll(names);
    var i := 0;
    while i < |names|
      invariant i <= |names|
      invariant sb == "" + Join(items[..i], ",")
      invariant |sb| == 0 <==> i == 0
    {
      if |sb| > 0 {
        sb := sb + ",";
      }
      sb := sb + ("`" + names[i] + "`");
      AppendJoined("", items, i, ",");
      i := i + 1;
    }
    assert items[..|names|] == items;
  }

  /** The probe that reads a table's columns: the helper class wraps the already quoted name in backticks once more. */
  function ProbeSql(q: Quoting, quotedName: string): string {
    "select * from " + (if q.Standard? then quotedName else Backticked(quotedName)) + " where 1 = 2;"
  }

  /** The copy statement, the already quoted table names wrapped in backticks once more. */
  function CopyAllDataSql(quotedFrom: string, quotedTo: string, columnList: string): string {
    "insert into " + Backticked(quotedTo) + "(" + columnList + ") select " + columnList + " from " + Backticked(quotedFrom) + ";"
  }

  /** The copy text for the columns the engine reported for both tables. */
  method BuildCopyAllData(quotedFrom: string, quotedTo: string, fromColumns: seq<string>, toColumns: seq<string>) returns (sql: string)
    ensures sql == CopyAllDataSql(quotedFrom, quotedTo, ColumnListText(SharedColumns(fromColumns, toColumns)))
  {
    var dic := BuildSharedColumns(fromColumns, toColumns);
    var list := BuildColumnList(dic);
    sql := "insert into `" + quotedTo + "`(" + list + ") select " + list + " from `" + quotedFrom + "`;";
  }

  /**
   * What a copy sends: the probe of the source, the probe of the destination (whose answers are
   * the column names), then the copy, each carrying the parameters bound at the time.
   */
  function CopyAllDataStatements(q: Quoting, quotedFrom: string, quotedTo: string,
                                 fromColumns: seq<string>, toColumns: seq<string>, params: seq<Param>): seq<Statement> {
    [Statement(Query, ProbeSql(q, quotedFrom), params),
     Statement(Query, ProbeSql(q, quotedTo), params),
     Statement(NonQuery, CopyAllDataSql(quotedFrom, quotedTo, ColumnListText(SharedColumns(fromColumns, toColumns))), params)]
  }
}
