/** Parameter dictionaries, bound parameters and what the engine receives. */
module Parameters {
  import opened Wrappers

  /** A bound parameter value: the variants a parameter dictionary holds. */
  datatype Value = NullValue | LongValue(l: int) | DoubleValue(d: real) | TextValue(s: string) | BlobValue(b: seq<bv8>)

  /** One `KeyValuePair<string, object>` of a dictionary. */
  datatype Entry = Entry(key: string, value: Value)

  predicate DistinctKeys(d: seq<Entry>) {
    forall i, j :: 0 <= i < j < |d| ==> d[i].key != d[j].key
  }

  /** `Dictionary<string, object>`: entries with distinct keys, enumerated in insertion order. */
  type Dictionary = d: seq<Entry> | DistinctKeys(d)

  /** A named parameter as bound to a command (`SQLiteParameter`). */
  datatype Param = Param(name: string, value: Value)

  /** What the engine receives: the kind of execution, the command text and the parameters bound at that moment. */
  datatype Kind = NonQuery | Scalar | Query
  datatype Statement = Statement(kind: Kind, sql: string, params: seq<Param>)

  function Keys(d: seq<Entry>): seq<string> {
    seq(|d|, i requires 0 <= i < |d| => d[i].key)
  }

  /** The parameters `AddWithValue(prefix + key, value)` binds for the entries, in enumeration order. */
  function Bind(prefix: string, d: seq<Entry>): seq<Param> {
    seq(|d|, i requires 0 <= i < |d| => Param(prefix + d[i].key, d[i].value))
  }

  function Names(ps: seq<Param>): seq<string> {
    seq(|ps|, i requires 0 <= i < |ps| => ps[i].name)
  }

  /** The placeholders a statement text names, one per key. */
  function Placeholders(prefix: string, keys: seq<string>): seq<string> {
    seq(|keys|, i requires 0 <= i < |keys| => prefix + keys[i])
  }

  /** Each placeholder named in a text is the name of the parameter bound at the same position. */
  lemma PlaceholdersAreBound(prefix: string, d: seq<Entry>)
    ensures Placeholders(prefix, Keys(d)) == Names(Bind(prefix, d))
  {
  }

  /** Prefixing keeps distinct keys apart. */
  lemma PrefixInjective(prefix: string, a: string, b: string)
    requires prefix + a == prefix + b
    ensures a == b
  {
    assert a == (prefix + a)[|prefix|..];
    assert b == (prefix + b)[|prefix|..];
  }

  /** The parameters bound for a dictionary have pairwise distinct names. */
  lemma BindNamesDistinct(prefix: string, d: Dictionary)
    ensures forall i, j :: 0 <= i < j < |d| ==> Bind(prefix, d)[i].name != Bind(prefix, d)[j].name
  {
    forall i, j | 0 <= i < j < |d|
      ensures Bind(prefix, d)[i].name != Bind(prefix, d)[j].name
    {
      if Bind(prefix, d)[i].name == Bind(prefix, d)[j].name {
        PrefixInjective(prefix, d[i].key, d[j].key);
      }
    }
  }

  /** `@v` and `@c` names never meet: a column in both the data and the conditions gets two placeholders. */
  lemma SetAndWhereNamesDiffer(data: seq<Entry>, conditions: seq<Entry>)
    ensures forall i, j :: 0 <= i < |data| && 0 <= j < |conditions| ==>
      Bind("@v", data)[i].name != Bind("@c", conditions)[j].name
  {
    forall i, j | 0 <= i < |data| && 0 <= j < |conditions|
      ensures Bind("@v", data)[i].name != Bind("@c", conditions)[j].name
    {
      assert Bind("@v", data)[i].name[1] == 'v';
      assert Bind("@c", conditions)[j].name[1] == 'c';
    }
  }

  /** All parameters an update binds have distinct names. */
  lemma UpdateNamesDistinct(data: Dictionary, conditions: Dictionary)
    ensures var ps := Bind("@v", data) + Bind("@c", conditions);
      forall i, j :: 0 <= i < j < |ps| ==> ps[i].name != ps[j].name
  {
    BindNamesDistinct("@v", data);
    BindNamesDistinct("@c", conditions);
    SetAndWhereNamesDiffer(data, conditions);
  }

  /** The parameters bound after the first `n` entries, as the binding loop has them. */
  function BoundUpTo(prefix: string, d: seq<Entry>, n: nat): seq<Param>
    requires n <= |d|
  {
    if n == 0 then [] else BoundUpTo(prefix, d, n - 1) + [Param(prefix + d[n - 1].key, d[n - 1].value)]
  }

  lemma {:induction false} BoundUpToIsBind(prefix: string, d: seq<Entry>, n: nat)
    requires n <= |d|
    ensures BoundUpTo(prefix, d, n) == Bind(prefix, d[..n])
  {
    if n > 0 {
      BoundUpToIsBind(prefix, d, n - 1);
      assert Bind(prefix, d[..n]) == Bind(prefix, d[..n - 1]) + [Param(prefix + d[n - 1].key, d[n - 1].value)];
    }
  }

  /** The `foreach (var kvp in dic) AddWithValue(prefix + kvp.Key, kvp.Value)` loop: one parameter per entry, in order. */
  method BindParameters(prefix: string, d: Dictionary) returns (ps: seq<Param>)
    ensures ps == Bind(prefix, d)
  {
    ps := [];
    var i := 0;
    while i < |d|
      invariant i <= |d|
      invariant ps == BoundUpTo(prefix, d, i)
    {
      ps := ps + [Param(prefix + d[i].key, d[i].value)];
      i := i + 1;
    }
    BoundUpToIsBind(prefix, d, |d|);
    assert d[..|d|] == d;
  }

  /**
   * The parameters a nullable dictionary stands for when it is passed as a whole: none for null
   * or empty, otherwise one per entry, named by the key alone and in enumeration order.
   */
  function EnumerateParameterDictionary(d: Option<Dictionary>): (r: seq<Param>)
    ensures d.None? ==> r == []
    ensures d.Some? ==> |r| == |d.value| && Names(r) == Keys(d.value)
    ensures d.Some? ==> forall i :: 0 <= i < |r| ==> r[i].value == d.value[i].value
  {
    if d.None? || |d.value| == 0 then []
    else
      var r := Bind("", d.value);
      assert forall i :: 0 <= i < |r| ==> r[i].name == "" + d.value[i].key == d.value[i].key;
      r
  }
}
