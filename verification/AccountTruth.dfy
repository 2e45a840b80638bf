/** Reading venue evidence without inventing values: what cannot be read becomes absent and
    is entered in a shared list of missing fields. */
module AccountTruth {
  import opened Text
  import opened Wrappers

  /** A value of a signed snapshot. */
  datatype Value =
    | Null
    | Flag(b: bool)
    | Float(zero: bool)
    | Whole(n: int)
    | Words(s: string)
    | Items(items: seq<Value>)
    | Object(fields: Row)

  type Row = map<string, Value>

  /** Python's own conversions: a value as text, text as a decimal (`None` when it is not
      one, or not finite), and text as an integer. */
  datatype Python = Python(textOf: Value -> string, decimalOf: string -> Option<real>, integerOf: string -> Option<int>)

  /** What is read: decimals are exact numbers, and a field that cannot be read is absent. */
  datatype Out =
    | Absent
    | Decimal(x: real)
    | Integer(n: int)
    | Label(s: string)
    | Truth(b: bool)

  datatype Kind = AsDecimal | AsText | AsInteger | AsFlag

  function ReadDecimal(py: Python, v: Value): Out {
    if v.Null? || v == Words("") || v.Flag? || v.Float? then Absent
    else var d := py.decimalOf(py.textOf(v)); if d.Some? then Decimal(d.value) else Absent
  }

  function ReadText(py: Python, v: Value): Out {
    if v.Null? || Strip(py.textOf(v)) == "" then Absent else Label(Strip(py.textOf(v)))
  }

  function ReadInteger(py: Python, v: Value): Out {
    if v.Null? || v.Flag? then Absent
    else var n := py.integerOf(py.textOf(v)); if n.Some? then Integer(n.value) else Absent
  }

  function Read(py: Python, kind: Kind, v: Value): Out {
    match kind
    case AsDecimal => ReadDecimal(py, v)
    case AsText => ReadText(py, v)
    case AsInteger => ReadInteger(py, v)
    case AsFlag => if v.Flag? then Truth(v.b) else Absent
  }

  // ---------------------------------------------------------------- fields of rows

  /** Where a field comes from: a key of the row, a key with a default, the first of two
      keys with something in it, a key of the row with another row to fall back on, or a
      key of that other row. */
  datatype Source = Get(key: string) | GetOr(key: string, default: Value) | FirstOf(key: string, other: string)
                  | Fallback(key: string, other: string) | Other(key: string)

  datatype Spec = Spec(name: string, source: Source, kind: Kind)

  function Lookup(row: Row, key: string): Value { if key in row then row[key] else Null }

  predicate Truthy(v: Value) {
    match v
    case Null => false
    case Flag(b) => b
    case Float(zero) => !zero
    case Whole(n) => n != 0
    case Words(s) => s != ""
    case Items(items) => items != []
    case Object(fields) => fields != map[]
  }

  function Fetch(source: Source, row: Row, other: Row): Value {
    match source
    case Get(key) => Lookup(row, key)
    case GetOr(key, default) => if key in row then row[key] else default
    case FirstOf(key, second) => if Truthy(Lookup(row, key)) then Lookup(row, key) else Lookup(row, second)
    case Fallback(key, second) => if key in row then row[key] else Lookup(other, second)
    case Other(key) => Lookup(other, key)
  }

  function FieldOf(py: Python, spec: Spec, row: Row, other: Row): Out {
    Read(py, spec.kind, Fetch(spec.source, row, other))
  }

  predicate Complete(py: Python, specs: seq<Spec>, row: Row, other: Row) {
    forall i :: 0 <= i < |specs| ==> !FieldOf(py, specs[i], row, other).Absent?
  }

  /** The normalised row: one reading per field of the table. */
  function Normal(py: Python, specs: seq<Spec>, row: Row, other: Row): seq<Out> {
    seq(|specs|, i requires 0 <= i < |specs| => FieldOf(py, specs[i], row, other))
  }

  predicate Gapless(outs: seq<Out>) { forall i :: 0 <= i < |outs| ==> !outs[i].Absent? }

  // ---------------------------------------------------------------- the shared list

  datatype Path = Root(name: string) | Field(parent: Path, name: string) | At(parent: Path, index: nat)

  class Missing {
    var paths: seq<Path>

    constructor ()
      ensures paths == []
    {
      paths := [];
    }

    method Enter(path: Path)
      modifies this
      ensures paths == old(paths) + [path]
    {
      paths := paths + [path];
    }

    /** Nothing was entered since the list was `before`. */
    predicate Clean(before: seq<Path>)
      reads this
    {
      paths == before
    }
  }

  method ReadField(py: Python, kind: Kind, v: Value, path: Path, missing: Missing) returns (out: Out)
    modifies missing
    ensures out == Read(py, kind, v)
    ensures missing.paths == old(missing.paths) + (if out.Absent? then [path] else [])
  {
    out := Read(py, kind, v);
    if out.Absent? { missing.Enter(path); }
  }

  /** Reads every field of a row; the list grows exactly when one is absent. */
  method ReadRow(py: Python, specs: seq<Spec>, row: Row, other: Row, path: Path, missing: Missing)
      returns (outs: seq<Out>)
    modifies missing
    ensures outs == Normal(py, specs, row, other)
    ensures old(missing.paths) <= missing.paths
    ensures missing.Clean(old(missing.paths)) <==> Complete(py, specs, row, other)
  {
    outs := [];
    for i := 0 to |specs|
      invariant |outs| == i && forall j :: 0 <= j < i ==> outs[j] == FieldOf(py, specs[j], row, other)
      invariant old(missing.paths) <= missing.paths
      invariant missing.Clean(old(missing.paths)) <==> forall j :: 0 <= j < i ==>
        !FieldOf(py, specs[j], row, other).Absent?
    {
      var out := ReadField(py, specs[i].kind, Fetch(specs[i].source, row, other), Field(path, specs[i].name), missing);
      outs := outs + [out];
    }
  }

  predicate AllObjects(items: seq<Value>) { forall i :: 0 <= i < |items| ==> items[i].Object? }

  function Objects(items: seq<Value>): seq<Row> {
    if items == [] then []
    else if items[|items| - 1].Object? then Objects(items[..|items| - 1]) + [items[|items| - 1].fields]
    else Objects(items[..|items| - 1])
  }

  function RowsOf(v: Value): seq<Row> { if v.Items? then Objects(v.items) else [] }

  lemma {:induction false} ObjectsKeepAll(items: seq<Value>)
    requires AllObjects(items)
    ensures |Objects(items)| == |items| && forall i :: 0 <= i < |items| ==> Objects(items)[i] == items[i].fields
  {
    if items != [] { ObjectsKeepAll(items[..|items| - 1]); }
  }

  /** The rows of a list; a list that is none, or a member that is no object, is entered. */
  method ReadRows(v: Value, path: Path, missing: Missing) returns (rows: seq<Row>)
    modifies missing
    ensures rows == RowsOf(v)
    ensures old(missing.paths) <= missing.paths
    ensures missing.Clean(old(missing.paths)) <==> v.Items? && AllObjects(v.items)
  {
    rows := [];
    if !v.Items? {
      missing.Enter(path);
      return;
    }
    for i := 0 to |v.items|
      invariant rows == Objects(v.items[..i])
      invariant old(missing.paths) <= missing.paths
      invariant missing.Clean(old(missing.paths)) <==> AllObjects(v.items[..i])
    {
      assert v.items[..i + 1][..i] == v.items[..i];
      if v.items[i].Object? { rows := rows + [v.items[i].fields]; } else { missing.Enter(At(path, i)); }
    }
    assert v.items[..|v.items|] == v.items;
  }

  /** Every row of a list is an object with every field of the table. */
  predicate TableOk(py: Python, specs: seq<Spec>, v: Value) {
    v.Items? && AllObjects(v.items) && forall i :: 0 <= i < |RowsOf(v)| ==> Complete(py, specs, RowsOf(v)[i], map[])
  }

  function Table(py: Python, specs: seq<Spec>, v: Value): seq<seq<Out>> {
    seq(|RowsOf(v)|, i requires 0 <= i < |RowsOf(v)| => Normal(py, specs, RowsOf(v)[i], map[]))
  }

  predicate GaplessTable(rows: seq<seq<Out>>) { forall i :: 0 <= i < |rows| ==> Gapless(rows[i]) }

  lemma TableIsGapless(py: Python, specs: seq<Spec>, v: Value)
    requires TableOk(py, specs, v)
    ensures GaplessTable(Table(py, specs, v)) && |Table(py, specs, v)| == |v.items|
  {
    ObjectsKeepAll(v.items);
    var table := Table(py, specs, v);
    forall i | 0 <= i < |table| ensures Gapless(table[i]) { assert Complete(py, specs, RowsOf(v)[i], map[]); }
  }

  method ReadTable(py: Python, specs: seq<Spec>, v: Value, path: Path, missing: Missing) returns (table: seq<seq<Out>>)
    modifies missing
    ensures table == Table(py, specs, v)
    ensures old(missing.paths) <= missing.paths
    ensures missing.Clean(old(missing.paths)) <==> TableOk(py, specs, v)
  {
    var rows := ReadRows(v, path, missing);
    ghost var listed := v.Items? && AllObjects(v.items);
    table := [];
    for i := 0 to |rows|
      invariant |table| == i && forall j :: 0 <= j < i ==> table[j] == Normal(py, specs, rows[j], map[])
      invariant old(missing.paths) <= missing.paths
      invariant missing.Clean(old(missing.paths)) <==> listed && forall j :: 0 <= j < i ==>
        Complete(py, specs, rows[j], map[])
    {
      var outs := ReadRow(py, specs, rows[i], map[], At(path, i), missing);
      table := table + [outs];
    }
  }
}
