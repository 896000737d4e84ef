/** The row projector: turns one engine result row into the row written back
    as JSON (`castField` and the projection loop of `queryHandler`). */
module Rows {
  import opened Wrappers
  import opened Values

  /** One column of the result schema the engine reports. */
  datatype FieldSchema = FieldSchema(name: string, fieldType: FieldType)

  type Schema = seq<FieldSchema>

  /** A row as the engine's iterator fills it: column name to value. */
  type RawRow = map<string, Value>

  /** A row as the handler collects it for JSON encoding. */
  type Row = map<string, Value>

  /** The failed Go type assertion `v.(T)` that makes castField panic. */
  datatype CastError = TypeAssertion(want: FieldType, got: Value)

  /** `castField(t, v)`: nil stays nil; for the four asserted types the value
      must already have the matching Go type (otherwise the assertion panics);
      any other type lets the value through. A successful cast never changes the value. */
  function CastField(t: FieldType, v: Value): (r: Result<Value, CastError>)
    ensures r.Success? ==> r.value == v
    ensures r.Failure? <==> v != VNull && IsAsserted(t) && !HasKind(v, t)
    ensures r.Failure? ==> r.error == TypeAssertion(t, v)
  {
    if v == VNull then Success(VNull)
    else
      match t
      case IntegerField => if v.VInt? then Success(v) else Failure(TypeAssertion(t, v))
      case StringField => if v.VStr? then Success(v) else Failure(TypeAssertion(t, v))
      case BooleanField => if v.VBool? then Success(v) else Failure(TypeAssertion(t, v))
      case FloatField => if v.VFloat? then Success(v) else Failure(TypeAssertion(t, v))
      case OtherField(_) => Success(v)
  }

  /** `rawRow[name]`: a column the row does not hold reads as nil. */
  function Column(raw: RawRow, name: string): Value
  {
    if name in raw then raw[name] else VNull
  }

  /** The names the schema declares. */
  function Names(schema: Schema): set<string>
  {
    set i | 0 <= i < |schema| :: schema[i].name
  }

  /** Casting field `i` of the schema against the raw row. */
  function CastAt(schema: Schema, raw: RawRow, i: nat): Result<Value, CastError>
    requires i < |schema|
  {
    CastField(schema[i].fieldType, Column(raw, schema[i].name))
  }

  /** The projection loop: for each schema field in order, store the cast
      column under the field name; the first failing cast panics. */
  function ProjectRow(schema: Schema, raw: RawRow): (r: Result<Row, CastError>)
    ensures r.Success? <==> forall i :: 0 <= i < |schema| ==> CastAt(schema, raw, i).Success?
    ensures r.Success? ==> r.value.Keys == Names(schema)
    ensures r.Success? ==> forall i :: 0 <= i < |schema| ==> r.value[schema[i].name] == Column(raw, schema[i].name)
    ensures r.Failure? ==> exists i :: 0 <= i < |schema| && FirstCastFailure(schema, raw, i, r.error)
    decreases |schema|
  {
    if |schema| == 0 then Success(map[])
    else
      var n := |schema| - 1;
      var init := schema[..n];
      assert forall i :: 0 <= i < n ==> CastAt(init, raw, i) == CastAt(schema, raw, i);
      match ProjectRow(init, raw)
      case Failure(e) =>
        ghost var i :| 0 <= i < n && FirstCastFailure(init, raw, i, e);
        assert FirstCastFailure(schema, raw, i, e);
        Failure(e)
      case Success(row) =>
        match CastAt(schema, raw, n)
        case Failure(e) =>
          assert FirstCastFailure(schema, raw, n, e);
          Failure(e)
        case Success(v) =>
          assert Names(schema) == Names(init) + {schema[n].name};
          Success(row[schema[n].name := v])
  }

  /** Field `i` is the first whose cast fails, and it fails with `e`. */
  predicate FirstCastFailure(schema: Schema, raw: RawRow, i: nat, e: CastError)
    requires i < |schema|
  {
    && CastAt(schema, raw, i) == Failure(e)
    && forall j :: 0 <= j < i ==> CastAt(schema, raw, j).Success?
  }

  /** Row `i` is the first whose projection fails, and it fails with `e`. */
  predicate FirstRowFailure(schema: Schema, raws: seq<RawRow>, i: nat, e: CastError)
    requires i < |raws|
  {
    && ProjectRow(schema, raws[i]) == Failure(e)
    && forall j :: 0 <= j < i ==> ProjectRow(schema, raws[j]).Success?
  }

  /** The first failure among the rows after a successful first row is the first failure of all rows. */
  lemma FirstRowFailureShift(schema: Schema, raws: seq<RawRow>, i: nat, e: CastError)
    requires 0 < |raws| && i < |raws| - 1
    requires ProjectRow(schema, raws[0]).Success?
    requires FirstRowFailure(schema, raws[1..], i, e)
    ensures FirstRowFailure(schema, raws, i + 1, e)
  {
    var tail := raws[1..];
    assert forall j :: 0 < j < |raws| ==> raws[j] == tail[j - 1];
  }

  /** The result-row loop: every row is projected in turn; the first row that panics ends the handler. */
  function ProjectRows(schema: Schema, raws: seq<RawRow>): (r: Result<seq<Row>, CastError>)
    ensures r.Success? <==> forall i :: 0 <= i < |raws| ==> ProjectRow(schema, raws[i]).Success?
    ensures r.Success? ==> |r.value| == |raws|
    ensures r.Success? ==> forall i :: 0 <= i < |raws| ==> r.value[i] == ProjectRow(schema, raws[i]).value
    ensures r.Failure? ==> exists i :: 0 <= i < |raws| && FirstRowFailure(schema, raws, i, r.error)
    decreases |raws|
  {
    if |raws| == 0 then Success([])
    else
      match ProjectRow(schema, raws[0])
      case Failure(e) =>
        assert FirstRowFailure(schema, raws, 0, e);
        Failure(e)
      case Success(row) =>
        match ProjectRows(schema, raws[1..])
        case Failure(e) =>
          ghost var i :| 0 <= i < |raws[1..]| && FirstRowFailure(schema, raws[1..], i, e);
          FirstRowFailureShift(schema, raws, i, e);
          Failure(e)
        case Success(rest) => Success([row] + rest)
  }

  /** Nil never fails a cast and stays nil, whatever the field type. */
  lemma CastNull(t: FieldType)
    ensures CastField(t, VNull) == Success(VNull)
  {
  }

  /** A value of the matching Go type survives the cast unchanged, and any value
      survives a type the service does not assert. */
  lemma CastMatchingKind(t: FieldType, v: Value)
    requires HasKind(v, t) || !IsAsserted(t)
    ensures CastField(t, v) == Success(v)
  {
  }

  /** On success the projected row is the raw row cut down to the schema's
      names, with every absent or nil column present as nil. */
  lemma ProjectionIsRestriction(schema: Schema, raw: RawRow)
    ensures var r := ProjectRow(schema, raw);
      r.Success? ==> r.value == map n | n in Names(schema) :: Column(raw, n)
  {
    var r := ProjectRow(schema, raw);
    if r.Success? {
      var m := map n | n in Names(schema) :: Column(raw, n);
      forall n | n in Names(schema) ensures r.value[n] == m[n] {
        var i :| 0 <= i < |schema| && schema[i].name == n;
      }
    }
  }

  /** A column missing from the raw row, or nil in it, projects to nil for
      every field type and can never be the one that fails. */
  lemma MissingColumnsAreNull(schema: Schema, raw: RawRow, i: nat)
    requires i < |schema|
    requires schema[i].name !in raw || raw[schema[i].name] == VNull
    ensures CastAt(schema, raw, i) == Success(VNull)
    ensures var r := ProjectRow(schema, raw);
      r.Success? ==> schema[i].name in r.value && r.value[schema[i].name] == VNull
  {
  }

  /** The row {"id": 2, "name": null} under schema [id INTEGER, name STRING],
      and a schema column the row lacks altogether. */
  lemma ProjectionScenario()
    ensures ProjectRow([FieldSchema("id", IntegerField), FieldSchema("name", StringField)],
                       map["id" := VInt(2), "name" := VNull])
         == Success(map["id" := VInt(2), "name" := VNull])
    ensures ProjectRow([FieldSchema("id", IntegerField), FieldSchema("name", StringField)],
                       map["id" := VInt(2)])
         == Success(map["id" := VInt(2), "name" := VNull])
    ensures ProjectRow([FieldSchema("id", IntegerField)], map["id" := VStr("2")])
         == Failure(TypeAssertion(IntegerField, VStr("2")))
  {
    var schema := [FieldSchema("id", IntegerField), FieldSchema("name", StringField)];
    var full := map["id" := VInt(2), "name" := VNull];
    var partial := map["id" := VInt(2)];
    var expected := map["id" := VInt(2), "name" := VNull];
    assert Names(schema) == {"id", "name"} by {
      assert schema[0].name == "id" && schema[1].name == "name";
    }
    var r1 := ProjectRow(schema, full);
    assert r1.Success? by {
      assert CastAt(schema, full, 0).Success? && CastAt(schema, full, 1).Success?;
    }
    assert r1.value == expected by {
      assert r1.value[schema[0].name] == VInt(2);
      assert r1.value[schema[1].name] == VNull;
    }
    var r2 := ProjectRow(schema, partial);
    assert r2.Success? by {
      assert CastAt(schema, partial, 0).Success? && CastAt(schema, partial, 1).Success?;
    }
    assert r2.value == expected by {
      assert r2.value[schema[0].name] == VInt(2);
      assert r2.value[schema[1].name] == VNull;
    }
    var bad := [FieldSchema("id", IntegerField)];
    var r3 := ProjectRow(bad, map["id" := VStr("2")]);
    assert CastAt(bad, map["id" := VStr("2")], 0).Failure?;
  }

  /** A query with no result rows answers with the empty list. */
  lemma NoRows(schema: Schema)
    ensures ProjectRows(schema, []) == Success([])
  {
  }
}
