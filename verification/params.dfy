/** The parameter binder: turns the query string of a request into the typed
    query parameters a configured query declares (`buildQueryParams`). */
module Params {
  import opened Wrappers
  import opened Values
  import Strconv

  /** Go's `url.Values`: every name of the query string with all its values, in order. */
  type UrlValues = map<string, seq<string>>

  /** `strconv.ParseFloat(s, 64)`, which is not part of this model: the
      binder is given it and only propagates its success or failure. */
  type FloatParser = string -> Option<Float64>

  /** One typed parameter handed to the engine. */
  datatype QueryParameter = QueryParameter(name: string, value: Value)

  /** The library function whose `*strconv.NumError` aborted the binding. */
  datatype NumFunc = FnAtoi | FnParseFloat

  /** A `*strconv.NumError`: the function that failed and the text it was given. */
  datatype NumError = NumError(func: NumFunc, num: string)

  /** `values.Get(key)`: the first value given for `key`, or "" when there is none. */
  function Get(values: UrlValues, key: string): string
  {
    if key in values && |values[key]| > 0 then values[key][0] else ""
  }

  /** Converts the raw text of one parameter into the native value its declared type calls for. */
  function Bind(t: FieldType, raw: string, parseFloat: FloatParser): (r: Result<Value, NumError>)
    ensures r.Failure? ==> t in {IntegerField, FloatField} && r.error.num == raw
    ensures t == IntegerField ==>
      && (r.Success? <==> Strconv.IsDecimal(raw) && MinInt64 <= Strconv.DecimalValue(raw) <= MaxInt64)
      && (r.Success? ==> r.value.VInt? && r.value.i == Strconv.DecimalValue(raw))
      && (r.Failure? ==> r.error.func == FnAtoi)
    ensures t == BooleanField ==> r.Success? && r.value.VBool? && (r.value.b <==> raw == "true")
    ensures t == FloatField ==>
      && (r.Success? <==> parseFloat(raw).Some?)
      && (r.Success? ==> r.value == VFloat(parseFloat(raw).value))
      && (r.Failure? ==> r.error.func == FnParseFloat)
    ensures t !in {IntegerField, BooleanField, FloatField} ==> r == Success(VStr(raw))
  {
    match t
    case IntegerField =>
      (match Strconv.Atoi(raw)
       case None => Failure(NumError(FnAtoi, raw))
       case Some(n) => Success(VInt(n)))
    case BooleanField => Success(VBool(raw == "true"))
    case FloatField =>
      (match parseFloat(raw)
       case None => Failure(NumError(FnParseFloat, raw))
       case Some(f) => Success(VFloat(f)))
    case _ => Success(VStr(raw))
  }

  /** Binding of the declared parameter `key`, reading its first raw value. */
  function BindKey(config: map<string, FieldType>, values: UrlValues, parseFloat: FloatParser, key: string): Result<Value, NumError>
    requires key in config
  {
    Bind(config[key], Get(values, key), parseFloat)
  }

  /** No name occurs twice. */
  predicate Distinct<T(==)>(s: seq<T>) {
    forall i, j :: 0 <= i < j < |s| ==> s[i] != s[j]
  }

  /** `order` lists every key of `keys` exactly once: one possible iteration order of a Go map. */
  predicate IsEnumeration(order: seq<string>, keys: set<string>) {
    && Distinct(order)
    && (forall i :: 0 <= i < |order| ==> order[i] in keys)
    && (forall k :: k in keys ==> k in order)
  }

  /** `keys[i]` is the first of `keys` that fails to bind, and it fails with `e`. */
  predicate FirstFailure(config: map<string, FieldType>, values: UrlValues, parseFloat: FloatParser, keys: seq<string>, i: nat, e: NumError)
    requires i < |keys| && forall j :: 0 <= j < |keys| ==> keys[j] in config
  {
    && BindKey(config, values, parseFloat, keys[i]) == Failure(e)
    && forall j :: 0 <= j < i ==> BindKey(config, values, parseFloat, keys[j]).Success?
  }

  /** The loop of buildQueryParams over `keys`, in that order: the first key
      that fails to bind aborts the whole call with its error. */
  function BindAll(config: map<string, FieldType>, values: UrlValues, parseFloat: FloatParser, keys: seq<string>): (r: Result<seq<QueryParameter>, NumError>)
    requires forall i :: 0 <= i < |keys| ==> keys[i] in config
    ensures r.Success? <==> forall i :: 0 <= i < |keys| ==> BindKey(config, values, parseFloat, keys[i]).Success?
    ensures r.Success? ==> |r.value| == |keys|
    ensures r.Success? ==> forall i :: 0 <= i < |keys| ==>
      r.value[i] == QueryParameter(keys[i], BindKey(config, values, parseFloat, keys[i]).value)
    ensures r.Failure? ==>
      exists i :: 0 <= i < |keys| && FirstFailure(config, values, parseFloat, keys, i, r.error)
  {
    if |keys| == 0 then Success([])
    else
      match BindKey(config, values, parseFloat, keys[0])
      case Failure(e) =>
        assert FirstFailure(config, values, parseFloat, keys, 0, e);
        Failure(e)
      case Success(v) =>
        match BindAll(config, values, parseFloat, keys[1..])
        case Failure(e) =>
          ghost var i :| 0 <= i < |keys[1..]| && FirstFailure(config, values, parseFloat, keys[1..], i, e);
          assert FirstFailure(config, values, parseFloat, keys, i + 1, e);
          Failure(e)
        case Success(rest) => Success([QueryParameter(keys[0], v)] + rest)
  }

  /** `buildQueryParams(config, values)` when Go happens to iterate the declared
      parameters in `order`. */
  function BuildQueryParams(config: map<string, FieldType>, values: UrlValues, parseFloat: FloatParser, order: seq<string>): (r: Result<seq<QueryParameter>, NumError>)
    requires IsEnumeration(order, config.Keys)
    ensures r.Success? <==> forall k :: k in config ==> BindKey(config, values, parseFloat, k).Success?
    ensures r.Success? ==> Distinct(r.value) && forall i :: 0 <= i < |r.value| ==>
      r.value[i].name in config && r.value[i] == QueryParameter(r.value[i].name, BindKey(config, values, parseFloat, r.value[i].name).value)
    ensures r.Success? ==> forall k :: k in config ==> QueryParameter(k, BindKey(config, values, parseFloat, k).value) in r.value
    ensures r.Failure? ==> exists k :: k in config && BindKey(config, values, parseFloat, k) == Failure(r.error)
  {
    var r := BindAll(config, values, parseFloat, order);
    if r.Success? then
      assert forall k :: k in config ==> QueryParameter(k, BindKey(config, values, parseFloat, k).value) in r.value by {
        forall k | k in config
          ensures QueryParameter(k, BindKey(config, values, parseFloat, k).value) in r.value
        {
          var i :| 0 <= i < |order| && order[i] == k;
          assert r.value[i] == QueryParameter(k, BindKey(config, values, parseFloat, k).value);
        }
      }
      r
    else
      r
  }

  lemma {:induction false} DistinctCard<T>(s: seq<T>)
    requires Distinct(s)
    ensures |set x | x in s| == |s|
  {
    if |s| > 0 {
      var t := s[1..];
      assert Distinct(t);
      DistinctCard(t);
      assert (set x | x in s) == {s[0]} + (set x | x in t);
      assert s[0] !in t;
    }
  }

  /** Each element of a sequence without repetitions occurs once in its multiset. */
  lemma {:induction false} DistinctMultiplicity<T>(s: seq<T>, x: T)
    requires Distinct(s)
    ensures multiset(s)[x] == if x in s then 1 else 0
  {
    if |s| > 0 {
      var t := s[1..];
      assert s == [s[0]] + t;
      assert Distinct(t);
      DistinctMultiplicity(t, x);
      assert s[0] !in t;
    }
  }

  /** On success there is one binding per declared name and nothing else. */
  lemma OneBindingPerName(config: map<string, FieldType>, values: UrlValues, parseFloat: FloatParser, order: seq<string>)
    requires IsEnumeration(order, config.Keys)
    ensures var r := BuildQueryParams(config, values, parseFloat, order);
      r.Success? ==>
        && (set p | p in r.value :: p.name) == config.Keys
        && |r.value| == |config|
        && forall i, j :: 0 <= i < j < |r.value| ==> r.value[i].name != r.value[j].name
  {
    var r := BuildQueryParams(config, values, parseFloat, order);
    if r.Success? {
      assert (set x | x in order) == config.Keys;
      DistinctCard(order);
      assert |config.Keys| == |config|;
      forall k | k in config ensures k in (set p | p in r.value :: p.name) {
        assert QueryParameter(k, BindKey(config, values, parseFloat, k).value) in r.value;
      }
    }
  }

  /** A query that declares no parameters binds nothing, whatever the request carries. */
  lemma NoDeclaredParameters(values: UrlValues, parseFloat: FloatParser)
    ensures BuildQueryParams(map[], values, parseFloat, []) == Success([])
  {
  }

  /** A Boolean parameter is true exactly when its first raw value is "true", and it never fails. */
  lemma BooleanBinding(config: map<string, FieldType>, values: UrlValues, parseFloat: FloatParser, order: seq<string>, key: string)
    requires IsEnumeration(order, config.Keys)
    requires key in config && config[key] == BooleanField
    ensures var r := BuildQueryParams(config, values, parseFloat, order);
      && (r.Success? ==> QueryParameter(key, VBool(Get(values, key) == "true")) in r.value)
      && (r.Failure? ==> exists k :: k in config && k != key && BindKey(config, values, parseFloat, k).Failure?)
  {
  }

  /** An Integer parameter binds to the value of its decimal text; text that is
      empty (which an absent parameter reads as), not decimal, or outside the
      int64 range fails the whole call. */
  lemma IntegerBinding(config: map<string, FieldType>, values: UrlValues, parseFloat: FloatParser, order: seq<string>, key: string)
    requires IsEnumeration(order, config.Keys)
    requires key in config && config[key] == IntegerField
    ensures var r := BuildQueryParams(config, values, parseFloat, order);
      var raw := Get(values, key);
      && (r.Success? ==>
            && Strconv.IsDecimal(raw) && MinInt64 <= Strconv.DecimalValue(raw) <= MaxInt64
            && QueryParameter(key, VInt(Strconv.DecimalValue(raw))) in r.value)
      && (!(Strconv.IsDecimal(raw) && MinInt64 <= Strconv.DecimalValue(raw) <= MaxInt64) ==> r.Failure?)
      && (key !in values ==> r.Failure?)
  {
  }

  /** A Float parameter binds to whatever ParseFloat makes of its text, and fails with it. */
  lemma FloatBinding(config: map<string, FieldType>, values: UrlValues, parseFloat: FloatParser, order: seq<string>, key: string)
    requires IsEnumeration(order, config.Keys)
    requires key in config && config[key] == FloatField
    ensures var r := BuildQueryParams(config, values, parseFloat, order);
      var raw := Get(values, key);
      && (r.Success? ==> parseFloat(raw).Some? && QueryParameter(key, VFloat(parseFloat(raw).value)) in r.value)
      && (parseFloat(raw).None? ==> r.Failure?)
  {
  }

  /** Every other declared type passes the first raw text through, "" when absent, and never fails. */
  lemma StringBinding(config: map<string, FieldType>, values: UrlValues, parseFloat: FloatParser, order: seq<string>, key: string)
    requires IsEnumeration(order, config.Keys)
    requires key in config && config[key] !in {IntegerField, BooleanField, FloatField}
    ensures var r := BuildQueryParams(config, values, parseFloat, order);
      && (r.Success? ==> QueryParameter(key, VStr(Get(values, key))) in r.value)
      && (r.Failure? ==> exists k :: k in config && k != key && BindKey(config, values, parseFloat, k).Failure?)
  {
  }

  /** Only numeric parameters can fail, and the error names the text that failed to parse. */
  lemma OnlyNumbersFail(config: map<string, FieldType>, values: UrlValues, parseFloat: FloatParser, order: seq<string>)
    requires IsEnumeration(order, config.Keys)
    ensures var r := BuildQueryParams(config, values, parseFloat, order);
      && (r.Failure? ==> exists k ::
            (k in config && config[k] in {IntegerField, FloatField}
             && BindKey(config, values, parseFloat, k) == Failure(r.error) && r.error.num == Get(values, k)))
      && ((forall k :: k in config ==> config[k] !in {IntegerField, FloatField}) ==> r.Success?)
  {
  }

  /** BindAll depends on the raw values only through the bindings of the keys it visits. */
  lemma {:induction false} BindAllCongruent(config: map<string, FieldType>, v1: UrlValues, v2: UrlValues, parseFloat: FloatParser, keys: seq<string>)
    requires forall i :: 0 <= i < |keys| ==> keys[i] in config
    requires forall i :: 0 <= i < |keys| ==> Get(v1, keys[i]) == Get(v2, keys[i])
    ensures BindAll(config, v1, parseFloat, keys) == BindAll(config, v2, parseFloat, keys)
  {
    if |keys| > 0 {
      BindAllCongruent(config, v1, v2, parseFloat, keys[1..]);
    }
  }

  /** Raw values whose names are not declared are ignored. */
  lemma UndeclaredIgnored(config: map<string, FieldType>, values: UrlValues, parseFloat: FloatParser, order: seq<string>)
    requires IsEnumeration(order, config.Keys)
    ensures BuildQueryParams(config, values, parseFloat, order)
         == BuildQueryParams(config, map k | k in values && k in config :: values[k], parseFloat, order)
  {
    var declared := map k | k in values && k in config :: values[k];
    BindAllCongruent(config, values, declared, parseFloat, order);
  }

  /** The outcome does not depend on the order Go iterates the declared
      parameters in: both orders succeed or both fail, and on success they
      produce the same bindings, each once. Which error a failing call
      reports can differ between orders. */
  lemma OrderIndependent(config: map<string, FieldType>, values: UrlValues, parseFloat: FloatParser, o1: seq<string>, o2: seq<string>)
    requires IsEnumeration(o1, config.Keys) && IsEnumeration(o2, config.Keys)
    ensures var r1 := BuildQueryParams(config, values, parseFloat, o1);
      var r2 := BuildQueryParams(config, values, parseFloat, o2);
      && (r1.Success? <==> r2.Success?)
      && (r1.Success? ==> multiset(r1.value) == multiset(r2.value))
  {
    var r1 := BuildQueryParams(config, values, parseFloat, o1);
    var r2 := BuildQueryParams(config, values, parseFloat, o2);
    if r1.Success? {
      forall x ensures multiset(r1.value)[x] == multiset(r2.value)[x] {
        DistinctMultiplicity(r1.value, x);
        DistinctMultiplicity(r2.value, x);
        if x in r1.value {
          var i :| 0 <= i < |r1.value| && r1.value[i] == x;
          assert x in r2.value;
        }
        if x in r2.value {
          var i :| 0 <= i < |r2.value| && r2.value[i] == x;
          assert x in r1.value;
        }
      }
      assert multiset(r1.value) == multiset(r2.value);
    }
  }

  /** A request `?name=bravo&id=1.5` against parameters {name: STRING, id: FLOAT}. */
  lemma StringAndFloatScenario(parseFloat: FloatParser, f: Float64)
    requires parseFloat("1.5") == Some(f)
    ensures BuildQueryParams(map["name" := StringField, "id" := FloatField],
                             map["name" := ["bravo"], "id" := ["1.5"]], parseFloat, ["id", "name"])
         == Success([QueryParameter("id", VFloat(f)), QueryParameter("name", VStr("bravo"))])
  {
    var config := map["name" := StringField, "id" := FloatField];
    var values := map["name" := ["bravo"], "id" := ["1.5"]];
    var order := ["id", "name"];
    assert IsEnumeration(order, config.Keys);
    assert BindKey(config, values, parseFloat, order[0]) == Success(VFloat(f));
    assert BindKey(config, values, parseFloat, order[1]) == Success(VStr("bravo"));
    var r := BindAll(config, values, parseFloat, order);
    assert r.Success? && |r.value| == 2;
    assert r.value == [QueryParameter("id", VFloat(f)), QueryParameter("name", VStr("bravo"))];
  }

  /** An Integer parameter: "42" binds to 42 and "abc" is an Atoi error. */
  lemma IntegerScenario(parseFloat: FloatParser)
    ensures BuildQueryParams(map["id" := IntegerField], map["id" := ["42", "7"]], parseFloat, ["id"])
         == Success([QueryParameter("id", VInt(42))])
    ensures BuildQueryParams(map["id" := IntegerField], map["id" := ["abc"]], parseFloat, ["id"])
         == Failure(NumError(FnAtoi, "abc"))
  {
    Strconv.AtoiExamples();
    var config := map["id" := IntegerField];
    var order := ["id"];
    assert IsEnumeration(order, config.Keys);
    var good := map["id" := ["42", "7"]];
    assert BindKey(config, good, parseFloat, order[0]) == Success(VInt(42));
    var r := BindAll(config, good, parseFloat, order);
    assert r.Success? && |r.value| == 1;
    assert r.value == [QueryParameter("id", VInt(42))];
  }
}
