# bqproxy core in Dafny

bqproxy serves a fixed set of configured, parameterised BigQuery queries over
HTTP. A request names a query by its URL path; the handler turns the query
string into typed query parameters, runs the query, and writes the result rows
back as a JSON array. This project models the pure logic of `main.go`:

- **Parameter binder** (`Params`): `buildQueryParams`, `url.Values.Get`, and
  `strconv.Atoi` (`Strconv`). Atoi is modelled on the library's
  `ParseInt`/`ParseUint` path: an optional sign, then a digit scan into an
  unsigned 64-bit accumulator that fails on overflow, then the signed 64-bit
  range check. Atoi's fast path for input shorter than 19 bytes gives the same
  result. The scan is proved
  against a declarative grammar of signed decimal text, and `Itoa` is proved to
  be its inverse over the int64 range.
- **Value caster and row projection** (`Rows`): `castField` and the loop that
  builds one output row per result row.
- **Registry and routing** (`Registry`, `Handler`): the name-keyed map
  `loadQueries` builds (last definition wins), the prefix strip and lookup at
  the top of `queryHandler`, and the order of its steps: 404, then 400, then
  500, then the rows.

Engine values are a tagged union `Value` (`VNull` is Go's nil interface). Field
types are the enum `FieldType`, with an `OtherField` arm for every type the
service does not treat specially. Errors are explicit `Result` values. A
failed type assertion in `castField` becomes `Failure(TypeAssertion(..))` and
the handler outcome `Panic`.

Modelling choices:

- **Parameter order.** Go iterates a map in an unspecified order, and
  `buildQueryParams` appends bindings in that order. The model takes the order
  as a parameter `order` that must list every declared name exactly once
  (`IsEnumeration`). Every property holds for every such order.
  `OrderIndependent` proves that the outcome (success or failure) and the
  multiset of bindings do not depend on it. The code does not sort the
  bindings, so the model does not either. On failure, the error reported is
  the one for the first failing name in the order, and that can differ between
  orders.
- **Integer errors are reported.** An integer that fails to parse aborts the
  call with the `strconv` error (main.go:171-173); no zero is substituted.
- **Row key order.** An output row is a Go map, so it is modelled as a Dafny
  `map`. Go's JSON encoder writes map keys in sorted order, not schema order.
  The model claims nothing about key order.
- **Float parsing.** `strconv.ParseFloat` is the function parameter
  `parseFloat: string -> Option<Float64>`. The Float arm passes on its success
  or failure. Whether an empty Float parameter fails is therefore up to that
  function.
- **The engine.** The engine is the function parameter `Engine`. It maps SQL
  text and parameters to a result schema and rows, or to an error.

## Model

| member | source | states |
|---|---|---|
| Strconv.ScanDigits | main.go:162 | the digit loop behind Atoi succeeds exactly when the rest of the text is all digits and its value fits in 64 unsigned bits, and then returns that value |
| Strconv.ParseUint | main.go:162 | unsigned decimal parse: non-empty, all digits, at most 2^64-1, and the result is the digits' value |
| Strconv.Atoi | main.go:162 | succeeds exactly on optionally signed decimal text whose value lies in the int64 range, and returns that value |
| Strconv.AtoiItoa | main.go:162 | Atoi reads back the decimal text of every int64 and rejects the text of every integer outside the int64 range |
| Strconv.AtoiExamples | main.go:161-162 | "42", "-7" and "+007" parse; "", "abc", "-", "+-1", " 1" and "1_000" are rejected |
| Params.Bind | main.go:159-169 | Integer binds to the decimal value or fails with an Atoi error; Boolean is true exactly for "true" and never fails; Float follows ParseFloat; every other type passes the text through; only Integer and Float fail, and the error carries the text |
| Params.BindAll | main.go:155-179 | bindings come out one per visited name, in visiting order; the call fails exactly when some name fails, with the error of the first failing name |
| Params.BuildQueryParams | main.go:152-182 | succeeds exactly when every declared name binds; then each declared name appears with its binding and nothing else appears; on failure the error is that of some declared name |
| Params.OneBindingPerName | main.go:153-178 | on success the binding names are exactly the declared names, each once, and there are as many bindings as declarations |
| Params.NoDeclaredParameters | main.go:153-155 | no declarations give an empty binding list for any query string |
| Params.BooleanBinding | main.go:163-164 | a Boolean parameter binds to true exactly when its first raw value (or "" when absent) is "true", and it is never the cause of a failure |
| Params.IntegerBinding | main.go:161-173 | an Integer parameter binds to the value of its decimal text; non-decimal or out-of-range text, or an absent parameter, fails the whole call |
| Params.FloatBinding | main.go:165-166 | a Float parameter binds to ParseFloat's value and fails the call when ParseFloat fails |
| Params.StringBinding | main.go:167-168 | any other declared type binds to the first raw text, "" when absent, and is never the cause of a failure |
| Params.OnlyNumbersFail | main.go:160-173 | a failure always comes from an Integer or Float parameter whose text the error names; without such parameters the call always succeeds |
| Params.BindAllCongruent | main.go:155-168 | the binding loop depends on the query string only through the first values of the names it visits |
| Params.UndeclaredIgnored | main.go:155-168 | removing every undeclared name from the query string leaves the result unchanged |
| Params.OrderIndependent | main.go:155 | any two iteration orders both succeed or both fail, and on success give the same multiset of bindings |
| Params.StringAndFloatScenario | main.go:165-168 | `?name=bravo&id=1.5` with {name: STRING, id: FLOAT} binds id to ParseFloat("1.5") and name to "bravo" |
| Params.IntegerScenario | main.go:161-162 | `?id=42&id=7` binds id to 42 (first value); `?id=abc` fails with an Atoi error on "abc" |
| Rows.CastField | main.go:135-150 | nil stays nil; a cast fails exactly for a non-nil value whose Go type is not the one INTEGER, STRING, BOOLEAN or FLOAT asserts; a successful cast returns its input unchanged |
| Rows.CastNull | main.go:136-138 | nil casts to nil under every field type |
| Rows.CastMatchingKind | main.go:139-149 | a value of the asserted Go type, or any value under another field type, passes unchanged |
| Rows.ProjectRow | main.go:122-126 | the projection succeeds exactly when every field's cast does; the row's keys are exactly the schema names, each holding the raw column (nil when absent); a failure is the first failing field's |
| Rows.ProjectionIsRestriction | main.go:122-126 | a projected row is the raw row restricted to the schema's names, with missing columns added as nil |
| Rows.MissingColumnsAreNull | main.go:124-138 | a column absent from the raw row or nil in it projects to nil whatever its type, and never fails |
| Rows.ProjectionScenario | main.go:122-149 | {"id": 2, "name": null} and {"id": 2} both project to {"id": 2, "name": null} under [id INTEGER, name STRING]; a string under INTEGER fails |
| Rows.ProjectRows | main.go:111-128 | every result row is projected in order, one output row per input row; the first row that fails ends the handler with its error |
| Rows.NoRows | main.go:111-128 | an empty result gives an empty row list |
| Registry.LoadQueries | main.go:74-77 | the registry holds exactly the names in the definition list, each mapped to a definition of that name |
| Registry.LastDefinitionWins | main.go:74-77 | a definition that no later one shares a name with is the one registered under its name |
| Registry.LookupIsLastDefinition | main.go:74-77 | every registered name is served by the last definition in the list with that name |
| Registry.LoadAppend | main.go:75-76 | adding a definition at the end overwrites its name and leaves every other entry alone |
| Handler.TrimPrefix | main.go:85 | a path that starts with the prefix yields the rest of it, and any other path comes back unchanged |
| Handler.TrimPrefixJoin | main.go:85 | the prefix followed by a name routes to that name |
| Handler.HandleQuery | main.go:82-128 | 404 exactly for an unknown name; otherwise 400 exactly when binding fails, 500 with the engine's error, a panic with the first failing cast, or the projected rows |
| Handler.UnknownQueryIsNotFound | main.go:85-90 | an unknown name gives 404 and the same answer for every query string, parser, order and engine, so binding is never reached |
| Handler.BindErrorSkipsEngine | main.go:95-101 | a binding failure gives 400 and the same answer whatever the engine would do |
| Handler.StaticQueryServes | main.go:92-132 | a query with no declared parameters whose rows all cast is answered with its rows, whatever the query string |
| Handler.RoutesToLastDefinition | main.go:85-86 | a request for the prefix plus a name finds the last definition with that name |

## Left out

- Process wiring (main.go:30-61): flags, the BigQuery client and the HTTP server. None of it is logic of the core.
- File reading and YAML decoding in `loadQueries` (main.go:64-72): they are I/O and a library. `Registry.LoadQueries` takes the decoded list. Mapping YAML type names such as "INTEGER" to `FieldType` is part of that decoding.
- Writing the response (main.go:88, 98, 106, 130-132): `json.Marshal` and the writer are a library and I/O. `Handler.Response` records the status and the collected rows.
- `q.Read` and the row iterator (main.go:104-117): they are the engine's I/O. The engine is the parameter `Handler.Engine` and hands over its whole result at once.
- The read-error branch of the row loop (main.go:118-121): it writes 500 but does not leave the loop. This is iterator control flow and is not modelled.
- Logging (main.go:99, 107, 120): it is a side effect with no bearing on the result.
- `strconv.ParseFloat` (main.go:166): IEEE 754 decimal conversion. It is the parameter `parseFloat`, and `Float64` keeps only a bit pattern.
- Params.Bind: the error records the failing function and the input text, but not whether strconv reported a syntax error or a range error. The handler only tests whether there is an error.
- Strconv.Atoi: works on characters where Go works on bytes. A non-ASCII character is a non-digit in both, so the outcome is the same. `int` is taken to be 64 bits wide.
- Strings: Go strings are byte strings, and the model's strings are sequences of characters. This applies to `Params.Get`, the Boolean comparison, the pass-through arm of `Params.Bind` and `Handler.TrimPrefix`. A query string whose escapes decode to bytes that are not valid UTF-8, such as `%FF`, has no counterpart in the model.
- Query-string parsing (main.go:96): `r.URL.Query()` is a library. The handler starts from the decoded `url.Values`, and the parser's silent dropping of malformed pairs is not modelled.
- Rows.CastField: a failed type assertion is a `Failure` here. Go panics, and net/http's recovery of the panic (a dropped connection) is not modelled.
