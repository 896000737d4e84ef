/** The request handler (`queryHandler`): route by path, bind the parameters,
    run the query, project the rows. The engine is a parameter; what the
    handler writes is summarised by the status code and the collected rows. */
module Handler {
  import opened Wrappers
  import opened Params
  import opened Rows
  import opened Registry

  /** An error the engine reports when it is asked to run a query. */
  datatype EngineError = EngineError(message: string)

  /** What the engine answers: the result schema and the rows of the result. */
  datatype Table = Table(schema: Schema, rows: seq<RawRow>)

  /** The engine: runs SQL text with the given parameters. */
  type Engine = (string, seq<QueryParameter>) -> Result<Table, EngineError>

  /** The outcome of one request. */
  datatype Response =
    | NotFound                                  // 404, empty body
    | BadRequest(bindError: NumError)           // 400, empty body
    | InternalServerError(engineError: EngineError)  // 500, empty body
    | Panic(castError: CastError)               // a failed type assertion in castField
    | Ok(rows: seq<Row>)                        // the rows, encoded as a JSON array

  /** `strings.TrimPrefix(path, prefix)`. */
  function TrimPrefix(path: string, prefix: string): (r: string)
    ensures prefix <= path ==> prefix + r == path
    ensures !(prefix <= path) ==> r == path
  {
    if prefix <= path then path[|prefix|..] else path
  }

  /** The name of the query a request path asks for, under the configured URL prefix. */
  function QueryName(urlPath: string, path: string): string
  {
    TrimPrefix(path, urlPath)
  }

  /** `order` is how Go iterates the declared parameters of the requested
      query, when there is one. */
  predicate ValidOrder(registry: map<string, SqlQuery>, urlPath: string, path: string, order: seq<string>)
  {
    QueryName(urlPath, path) in registry ==>
      IsEnumeration(order, registry[QueryName(urlPath, path)].parameters.Keys)
  }

  /** `queryHandler` for a request with URL path `path` and query string `values`. */
  function HandleQuery(registry: map<string, SqlQuery>, urlPath: string, path: string, values: UrlValues,
                       parseFloat: FloatParser, order: seq<string>, engine: Engine): (r: Response)
    requires ValidOrder(registry, urlPath, path, order)
    ensures r.NotFound? <==> QueryName(urlPath, path) !in registry
    ensures !r.NotFound? ==>
      var query := registry[QueryName(urlPath, path)];
      var params := BuildQueryParams(query.parameters, values, parseFloat, order);
      && (r.BadRequest? <==> params.Failure?)
      && (r.BadRequest? ==> r.bindError == params.error)
      && (r.InternalServerError? ==> params.Success? && engine(query.sql, params.value) == Failure(r.engineError))
      && (r.Panic? || r.Ok? ==> params.Success? && engine(query.sql, params.value).Success?)
    ensures r.Panic? || r.Ok? ==>
      var query := registry[QueryName(urlPath, path)];
      var params := BuildQueryParams(query.parameters, values, parseFloat, order).value;
      var table := engine(query.sql, params).value;
      && (r.Panic? ==> ProjectRows(table.schema, table.rows) == Failure(r.castError))
      && (r.Ok? ==> ProjectRows(table.schema, table.rows) == Success(r.rows))
  {
    var name := QueryName(urlPath, path);
    if name !in registry then NotFound
    else
      var query := registry[name];
      match BuildQueryParams(query.parameters, values, parseFloat, order)
      case Failure(e) => BadRequest(e)
      case Success(params) =>
        match engine(query.sql, params)
        case Failure(e) => InternalServerError(e)
        case Success(table) =>
          match ProjectRows(table.schema, table.rows)
          case Failure(e) => Panic(e)
          case Success(rows) => Ok(rows)
  }

  /** The configured prefix is removed from a path that starts with it. */
  lemma TrimPrefixJoin(prefix: string, name: string)
    ensures TrimPrefix(prefix + name, prefix) == name
  {
    assert prefix <= prefix + name;
  }

  /** An unknown query is answered 404 before anything about the request is
      looked at: the answer is the same for every query string, float parser,
      parameter order and engine. */
  lemma UnknownQueryIsNotFound(registry: map<string, SqlQuery>, urlPath: string, path: string,
                               values: UrlValues, parseFloat: FloatParser, order: seq<string>, engine: Engine,
                               values': UrlValues, parseFloat': FloatParser, order': seq<string>, engine': Engine)
    requires QueryName(urlPath, path) !in registry
    ensures HandleQuery(registry, urlPath, path, values, parseFloat, order, engine) == NotFound
    ensures HandleQuery(registry, urlPath, path, values, parseFloat, order, engine)
         == HandleQuery(registry, urlPath, path, values', parseFloat', order', engine')
  {
  }

  /** A binding error is answered 400 before the engine is asked anything. */
  lemma BindErrorSkipsEngine(registry: map<string, SqlQuery>, urlPath: string, path: string,
                             values: UrlValues, parseFloat: FloatParser, order: seq<string>,
                             engine: Engine, engine': Engine)
    requires ValidOrder(registry, urlPath, path, order)
    requires QueryName(urlPath, path) in registry
    requires BuildQueryParams(registry[QueryName(urlPath, path)].parameters, values, parseFloat, order).Failure?
    ensures HandleQuery(registry, urlPath, path, values, parseFloat, order, engine).BadRequest?
    ensures HandleQuery(registry, urlPath, path, values, parseFloat, order, engine)
         == HandleQuery(registry, urlPath, path, values, parseFloat, order, engine')
  {
  }

  /** A query that declares no parameters, and whose rows all cast, is answered
      with those rows whatever the query string carries. */
  lemma StaticQueryServes(registry: map<string, SqlQuery>, urlPath: string, path: string, values: UrlValues,
                          parseFloat: FloatParser, engine: Engine)
    requires QueryName(urlPath, path) in registry
    requires registry[QueryName(urlPath, path)].parameters == map[]
    requires engine(registry[QueryName(urlPath, path)].sql, []).Success?
    ensures var table := engine(registry[QueryName(urlPath, path)].sql, []).value;
      ProjectRows(table.schema, table.rows).Success? ==>
        HandleQuery(registry, urlPath, path, values, parseFloat, [], engine) == Ok(ProjectRows(table.schema, table.rows).value)
  {
  }

  /** A request for `urlPath + name` is served by the last definition called `name`. */
  lemma RoutesToLastDefinition(defs: seq<SqlQuery>, urlPath: string, i: nat)
    requires i < |defs| && IsLastWithName(defs, i)
    ensures QueryName(urlPath, urlPath + defs[i].name) in LoadQueries(defs)
    ensures LoadQueries(defs)[QueryName(urlPath, urlPath + defs[i].name)] == defs[i]
  {
    TrimPrefixJoin(urlPath, defs[i].name);
    LastDefinitionWins(defs, i);
  }
}
