/**
  The tool server's single route, `POST /tool/{tool_name}` with body
  `{"args": {...}}`: look the name up among the tool functions, bind the
  arguments as keywords, run the body, and wrap what it returns.
 */
module Server {
  import opened PyJson
  import opened Extract
  import opened Tools

  /** The tool functions and their keyword parameters; no parameter has a default. */
  const Registry: map<string, set<string>> := map[
    "search_web" := {"query"},
    "fetch_url" := {"url"},
    "clean_extract" := {"raw_text"},
    "extract_entities" := {"text"},
    "impact_score" := {"item", "context"},
    "generate_market_report" := {"data"}]

  /** The tools whose body consults the language model. */
  const ModelTools: set<string> := {"extract_entities", "impact_score", "generate_market_report"}

  /** Why a request was answered 400. */
  datatype BadRequestCause =
    | BadKeywords    // `tool_func(**args)` could not bind: a missing or an unexpected keyword
    | RaisedInBody   // the body itself raised TypeError

  /** The answer of `call_tool`. */
  datatype Response =
    | Wrapped(tool: string, result: Json)
    | NotFound
    | BadRequest(cause: BadRequestCause)
    | ServerError(exc: Exc)   // an exception other than TypeError escapes the route

  function Status(r: Response): (code: int)
    ensures 200 <= code < 600
  {
    match r
    case Wrapped(_, _) => 200
    case NotFound => 404
    case BadRequest(_) => 400
    case ServerError(_) => 500
  }

  /**
    The body a client decodes from the answer: the wrapper dict, or the error
    dict of an HTTP exception whose detail for a 400 is `str(e)` (given here as
    `message`); an uncaught exception answers plain text, which does not decode.
   */
  function Body(r: Response, message: string): (b: Option<Json>)
    ensures b.Some? <==> !r.ServerError?
    ensures b.Some? ==> b.value.Obj?
  {
    match r
    case Wrapped(tool, result) => Some(Obj([("tool", Str(tool)), ("result", result)]))
    case NotFound => Some(Obj([("detail", Str("Tool not found"))]))
    case BadRequest(_) => Some(Obj([("detail", Str(message))]))
    case ServerError(_) => None
  }

  /** The value bound to keyword `key`. */
  function Arg(args: Fields, key: string): Json
    requires key in KeySet(args)
  {
    LookupSpec(args, key);
    Lookup(args, key).value
  }

  /** The tool body run on its bound keywords. */
  function RunTool(name: string, args: Fields, w: World): Run
    requires name in Registry && KeySet(args) == Registry[name]
  {
    if name == "search_web" then SearchWeb(Arg(args, "query"), w)
    else if name == "fetch_url" then FetchUrl(Arg(args, "url"), w)
    else if name == "clean_extract" then CleanExtract(Arg(args, "raw_text"), w)
    else if name == "extract_entities" then ExtractEntities(Arg(args, "text"), w)
    else if name == "impact_score" then ImpactScore(Arg(args, "item"), Arg(args, "context"), w)
    else GenerateMarketReport(Arg(args, "data"), w)
  }

  /** The arguments bind to the tool's parameters. */
  predicate Binds(name: string, args: Fields)
  {
    name in Registry && KeySet(args) == Registry[name]
  }

  /**
    `call_tool(tool_name, req)`: the answer and the effects of the tool body.
    Only TypeError is caught, and it is caught around the call as a whole, so a
    TypeError the body raises is answered 400 like a binding failure.
   */
  function CallTool(name: string, args: Fields, w: World): (r: (Response, seq<Effect>))
    ensures Status(r.0) == 404 <==> name !in Registry
    ensures Status(r.0) == 400 <==>
      (name in Registry && (!Binds(name, args) || RunTool(name, args, w).outcome == Raise(TypeError)))
    ensures Status(r.0) == 500 <==>
      (Binds(name, args) && RunTool(name, args, w).outcome.Raise? && RunTool(name, args, w).outcome.exc != TypeError)
    ensures r.0.Wrapped? <==> Binds(name, args) && RunTool(name, args, w).outcome.Ok?
    ensures r.0.Wrapped? ==> r.0.tool == name && r.0.result == RunTool(name, args, w).outcome.value
    ensures r.0 == BadRequest(BadKeywords) <==> name in Registry && !Binds(name, args)
    ensures !Binds(name, args) ==> r.1 == []
    ensures Binds(name, args) ==> r.1 == RunTool(name, args, w).effects
  {
    if name !in Registry then (NotFound, [])
    else if KeySet(args) != Registry[name] then (BadRequest(BadKeywords), [])
    else
      var run := RunTool(name, args, w);
      (match run.outcome
       case Ok(v) => Wrapped(name, v)
       case Raise(TypeError) => BadRequest(RaisedInBody)
       case Raise(e) => ServerError(e),
       run.effects)
  }

  /** The body of every tool runs only after binding, and the model is consulted only by the three model tools. */
  lemma {:induction false} ModelCalledOnlyByModelTools(name: string, args: Fields, w: World)
    ensures ModelCalled in CallTool(name, args, w).1 ==> Binds(name, args) && name in ModelTools
    ensures Binds(name, args) && name in Registry.Keys - ModelTools ==> ModelCalled !in CallTool(name, args, w).1
  {
    if Binds(name, args) {
      var run := RunTool(name, args, w);
      if name == "search_web" || name == "fetch_url" || name == "clean_extract" {
        assert ModelCalled !in run.effects;
      }
    }
  }

  /**
    A 200 answer decodes to exactly the wrapper `{"tool": name, "result": r}`
    with `r` the body's return value.
   */
  lemma WrappedBody(name: string, args: Fields, w: World, message: string)
    requires CallTool(name, args, w).0.Wrapped?
    ensures var b := Body(CallTool(name, args, w).0, message).value;
      && Keys(b.fields) == ["tool", "result"]
      && Field(b, "tool") == Some(Str(name))
      && Field(b, "result") == Some(RunTool(name, args, w).outcome.value)
  {
    var b := Body(CallTool(name, args, w).0, message).value;
    LookupAt(b.fields, 0);
    LookupAt(b.fields, 1);
  }
}
