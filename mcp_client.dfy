/**
  How the impact, extractor and writer agents read the tool server's answer:
  `data = response.json()`, then `data["result"]` if `"result" in data`, and
  any exception on the way (the post, the decoding, the `in` test, the
  subscript, the ValueError raised for a missing key) sends the agent to its
  fallback.
 */
module McpClient {
  import opened PyJson
  import opened Tools
  import opened Server

  /**
    The tool result an agent takes from the decoded answer `data` (None when
    the post or `response.json()` raised), or None when it falls back.
   */
  function McpResult(data: Option<Json>): (r: Option<Json>)
    ensures r.Some? <==> data.Some? && data.value.Obj? && "result" in Keys(data.value.fields)
    ensures r.Some? ==> Field(data.value, "result") == r
  {
    match data
    case None => None
    case Some(d) =>
      match Contains(d, "result")
      case Raise(_) => None      // `in` on a number, a boolean or null
      case Ok(false) => None     // ValueError("Invalid MCP response")
      case Ok(true) =>
        match GetItem(d, "result")
        case Ok(v) => Some(v)
        case Raise(_) => None    // a list or a string that holds "result" cannot be subscripted by it
  }

  /**
    Against the tool server an agent gets a result exactly when the server
    answered 200, and then it is the tool's return value unchanged.
   */
  lemma McpResultOfServer(name: string, args: Fields, w: World, message: string)
    ensures var resp := CallTool(name, args, w).0;
      && (McpResult(Body(resp, message)).Some? <==> Status(resp) == 200)
      && (Status(resp) == 200 ==> McpResult(Body(resp, message)) == Some(RunTool(name, args, w).outcome.value))
  {
    var resp := CallTool(name, args, w).0;
    var b := Body(resp, message);
    match resp
    case Wrapped(_, _) =>
      WrappedBody(name, args, w, message);
    case NotFound =>
      LookupAt(b.value.fields, 0);
      assert Keys(b.value.fields) == ["detail"];
    case BadRequest(_) =>
      LookupAt(b.value.fields, 0);
      assert Keys(b.value.fields) == ["detail"];
    case ServerError(_) =>
  }
}
