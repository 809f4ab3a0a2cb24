/**
  `extractor_agent(text)`: ask the tool server's `extract_entities` for the
  entities of a text, and fall back to three empty lists on any failure.
 */
module ExtractorAgent {
  import opened PyJson
  import opened Extract
  import opened Tools
  import opened Server
  import opened McpClient

  /** The request args: exactly `{"text": text}`. */
  function ExtractorArgs(text: Json): Fields
  {
    [("text", text)]
  }

  lemma ExtractorArgsBind(text: Json)
    ensures Binds("extract_entities", ExtractorArgs(text))
    ensures Arg(ExtractorArgs(text), "text") == text
  {
    assert Keys(ExtractorArgs(text)) == ["text"];
    assert KeySet(ExtractorArgs(text)) == {"text"};
  }

  /** The agent's fallback: the three entity lists, empty. */
  const ExtractorFallback: Json := Obj([("competitors", Arr([])), ("themes", Arr([])), ("pricing_models", Arr([]))])

  /**
    `extractor_agent`, the decoded answer of the server being `data`: the
    result verbatim when there is one; otherwise a dict with exactly the keys
    competitors, themes and pricing_models, each an empty list, whatever the
    text.
   */
  function ExtractorAgentCall(text: Json, data: Option<Json>): (r: Json)
    ensures McpResult(data).Some? ==> r == McpResult(data).value
    ensures McpResult(data).None? ==>
      && r.Obj? && Keys(r.fields) == ["competitors", "themes", "pricing_models"]
      && Field(r, "competitors") == Some(Arr([]))
      && Field(r, "themes") == Some(Arr([]))
      && Field(r, "pricing_models") == Some(Arr([]))
  {
    match McpResult(data)
    case Some(result) => result
    case None =>
      LookupAt(ExtractorFallback.fields, 0);
      LookupAt(ExtractorFallback.fields, 1);
      LookupAt(ExtractorFallback.fields, 2);
      ExtractorFallback
  }

  /** The fallback does not depend on the text. */
  lemma ExtractorFallbackIgnoresText(text: Json, other: Json, data: Option<Json>)
    requires McpResult(data).None?
    ensures ExtractorAgentCall(text, data) == ExtractorAgentCall(other, data)
  {
  }

  /**
    Against the tool server the agent returns what `extract_entities` returns
    (the model's non-empty dict, or the tool's two-competitor set): its own
    fallback is not reached.
   */
  lemma ExtractorAgentThroughServer(text: Json, w: World, message: string)
    ensures var data := Body(CallTool("extract_entities", ExtractorArgs(text), w).0, message);
      ExtractEntities(text, w).outcome == Ok(ExtractorAgentCall(text, data))
  {
    ExtractorArgsBind(text);
    McpResultOfServer("extract_entities", ExtractorArgs(text), w, message);
  }
}
