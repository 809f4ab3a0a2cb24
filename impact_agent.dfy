/**
  `impact_agent(event, context, url)`: ask the tool server's `impact_score`
  about one event, and fall back to a Low, score-40 item on any failure.
 */
module ImpactAgent {
  import opened PyJson
  import opened Extract
  import opened Tools
  import opened Server
  import opened McpClient

  /** The item the agent sends: the event as title, and the url. */
  function ImpactItem(event: Json, url: Json): Json
  {
    Obj([("title", event), ("url", url)])
  }

  /** The request args: `{"item": {"title": event, "url": url}, "context": context}`. */
  function ImpactArgs(event: Json, context: Json, url: Json): Fields
  {
    [("item", ImpactItem(event, url)), ("context", context)]
  }

  /** The args bind to `impact_score(item, context)`, and bind the item and the context. */
  lemma ImpactArgsBind(event: Json, context: Json, url: Json)
    ensures Binds("impact_score", ImpactArgs(event, context, url))
    ensures Arg(ImpactArgs(event, context, url), "item") == ImpactItem(event, url)
    ensures Arg(ImpactArgs(event, context, url), "context") == context
    ensures Field(ImpactItem(event, url), "title") == Some(event)
    ensures Field(ImpactItem(event, url), "url") == Some(url)
  {
    var args := ImpactArgs(event, context, url);
    assert Keys(args) == ["item", "context"];
    assert KeySet(args) == {"item", "context"};
    LookupAt(args, 0);
    LookupAt(args, 1);
    LookupAt(ImpactItem(event, url).fields, 0);
    LookupAt(ImpactItem(event, url).fields, 1);
  }

  /** The agent's own fallback item. */
  function ImpactFallbackItem(event: Json, url: Json): Json
  {
    ImpactEntry(event, "Low", 40, ["Unable to compute impact"], ["Monitor situation"], url)
  }

  /**
    `impact_agent`, the decoded answer of the server being `data`: the result
    verbatim when there is one; otherwise a Low item scored 40, in the Low
    band, carrying the event and the url it was given.
   */
  function ImpactAgentCall(event: Json, context: Json, url: Json, data: Option<Json>): (r: Json)
    ensures McpResult(data).Some? ==> r == McpResult(data).value
    ensures McpResult(data).None? ==>
      && IsImpact(r, event, "Low", url) && Field(r, "score") == Some(Num(40))
      && BandConsistent(r)
  {
    match McpResult(data)
    case Some(result) => result
    case None =>
      ImpactEntryFields(event, "Low", 40, ["Unable to compute impact"], ["Monitor situation"], url);
      ImpactFallbackItem(event, url)
  }

  /** On the agent's item the model path succeeds: the item has a url to write. */
  lemma ImpactScoreOnAgentItemModel(event: string, context: Json, url: Json, w: World)
    requires Rfc8259Shaped(w.parse) && Usable(SafeJsonExtract(w.reply, w.parse))
    ensures ImpactScore(ImpactItem(Str(event), url), context, w).outcome.Ok?
  {
    var item := ImpactItem(Str(event), url);
    LookupAt(item.fields, 0);
    LookupAt(item.fields, 1);
    SafeJsonExtractIsObject(w.reply, w.parse);
  }

  /**
    `impact_score` on the agent's item, with a string event, always succeeds;
    when the model gives nothing usable the item is High or Medium by the
    keyword banding.
   */
  lemma ImpactScoreOnAgentItem(event: string, context: Json, url: Json, w: World)
    requires Rfc8259Shaped(w.parse)
    ensures var o := ImpactScore(ImpactItem(Str(event), url), context, w).outcome;
      && o.Ok?
      && (!Usable(SafeJsonExtract(w.reply, w.parse)) ==>
            BandConsistent(o.value)
            && (MentionsRegulation(event) ==> IsImpact(o.value, Str(event), "High", url) && ScoreIn(o.value, 75, 90))
            && (!MentionsRegulation(event) ==> IsImpact(o.value, Str(event), "Medium", url) && ScoreIn(o.value, 50, 70)))
  {
    if Usable(SafeJsonExtract(w.reply, w.parse)) {
      ImpactScoreOnAgentItemModel(event, context, url, w);
    } else {
      var item := ImpactItem(Str(event), url);
      LookupAt(item.fields, 0);
      LookupAt(item.fields, 1);
      ImpactFallbackBands(item, event, url, w.roll);
    }
  }

  /**
    Against the tool server, with a string event, the agent returns exactly
    what `impact_score` returns for its item: its own Low fallback is never
    reached.
   */
  lemma ImpactAgentThroughServer(event: string, context: Json, url: Json, w: World, message: string)
    requires Rfc8259Shaped(w.parse)
    ensures var data := Body(CallTool("impact_score", ImpactArgs(Str(event), context, url), w).0, message);
      ImpactScore(ImpactItem(Str(event), url), context, w).outcome == Ok(ImpactAgentCall(Str(event), context, url, data))
  {
    var args := ImpactArgs(Str(event), context, url);
    ImpactArgsBind(Str(event), context, url);
    assert RunTool("impact_score", args, w) == ImpactScore(ImpactItem(Str(event), url), context, w);
    McpResultOfServer("impact_score", args, w, message);
    ImpactScoreOnAgentItem(event, context, url, w);
  }
}
