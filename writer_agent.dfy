/**
  `report_writer_agent(industry, competitors, impact_items, sources)`: ask the
  tool server's `generate_market_report` for the report, and fall back to a
  fixed template built from the arguments on any failure.
 */
module WriterAgent {
  import opened PyJson
  import opened Extract
  import opened Tools
  import opened Server
  import opened McpClient

  /** The report data the agent sends. */
  function WriterData(competitors: Json, impactItems: Json, sources: Json): Json
  {
    Obj([("competitors", competitors), ("impact_items", impactItems), ("sources", sources)])
  }

  /** The request args: `{"data": {"competitors": ..., "impact_items": ..., "sources": ...}}`. */
  function WriterArgs(competitors: Json, impactItems: Json, sources: Json): Fields
  {
    [("data", WriterData(competitors, impactItems, sources))]
  }

  lemma WriterArgsBind(competitors: Json, impactItems: Json, sources: Json)
    ensures Binds("generate_market_report", WriterArgs(competitors, impactItems, sources))
    ensures Arg(WriterArgs(competitors, impactItems, sources), "data") == WriterData(competitors, impactItems, sources)
    ensures Keys(WriterData(competitors, impactItems, sources).fields) == ["competitors", "impact_items", "sources"]
    ensures Field(WriterData(competitors, impactItems, sources), "competitors") == Some(competitors)
    ensures Field(WriterData(competitors, impactItems, sources), "impact_items") == Some(impactItems)
    ensures Field(WriterData(competitors, impactItems, sources), "sources") == Some(sources)
  {
    var args := WriterArgs(competitors, impactItems, sources);
    assert Keys(args) == ["data"];
    assert KeySet(args) == {"data"};
    var d := WriterData(competitors, impactItems, sources);
    LookupAt(d.fields, 0);
    LookupAt(d.fields, 1);
    LookupAt(d.fields, 2);
  }

  function Summary(industry: string): string
  {
    "The " + industry + " sector is experiencing notable developments driven by regulatory changes and competitive"
    + " pressure. Organizations must adapt operations and strategy accordingly."
  }

  const WriterDrivers: seq<string> := [
    "Regulatory tightening by financial authorities", "Increased competition from fintech players",
    "Digital adoption across lending workflows", "Risk management modernization", "Customer demand for faster credit"]

  const WriterOpportunities: seq<string> := [
    "Automation of credit assessment workflows", "Partnerships with fintech platforms",
    "Expansion into underserved customer segments", "Launch of digital-first loan products",
    "Data-driven personalization of offerings"]

  const WriterRisks: seq<string> := [
    "Rising compliance and audit requirements", "Margin pressure due to competition",
    "Operational risk from legacy systems", "Cybersecurity vulnerabilities", "Macroeconomic credit slowdown"]

  const WriterPlan: Json := Obj([
    ("0_30", Arr(Strings(["Review compliance posture", "Identify high-risk operational gaps"]))),
    ("30_60", Arr(Strings(["Define technology modernization roadmap", "Explore fintech partnerships"]))),
    ("60_90", Arr(Strings(["Pilot new digital initiatives", "Scale successful process improvements"])))])

  /** The agent's template report. */
  function WriterFallback(industry: string, competitors: Json, impactItems: Json, sources: Json): Json
  {
    Obj([
      ("summary", Str(Summary(industry))),
      ("drivers", Arr(Strings(WriterDrivers))),
      ("competitors", competitors),
      ("impact_radar", impactItems),
      ("opportunities", Arr(Strings(WriterOpportunities))),
      ("risks", Arr(Strings(WriterRisks))),
      ("90_day_plan", WriterPlan),
      ("sources", sources)])
  }

  /** The template's summary names the industry. */
  lemma WriterSummaryShape(industry: string, competitors: Json, impactItems: Json, sources: Json)
    ensures var r := WriterFallback(industry, competitors, impactItems, sources);
      && Field(r, "summary") == Some(Str(Summary(industry)))
      && IsSubstring(industry, Summary(industry))
  {
    LookupAt(WriterFallback(industry, competitors, impactItems, sources).fields, 0);
    SubstringOfConcat("The ", industry, " sector is experiencing notable developments driven by regulatory changes and competitive"
      + " pressure. Organizations must adapt operations and strategy accordingly.");
    assert Summary(industry) == "The " + industry + (" sector is experiencing notable developments driven by regulatory changes and competitive"
      + " pressure. Organizations must adapt operations and strategy accordingly.");
  }

  /** The template copies its three arguments verbatim. */
  lemma WriterCopiesShape(industry: string, competitors: Json, impactItems: Json, sources: Json)
    ensures var r := WriterFallback(industry, competitors, impactItems, sources);
      && Field(r, "competitors") == Some(competitors)
      && Field(r, "impact_radar") == Some(impactItems)
      && Field(r, "sources") == Some(sources)
  {
    var fs := WriterFallback(industry, competitors, impactItems, sources).fields;
    LookupAt(fs, 2);
    LookupAt(fs, 3);
    LookupAt(fs, 7);
  }

  /** The template's drivers, and where its plan is. */
  lemma WriterDriversShape(industry: string, competitors: Json, impactItems: Json, sources: Json)
    ensures var r := WriterFallback(industry, competitors, impactItems, sources);
      && IsStringList(Field(r, "drivers"), 5)
      && Field(r, "90_day_plan") == Some(WriterPlan)
  {
    var fs := WriterFallback(industry, competitors, impactItems, sources).fields;
    LookupAt(fs, 1);
    LookupAt(fs, 6);
  }

  /** The template's opportunities and risks. */
  lemma WriterListsShape(industry: string, competitors: Json, impactItems: Json, sources: Json)
    ensures var r := WriterFallback(industry, competitors, impactItems, sources);
      && IsStringList(Field(r, "opportunities"), 5)
      && IsStringList(Field(r, "risks"), 5)
  {
    var fs := WriterFallback(industry, competitors, impactItems, sources).fields;
    LookupAt(fs, 4);
    LookupAt(fs, 5);
  }

  /** The template's plan: three windows of two steps each. */
  lemma WriterPlanShape()
    ensures IsPlan(Some(WriterPlan))
  {
    var plan := WriterPlan;
    LookupAt(plan.fields, 0);
    LookupAt(plan.fields, 1);
    LookupAt(plan.fields, 2);
  }

  /**
    `report_writer_agent`, the decoded answer of the server being `data`: the
    result verbatim when there is one; otherwise the template, which names the
    industry in its summary, copies competitors, impact items (as
    impact_radar) and sources verbatim, and has 5 drivers, 5 opportunities,
    5 risks and a plan of three windows with 2 steps each.
   */
  function WriterAgentCall(industry: string, competitors: Json, impactItems: Json, sources: Json, data: Option<Json>): (r: Json)
    ensures McpResult(data).Some? ==> r == McpResult(data).value
    ensures McpResult(data).None? ==>
      && r.Obj? && Keys(r.fields) == ["summary", "drivers", "competitors", "impact_radar", "opportunities", "risks",
                            "90_day_plan", "sources"]
      && Field(r, "summary") == Some(Str(Summary(industry))) && IsSubstring(industry, Summary(industry))
      && Field(r, "competitors") == Some(competitors)
      && Field(r, "impact_radar") == Some(impactItems)
      && Field(r, "sources") == Some(sources)
      && IsStringList(Field(r, "drivers"), 5)
      && IsStringList(Field(r, "opportunities"), 5)
      && IsStringList(Field(r, "risks"), 5)
      && IsPlan(Field(r, "90_day_plan"))
  {
    match McpResult(data)
    case Some(result) => result
    case None =>
      WriterSummaryShape(industry, competitors, impactItems, sources);
      WriterCopiesShape(industry, competitors, impactItems, sources);
      WriterDriversShape(industry, competitors, impactItems, sources);
      WriterListsShape(industry, competitors, impactItems, sources);
      WriterPlanShape();
      WriterFallback(industry, competitors, impactItems, sources)
  }

  /**
    Against the tool server the agent returns what `generate_market_report`
    returns for its data (the model's non-empty dict, or the tool's own
    template filled with the same three values): its own fallback is not
    reached.
   */
  lemma WriterAgentThroughServer(industry: string, competitors: Json, impactItems: Json, sources: Json, w: World, message: string)
    ensures var args := WriterArgs(competitors, impactItems, sources);
      var data := Body(CallTool("generate_market_report", args, w).0, message);
      var parsed := SafeJsonExtract(w.reply, w.parse);
      WriterAgentCall(industry, competitors, impactItems, sources, data)
        == if Usable(parsed) then parsed.value else ReportFallback(competitors, impactItems, sources)
  {
    var args := WriterArgs(competitors, impactItems, sources);
    WriterArgsBind(competitors, impactItems, sources);
    var d := WriterData(competitors, impactItems, sources);
    GenerateMarketReportResolves(d, w);
    McpResultOfServer("generate_market_report", args, w, message);
  }
}
