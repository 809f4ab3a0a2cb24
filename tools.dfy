/**
  The tool bodies of the tool server. Each returns what it observably did
  (logged its name, called the language model) and what it returned or raised.
  The model's reply, the JSON parser, the random draw and the rendering of
  non-string values inside f-strings come from a `World`.
 */
module Tools {
  import opened PyJson
  import opened Extract

  /** What a tool body does besides returning a value. */
  datatype Effect = Logged(tool: string) | ModelCalled

  /** One execution of a tool body: its effects, in order, then its value or exception. */
  datatype Run = Run(effects: seq<Effect>, outcome: Result<Json>)

  /** The collaborators a tool body consults. */
  datatype World = World(
    reply: string,                  // the text `call_ollama` returns; "" when the call failed
    parse: string -> Option<Json>,  // `json.loads`, None where it raises
    roll: nat,                      // the draw behind `random.randint`
    render: Json -> string,         // `str()` of a non-string value interpolated into an f-string
    article: string)                // the fixed text `fetch_url` returns

  /** `random.randint(lo, hi)`, the draw being `roll`. */
  function RandInt(lo: int, hi: int, roll: nat): (r: int)
    requires lo <= hi
    ensures lo <= r <= hi
  {
    lo + roll % (hi - lo + 1)
  }

  /** Every value of the range is the outcome of some draw. */
  lemma RandIntCoversRange(lo: int, hi: int, v: int)
    requires lo <= v <= hi
    ensures exists roll: nat :: RandInt(lo, hi, roll) == v
  {
    var roll: nat := v - lo;
    assert roll % (hi - lo + 1) == roll;
    assert RandInt(lo, hi, roll) == v;
  }

  /** What an f-string shows for a value: a string as it is, anything else through `str()`. */
  function Shown(j: Json, render: Json -> string): string
  {
    if j.Str? then j.s else render(j)
  }

  /** `if parsed:` on the result of `safe_json_extract`. */
  predicate Usable(parsed: Option<Json>)
  {
    parsed.Some? && Truthy(parsed.value)
  }

  /**
    With a parser of RFC 8259 texts, the LLM tools keep the parsed value exactly
    when it is a non-empty dict: None and `{}` both take the fallback.
   */
  lemma UsableIffNonEmptyObject(raw: string, parse: string -> Option<Json>)
    requires Rfc8259Shaped(parse)
    ensures var p := SafeJsonExtract(raw, parse);
      Usable(p) <==> p.Some? && p.value.Obj? && p.value.fields != []
  {
    SafeJsonExtractIsObject(raw, parse);
  }

  // ------------------------------------------------------------------
  // search_web, fetch_url, clean_extract
  // ------------------------------------------------------------------

  const Article1: string := "https://example.com/article1"
  const Article2: string := "https://example.com/article2"

  function SearchHit(title: string, url: string): Json
  {
    Obj([("title", Str(title)), ("url", Str(url))])
  }

  lemma SearchHitFields(title: string, url: string)
    ensures Field(SearchHit(title, url), "title") == Some(Str(title))
    ensures Field(SearchHit(title, url), "url") == Some(Str(url))
  {
    LookupAt(SearchHit(title, url).fields, 0);
    LookupAt(SearchHit(title, url).fields, 1);
  }

  /** A search result with exactly the keys title and url, whose title mentions `q`. */
  predicate IsHitFor(j: Json, q: string, url: string)
  {
    && j.Obj? && Keys(j.fields) == ["title", "url"]
    && Field(j, "url") == Some(Str(url))
    && Field(j, "title").Some? && Field(j, "title").value.Str?
    && IsSubstring(q, Field(j, "title").value.s)
  }

  /** The two simulated results of `search_web` for the query text `q`. */
  function SearchHits(q: string): (r: seq<Json>)
    ensures |r| == 2 && IsHitFor(r[0], q, Article1) && IsHitFor(r[1], q, Article2)
  {
    SubstringOfConcat("RBI update impacts ", q, "");
    SubstringOfConcat("", q, " sector faces regulatory pressure");
    assert "RBI update impacts " + q + "" == "RBI update impacts " + q;
    assert "" + q + " sector faces regulatory pressure" == q + " sector faces regulatory pressure";
    SearchHitFields("RBI update impacts " + q, Article1);
    SearchHitFields(q + " sector faces regulatory pressure", Article2);
    [SearchHit("RBI update impacts " + q, Article1), SearchHit(q + " sector faces regulatory pressure", Article2)]
  }

  /** `search_web(query)`: logs, and returns the two simulated results; never consults the model. */
  function SearchWeb(query: Json, w: World): (r: Run)
    ensures r.effects == [Logged("search_web")]
    ensures r.outcome == Ok(Arr(SearchHits(Shown(query, w.render))))
  {
    Run([Logged("search_web")], Ok(Arr(SearchHits(Shown(query, w.render)))))
  }

  /** `fetch_url(url)`: logs, and returns the fixed article text whatever the url. */
  function FetchUrl(url: Json, w: World): (r: Run)
    ensures r.outcome == Ok(Str(w.article))
  {
    Run([Logged("fetch_url")], Ok(Str(w.article)))
  }

  /** The characters `str.isspace` accepts among ASCII: tab to carriage return, 0x1C to 0x1F, space. */
  predicate IsSpace(c: char)
  {
    9 <= c as int <= 13 || 28 <= c as int <= 32
  }

  function TrimLeft(s: string): (r: string)
    ensures |r| <= |s| && r == s[|s| - |r|..]
    ensures r == [] || !IsSpace(r[0])
    ensures forall k :: 0 <= k < |s| - |r| ==> IsSpace(s[k])
  {
    if s != [] && IsSpace(s[0]) then TrimLeft(s[1..]) else s
  }

  function TrimRight(s: string): (r: string)
    ensures |r| <= |s| && r == s[..|r|]
    ensures r == [] || !IsSpace(r[|r| - 1])
    ensures forall k :: |r| <= k < |s| ==> IsSpace(s[k])
  {
    if s != [] && IsSpace(s[|s| - 1]) then TrimRight(s[..|s| - 1]) else s
  }

  /** `str.strip()`. */
  function Strip(s: string): string
  {
    TrimLeft(TrimRight(s))
  }

  /**
    `strip` removes whitespace only, and all of it at both ends: the result is a
    slice `s[i..j]`, everything outside it is whitespace, and it neither starts
    nor ends with whitespace.
   */
  lemma StripSpec(s: string)
    ensures var r := Strip(s);
      var j := |TrimRight(s)|;
      var i := j - |r|;
      && 0 <= i <= j <= |s| && r == s[i..j]
      && (forall k :: 0 <= k < i ==> IsSpace(s[k]))
      && (forall k :: j <= k < |s| ==> IsSpace(s[k]))
      && (r == [] || (!IsSpace(r[0]) && !IsSpace(r[|r| - 1])))
  {
    var t := TrimRight(s);
    var r := TrimLeft(t);
    var i := |t| - |r|;
    assert t == s[..|t|];
    assert r == t[i..];
    assert r == s[i..|t|];
    forall k | 0 <= k < i ensures IsSpace(s[k]) {
      assert s[k] == t[k];
    }
    if r != [] {
      assert r[|r| - 1] == t[|t| - 1];
    }
  }

  /** `clean_extract` is idempotent: stripping a stripped text changes nothing. */
  lemma StripIdempotent(s: string)
    ensures Strip(Strip(s)) == Strip(s)
  {
    var r := Strip(s);
    StripSpec(s);
    if r != [] {
      assert TrimRight(r) == r;
      assert TrimLeft(r) == r;
    }
  }

  /** `clean_extract(raw_text)`: the stripped text; only strings have `strip`. */
  function CleanExtract(rawText: Json, w: World): (r: Run)
    ensures r.effects == [Logged("clean_extract")]
    ensures r.outcome.Ok? <==> rawText.Str?
    ensures r.outcome.Ok? ==> r.outcome.value == Str(Strip(rawText.s))
    ensures r.outcome.Raise? ==> r.outcome.exc == AttributeError
  {
    Run([Logged("clean_extract")], if rawText.Str? then Ok(Str(Strip(rawText.s))) else Raise(AttributeError))
  }

  // ------------------------------------------------------------------
  // extract_entities
  // ------------------------------------------------------------------

  /** The canned entity set: two competitors, three themes, no pricing models. */
  const EntitiesFallback: Json :=
    Obj([("competitors", Arr(Strings(["Bajaj Finance", "Paytm Payments Bank"]))),
         ("themes", Arr(Strings(["regulation", "compliance", "risk"]))),
         ("pricing_models", Arr([]))])

  /** `extract_entities(text)`: the model's object when it is truthy, the canned set otherwise. */
  function ExtractEntities(text: Json, w: World): (r: Run)
    ensures r.effects == [Logged("extract_entities"), ModelCalled]
    ensures r.outcome.Ok?
    ensures Usable(SafeJsonExtract(w.reply, w.parse)) ==> r.outcome.value == SafeJsonExtract(w.reply, w.parse).value
    ensures !Usable(SafeJsonExtract(w.reply, w.parse)) ==> r.outcome.value == EntitiesFallback
  {
    var parsed := SafeJsonExtract(w.reply, w.parse);
    Run([Logged("extract_entities"), ModelCalled], Ok(if Usable(parsed) then parsed.value else EntitiesFallback))
  }

  /** The fallback entity set has exactly the three keys, and names the two fixed competitors. */
  lemma EntitiesFallbackShape()
    ensures Keys(EntitiesFallback.fields) == ["competitors", "themes", "pricing_models"]
    ensures Field(EntitiesFallback, "competitors") == Some(Arr([Str("Bajaj Finance"), Str("Paytm Payments Bank")]))
    ensures Field(EntitiesFallback, "pricing_models") == Some(Arr([]))
  {
    LookupAt(EntitiesFallback.fields, 0);
    LookupAt(EntitiesFallback.fields, 2);
    assert Strings(["Bajaj Finance", "Paytm Payments Bank"]) == [Str("Bajaj Finance"), Str("Paytm Payments Bank")];
  }

  // ------------------------------------------------------------------
  // impact_score
  // ------------------------------------------------------------------

  /** An impact item: event, impact_level, score, why, actions, url, in that order. */
  function ImpactEntry(event: Json, level: string, score: int, why: seq<string>, actions: seq<string>, url: Json): Json
  {
    Obj([("event", event), ("impact_level", Str(level)), ("score", Num(score)),
         ("why", Arr(Strings(why))), ("actions", Arr(Strings(actions))), ("url", url)])
  }

  /** An impact item's event, level and url, read back through its keys. */
  predicate IsImpact(j: Json, event: Json, level: string, url: Json)
  {
    && Field(j, "event") == Some(event)
    && Field(j, "impact_level") == Some(Str(level))
    && Field(j, "url") == Some(url)
  }

  /** An impact item whose score is a number in [lo, hi]. */
  predicate ScoreIn(j: Json, lo: int, hi: int)
  {
    Field(j, "score").Some? && Field(j, "score").value.Num? && lo <= Field(j, "score").value.n <= hi
  }

  lemma ImpactEntryFields(event: Json, level: string, score: int, why: seq<string>, actions: seq<string>, url: Json)
    ensures var e := ImpactEntry(event, level, score, why, actions, url);
      && IsImpact(e, event, level, url) && Field(e, "score") == Some(Num(score))
      && Keys(e.fields) == ["event", "impact_level", "score", "why", "actions", "url"]
  {
    var fs := ImpactEntry(event, level, score, why, actions, url).fields;
    LookupAt(fs, 0);
    LookupAt(fs, 1);
    LookupAt(fs, 2);
    LookupAt(fs, 5);
  }

  /** The banding the fallbacks keep to: Low below 50, Medium 50 to 74, High 75 and above. */
  predicate InBand(level: string, score: int)
  {
    || (level == "Low" && score < 50)
    || (level == "Medium" && 50 <= score < 75)
    || (level == "High" && 75 <= score)
  }

  const RegulatoryKeywords: seq<string> := ["rbi", "regulation", "compliance", "guideline"]

  /** `any(word in title.lower() for word in [...])`. */
  predicate MentionsRegulation(title: string)
  {
    exists k :: k in RegulatoryKeywords && IsSubstring(k, Lower(title))
  }

  /** The deterministic branch of `impact_score`, after the model gave nothing usable. */
  function ImpactFallback(item: Json, roll: nat): (r: Result<Json>)
    ensures r.Ok? <==> GetItem(item, "title").Ok? && GetItem(item, "title").value.Str? && GetItem(item, "url").Ok?
    ensures GetItem(item, "title").Raise? ==> r == Raise(GetItem(item, "title").exc)
    ensures GetItem(item, "title").Ok? && !GetItem(item, "title").value.Str? ==> r == Raise(AttributeError)
  {
    match GetItem(item, "title")
    case Raise(e) => Raise(e)
    case Ok(title) =>
      if !title.Str? then Raise(AttributeError)  // only strings have `lower`
      else
        match GetItem(item, "url")
        case Raise(e) => Raise(e)
        case Ok(url) =>
          if MentionsRegulation(title.s) then
            Ok(ImpactEntry(title, "High", RandInt(75, 90, roll),
              ["Introduces operational and compliance burden", "May require policy and workflow changes"],
              ["Conduct internal compliance audit", "Update governance and risk processes"], url))
          else
            Ok(ImpactEntry(title, "Medium", RandInt(50, 70, roll),
              ["Relevant to sector monitoring"], ["Track developments"], url))
  }

  /** The item's level and score agree with the banding. */
  predicate BandConsistent(j: Json)
  {
    && Field(j, "impact_level").Some? && Field(j, "impact_level").value.Str?
    && Field(j, "score").Some? && Field(j, "score").value.Num?
    && InBand(Field(j, "impact_level").value.s, Field(j, "score").value.n)
  }

  /**
    The keyword banding: a title mentioning rbi, regulation, compliance or
    guideline (in any ASCII case) is High with a score in [75, 90]; any other
    title is Medium with a score in [50, 70]; event and url are the item's.
    This holds for any dict with a string title and a url, whatever its key order.
   */
  lemma ImpactFallbackBands(item: Json, title: string, url: Json, roll: nat)
    requires GetItem(item, "title") == Ok(Str(title)) && GetItem(item, "url") == Ok(url)
    ensures var r := ImpactFallback(item, roll);
      && r.Ok? && BandConsistent(r.value)
      && (MentionsRegulation(title) ==> IsImpact(r.value, Str(title), "High", url) && ScoreIn(r.value, 75, 90))
      && (!MentionsRegulation(title) ==> IsImpact(r.value, Str(title), "Medium", url) && ScoreIn(r.value, 50, 70))
  {
    if MentionsRegulation(title) {
      ImpactEntryFields(Str(title), "High", RandInt(75, 90, roll),
        ["Introduces operational and compliance burden", "May require policy and workflow changes"],
        ["Conduct internal compliance audit", "Update governance and risk processes"], url);
    } else {
      ImpactEntryFields(Str(title), "Medium", RandInt(50, 70, roll), ["Relevant to sector monitoring"], ["Track developments"], url);
    }
  }

  /** `impact_score(item, context)`. */
  function ImpactScore(item: Json, context: Json, w: World): (r: Run)
    ensures GetItem(item, "title").Raise? ==> r == Run([Logged("impact_score")], Raise(GetItem(item, "title").exc))
    ensures GetItem(item, "title").Ok? ==> r.effects == [Logged("impact_score"), ModelCalled]
    ensures !Usable(SafeJsonExtract(w.reply, w.parse)) ==> r.outcome == ImpactFallback(item, w.roll)
  {
    match GetItem(item, "title")
    case Raise(e) => Run([Logged("impact_score")], Raise(e))  // the prompt reads item['title'] before the model call
    case Ok(_) =>
      var parsed := SafeJsonExtract(w.reply, w.parse);
      Run([Logged("impact_score"), ModelCalled],
        if Usable(parsed) then
          match GetItem(item, "url")
          case Raise(e) => Raise(e)
          case Ok(url) => SetItem(parsed.value, "url", url)
        else ImpactFallback(item, w.roll))
  }

  /**
    On the model path `impact_score` returns the parsed object with `url`
    replaced by the item's url; every other key reads as the model gave it.
   */
  lemma ImpactScoreOverwritesUrl(item: Json, context: Json, w: World)
    requires Rfc8259Shaped(w.parse)
    requires Usable(SafeJsonExtract(w.reply, w.parse))
    requires item.Obj? && "title" in Keys(item.fields) && "url" in Keys(item.fields)
    ensures var parsed := SafeJsonExtract(w.reply, w.parse).value;
      var r := ImpactScore(item, context, w).outcome;
      && r.Ok? && parsed.Obj?
      && Field(r.value, "url") == Field(item, "url")
      && forall k :: k != "url" ==> Field(r.value, k) == Field(parsed, k)
  {
    var parsed := SafeJsonExtract(w.reply, w.parse).value;
    SafeJsonExtractIsObject(w.reply, w.parse);
    var url := GetItem(item, "url").value;
    AssignSpec(parsed.fields, "url", url);
  }

  // ------------------------------------------------------------------
  // generate_market_report
  // ------------------------------------------------------------------

  /** The template report, filled with the caller's competitors, impact items and sources. */
  function ReportFallback(competitors: Json, impactItems: Json, sources: Json): Json
  {
    Obj([
      ("summary", Str("NBFC sector is facing regulatory tightening and rising competitive pressure.")),
      ("drivers", Arr(Strings(["Regulatory changes", "Fintech disruption", "Digital transformation"]))),
      ("competitors", competitors),
      ("impact_radar", impactItems),
      ("opportunities", Arr(Strings(["Automation of lending", "Fintech partnerships", "Rural credit expansion",
                                     "AI underwriting", "New digital products"]))),
      ("risks", Arr(Strings(["Higher compliance cost", "Margin pressure", "Operational inefficiencies",
                             "Cyber risk", "Policy uncertainty"]))),
      ("90_day_plan", Obj([
        ("0_30", Arr(Strings(["Review compliance posture", "Audit risk processes"]))),
        ("30_60", Arr(Strings(["Upgrade internal systems", "Explore partnerships"]))),
        ("60_90", Arr(Strings(["Launch pilots", "Scale improvements"])))])),
      ("sources", sources)])
  }

  /** A list of `n` strings. */
  predicate IsStringList(j: Option<Json>, n: nat)
  {
    j.Some? && j.value.Arr? && |j.value.items| == n && AllStrings(j.value.items)
  }

  /** The plan has the three windows, two steps each. */
  predicate IsPlan(j: Option<Json>)
  {
    && j.Some? && j.value.Obj?
    && Keys(j.value.fields) == ["0_30", "30_60", "60_90"]
    && IsStringList(Field(j.value, "0_30"), 2)
    && IsStringList(Field(j.value, "30_60"), 2)
    && IsStringList(Field(j.value, "60_90"), 2)
  }

  /** The template's plan: three windows of two steps each. */
  lemma ReportPlanShape(competitors: Json, impactItems: Json, sources: Json)
    ensures IsPlan(Some(ReportFallback(competitors, impactItems, sources).fields[6].1))
  {
    var plan := ReportFallback(competitors, impactItems, sources).fields[6].1;
    LookupAt(plan.fields, 0);
    LookupAt(plan.fields, 1);
    LookupAt(plan.fields, 2);
  }

  /** The template's drivers and plan. */
  lemma ReportDriversShape(competitors: Json, impactItems: Json, sources: Json)
    ensures var r := ReportFallback(competitors, impactItems, sources);
      && IsStringList(Field(r, "drivers"), 3)
      && Field(r, "90_day_plan") == Some(r.fields[6].1)
  {
    var fs := ReportFallback(competitors, impactItems, sources).fields;
    LookupAt(fs, 1);
    LookupAt(fs, 6);
  }

  /** The template's opportunities and risks. */
  lemma ReportListsShape(competitors: Json, impactItems: Json, sources: Json)
    ensures var r := ReportFallback(competitors, impactItems, sources);
      && IsStringList(Field(r, "opportunities"), 5)
      && IsStringList(Field(r, "risks"), 5)
  {
    var fs := ReportFallback(competitors, impactItems, sources).fields;
    LookupAt(fs, 4);
    LookupAt(fs, 5);
  }

  /** The template's copied values. */
  lemma ReportCopiesShape(competitors: Json, impactItems: Json, sources: Json)
    ensures var r := ReportFallback(competitors, impactItems, sources);
      && Field(r, "competitors") == Some(competitors)
      && Field(r, "impact_radar") == Some(impactItems)
      && Field(r, "sources") == Some(sources)
  {
    var fs := ReportFallback(competitors, impactItems, sources).fields;
    LookupAt(fs, 2);
    LookupAt(fs, 3);
    LookupAt(fs, 7);
  }

  /**
    The template copies competitors, impact items (as impact_radar) and sources
    verbatim, and has 3 drivers, 5 opportunities, 5 risks and a plan of three
    windows with 2 steps each.
   */
  lemma ReportFallbackShape(competitors: Json, impactItems: Json, sources: Json)
    ensures var r := ReportFallback(competitors, impactItems, sources);
      && Keys(r.fields) == ["summary", "drivers", "competitors", "impact_radar", "opportunities", "risks",
                            "90_day_plan", "sources"]
      && Field(r, "competitors") == Some(competitors)
      && Field(r, "impact_radar") == Some(impactItems)
      && Field(r, "sources") == Some(sources)
      && IsStringList(Field(r, "drivers"), 3)
      && IsStringList(Field(r, "opportunities"), 5)
      && IsStringList(Field(r, "risks"), 5)
      && IsPlan(Field(r, "90_day_plan"))
  {
    ReportPlanShape(competitors, impactItems, sources);
    ReportDriversShape(competitors, impactItems, sources);
    ReportListsShape(competitors, impactItems, sources);
    ReportCopiesShape(competitors, impactItems, sources);
  }

  /** `generate_market_report(data)`. */
  function GenerateMarketReport(data: Json, w: World): (r: Run)
    ensures r.outcome.Raise? <==>
      !(data.Obj? && "competitors" in Keys(data.fields) && "impact_items" in Keys(data.fields) && "sources" in Keys(data.fields))
    ensures r.outcome.Raise? ==> r.outcome.exc == (if data.Obj? then KeyError else TypeError)
    ensures r.outcome.Raise? ==> r.effects == [Logged("generate_market_report")]
  {
    // the prompt reads data['competitors'], data['impact_items'] and data['sources'] before the model call
    match GetItem(data, "competitors")
    case Raise(e) => Run([Logged("generate_market_report")], Raise(e))
    case Ok(competitors) =>
      match GetItem(data, "impact_items")
      case Raise(e) => Run([Logged("generate_market_report")], Raise(e))
      case Ok(impactItems) =>
        match GetItem(data, "sources")
        case Raise(e) => Run([Logged("generate_market_report")], Raise(e))
        case Ok(sources) =>
          var parsed := SafeJsonExtract(w.reply, w.parse);
          Run([Logged("generate_market_report"), ModelCalled],
            Ok(if Usable(parsed) then parsed.value else ReportFallback(competitors, impactItems, sources)))
  }

  /**
    A dict holding the three keys always yields a report: the model's object
    when it is a non-empty dict, the template filled with the dict's values
    otherwise.
   */
  lemma GenerateMarketReportResolves(data: Json, w: World)
    requires data.Obj?
    requires "competitors" in Keys(data.fields) && "impact_items" in Keys(data.fields) && "sources" in Keys(data.fields)
    ensures var r := GenerateMarketReport(data, w);
      var parsed := SafeJsonExtract(w.reply, w.parse);
      && r.effects == [Logged("generate_market_report"), ModelCalled]
      && r.outcome == Ok(if Usable(parsed) then parsed.value
                         else ReportFallback(Field(data, "competitors").value, Field(data, "impact_items").value,
                                             Field(data, "sources").value))
  {
  }
}
