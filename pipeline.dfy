/**
  `run_full_pipeline(industry, ...)`: collect sources, extract entities from a
  fixed sample text, score one impact item per source, pad the impact items
  to at least ten, and hand everything to the report writer.
 */
module Pipeline {
  import opened PyJson
  import opened Extract
  import opened Tools
  import opened Server
  import opened McpClient
  import opened ImpactAgent
  import opened ExtractorAgent
  import opened WriterAgent
  import opened Collector

  /** The answers the pipeline's collaborators give. */
  datatype Backends = Backends(
    queryReply: string,                    // the model's reply to the collector's prompt
    parse: string -> Option<Json>,         // `json.loads`, None where it raises
    search: Json -> Option<Json>,          // the decoded answer to `search_web` for a query
    extractAnswer: Option<Json>,           // the decoded answer to `extract_entities`
    impactAnswer: nat -> Option<Json>,     // the decoded answer to the i-th `impact_score` call
    writerAnswer: Option<Json>)            // the decoded answer to `generate_market_report`

  /** The article text the extractor is given in place of fetched content. */
  const SampleText: string :=
    "\n    RBI introduced new compliance guidelines affecting NBFCs such as Bajaj Finance\n"
    + "    and Paytm Payments Bank. These regulations are expected to increase operational costs.\n    "

  /** What the extractor agent returns to the pipeline. */
  function Extracted(b: Backends): Json
  {
    ExtractorAgentCall(Str(SampleText), b.extractAnswer)
  }

  /** The item inserted when no source was scored. */
  const Placeholder: Json :=
    ImpactEntry(Str("No reliable events extracted"), "Low", 30, ["Insufficient data from sources"],
      ["Retry with different query"], Str(""))

  lemma PlaceholderShape()
    ensures IsImpact(Placeholder, Str("No reliable events extracted"), "Low", Str(""))
    ensures Field(Placeholder, "score") == Some(Num(30)) && BandConsistent(Placeholder)
  {
    ImpactEntryFields(Str("No reliable events extracted"), "Low", 30, ["Insufficient data from sources"],
      ["Retry with different query"], Str(""));
  }

  /** The exception `s["title"]` or, after it, `s["url"]` raises, if any. */
  function SourceError(s: Json): (e: Option<Exc>)
    ensures e.None? <==> s.Obj? && "title" in Keys(s.fields) && "url" in Keys(s.fields)
  {
    match GetItem(s, "title")
    case Raise(e) => Some(e)
    case Ok(_) =>
      match GetItem(s, "url")
      case Raise(e) => Some(e)
      case Ok(_) => None
  }

  /** The impact agent's item for source `s`, the answer to its call being `answer`. */
  function ScoredItem(s: Json, extracted: Json, answer: Option<Json>): Json
    requires SourceError(s).None?
  {
    ImpactAgentCall(GetItem(s, "title").value, extracted, GetItem(s, "url").value, answer)
  }

  /** The exception the impact loop stops with: that of the first source lacking a title or a url. */
  function FirstSourceError(sources: seq<Json>): (e: Option<Exc>)
    ensures e.None? <==> forall i :: 0 <= i < |sources| ==> SourceError(sources[i]).None?
    ensures e.Some? ==>
      exists k :: 0 <= k < |sources| && SourceError(sources[k]) == e &&
        forall j :: 0 <= j < k ==> SourceError(sources[j]).None?
  {
    if sources == [] then None
    else if SourceError(sources[0]).Some? then SourceError(sources[0])
    else
      assert forall i :: 1 <= i < |sources| ==> sources[1..][i - 1] == sources[i];
      FirstSourceError(sources[1..])
  }

  /** The first failing source decides the exception. */
  lemma {:induction false} FirstSourceErrorAt(sources: seq<Json>, k: nat)
    requires k < |sources| && SourceError(sources[k]).Some?
    requires forall j :: 0 <= j < k ==> SourceError(sources[j]).None?
    ensures FirstSourceError(sources) == SourceError(sources[k])
  {
    if k > 0 {
      assert SourceError(sources[0]).None?;
      assert sources[1..][k - 1] == sources[k];
      FirstSourceErrorAt(sources[1..], k - 1);
    }
  }

  /** The items of the impact loop when every source has a title and a url. */
  function ScoredItems(sources: seq<Json>, extracted: Json, answers: nat -> Option<Json>): (items: seq<Json>)
    requires forall i :: 0 <= i < |sources| ==> SourceError(sources[i]).None?
  {
    seq(|sources|, i requires 0 <= i < |sources| => ScoredItem(sources[i], extracted, answers(i)))
  }

  /**
    The impact loop: one impact item per source, in source order, the i-th
    from the i-th call; the first source without a title or a url stops the
    pipeline with the exception of its subscript.
   */
  method ScoreSources(sources: seq<Json>, extracted: Json, answers: nat -> Option<Json>) returns (r: Result<seq<Json>>)
    ensures r.Ok? <==> forall i :: 0 <= i < |sources| ==> SourceError(sources[i]).None?
    ensures r.Ok? ==> |r.value| == |sources|
    ensures r.Ok? ==> forall i :: 0 <= i < |sources| ==> r.value[i] == ScoredItem(sources[i], extracted, answers(i))
    ensures r.Raise? ==>
      exists k :: 0 <= k < |sources| && SourceError(sources[k]) == Some(r.exc) &&
        forall j :: 0 <= j < k ==> SourceError(sources[j]).None?
    ensures r.Raise? ==> FirstSourceError(sources) == Some(r.exc)
  {
    var items: seq<Json> := [];
    var i := 0;
    while i < |sources|
      invariant 0 <= i <= |sources| && |items| == i
      invariant forall j :: 0 <= j < i ==> SourceError(sources[j]).None?
      invariant forall j :: 0 <= j < i ==> items[j] == ScoredItem(sources[j], extracted, answers(j))
    {
      var s := sources[i];
      var title := GetItem(s, "title");
      if title.Raise? {
        FirstSourceErrorAt(sources, i);
        return Raise(title.exc);
      }
      var url := GetItem(s, "url");
      if url.Raise? {
        FirstSourceErrorAt(sources, i);
        return Raise(url.exc);
      }
      items := items + [ImpactAgentCall(title.value, extracted, url.value, answers(i))];
      i := i + 1;
    }
    return Ok(items);
  }

  /** Whether the item has a `copy` method (dicts and lists do). */
  predicate HasCopy(j: Json)
  {
    j.Obj? || j.Arr?
  }

  function Max(a: int, b: int): int
  {
    if a < b then b else a
  }

  /** The impact items after the placeholder and the padding, or the exception `copy` raises. */
  function Padded(items: seq<Json>): Result<seq<Json>>
  {
    var base := if items == [] then [Placeholder] else items;
    var last := base[|base| - 1];
    if |base| < 10 && !HasCopy(last) then Raise(AttributeError)
    else Ok(base + seq(Max(|base|, 10) - |base|, _ => last))
  }

  /**
    The placeholder and the padding: with no items a single placeholder
    comes first; then copies of the last item are appended until there are
    ten. The items already there are unchanged, every appended entry equals
    the last item, and the length is max(n, 10). Copying fails only for a
    last item that is neither a dict nor a list.
   */
  method PadImpactItems(items: seq<Json>) returns (r: Result<seq<Json>>)
    ensures r.Raise? <==> 0 < |items| < 10 && !HasCopy(items[|items| - 1])
    ensures r.Raise? ==> r.exc == AttributeError
    ensures r.Ok? ==> |r.value| == Max(|items|, 10)
    ensures r.Ok? ==> r.value[..|items|] == items
    ensures r.Ok? && items != [] ==> forall i :: |items| <= i < |r.value| ==> r.value[i] == items[|items| - 1]
    ensures items == [] ==> r == Ok(seq(10, i => Placeholder))
    ensures r == Padded(items)
  {
    var list := items;
    if list == [] {
      list := list + [Placeholder];
    }
    ghost var last := list[|list| - 1];
    ghost var start := |list|;
    while |list| < 10
      invariant start <= |list| && list[..start] == if items == [] then [Placeholder] else items
      invariant list != [] && list[|list| - 1] == last
      invariant forall i :: start <= i < |list| ==> list[i] == last
      invariant |list| > start ==> HasCopy(last)
      invariant |list| <= Max(start, 10)
      decreases 10 - |list|
    {
      var tail := list[|list| - 1];
      if !HasCopy(tail) {
        return Raise(AttributeError);   // only dicts and lists have `copy`
      }
      list := list + [tail];
    }
    if items == [] {
      assert last == Placeholder;
      assert forall i :: 0 <= i < |list| ==> list[i] == Placeholder;
      assert list == seq(10, i => Placeholder);
    }
    ghost var base := if items == [] then [Placeholder] else items;
    assert list == base + seq(Max(|base|, 10) - |base|, _ => last);
    return Ok(list);
  }

  /** `[s["url"] for s in sources]`. */
  function UrlsOf(sources: seq<Json>): (r: Result<seq<Json>>)
    ensures r.Ok? <==> forall i :: 0 <= i < |sources| ==> GetItem(sources[i], "url").Ok?
    ensures r.Ok? ==> |r.value| == |sources| && forall i :: 0 <= i < |sources| ==> GetItem(sources[i], "url") == Ok(r.value[i])
  {
    if sources == [] then Ok([])
    else
      match UrlsOf(sources[..|sources| - 1])
      case Raise(e) => Raise(e)
      case Ok(init) =>
        match GetItem(sources[|sources| - 1], "url")
        case Raise(e) => Raise(e)
        case Ok(u) => Ok(init + [u])
  }

  /** The collected sources, when the collection succeeds. */
  function Sources(industry: string, b: Backends): Result<seq<Json>>
  {
    Gathered(Queries(industry, b.queryReply, b.parse), b.search)
  }

  /** What the writer agent is handed: the competitors, the padded impact items and the urls. */
  datatype WriterInput = WriterInput(competitors: Json, items: seq<Json>, urls: seq<Json>)

  /**
    The writer's arguments, or the exception that escapes `run_full_pipeline`
    first, in the order the code meets them: collecting the sources, reading
    each source's title and url, copying the last impact item, and reading
    the extractor's competitors.
   */
  function PipelineInput(industry: string, b: Backends): Result<WriterInput>
  {
    match Sources(industry, b)
    case Raise(e) => Raise(e)
    case Ok(sources) =>
      match FirstSourceError(sources)
      case Some(e) => Raise(e)
      case None =>
        match Padded(ScoredItems(sources, Extracted(b), b.impactAnswer))
        case Raise(e) => Raise(e)
        case Ok(items) =>
          match GetOr(Extracted(b), "competitors", Arr([]))
          case Raise(e) => Raise(e)
          case Ok(competitors) => Ok(WriterInput(competitors, items, UrlsOf(sources).value))
  }

  /** The report `run_full_pipeline` returns, or the exception that escapes it. */
  function PipelineReport(industry: string, b: Backends): Result<Json>
  {
    match PipelineInput(industry, b)
    case Raise(e) => Raise(e)
    case Ok(input) => Ok(WriterAgentCall(industry, input.competitors, Arr(input.items), Arr(input.urls), b.writerAnswer))
  }

  /**
    The pipeline raises exactly when the collection fails, a source lacks a
    title or a url, fewer than ten items end with one that has no `copy`, or
    the extractor's answer is not a dict.
   */
  lemma PipelineRaisesIff(industry: string, b: Backends)
    ensures var s := Sources(industry, b);
      PipelineReport(industry, b).Raise? <==>
        || s.Raise?
        || (exists i :: 0 <= i < |s.value| && SourceError(s.value[i]).Some?)
        || (0 < |s.value| < 10 && SourceError(s.value[|s.value| - 1]).None?
            && !HasCopy(ScoredItem(s.value[|s.value| - 1], Extracted(b), b.impactAnswer(|s.value| - 1))))
        || !Extracted(b).Obj?
  {
    assert PipelineReport(industry, b).Raise? <==> PipelineInput(industry, b).Raise?;
    var s := Sources(industry, b);
    if s.Ok? && FirstSourceError(s.value).None? {
      var items := ScoredItems(s.value, Extracted(b), b.impactAnswer);
      if 0 < |s.value| {
        assert items[|items| - 1] == ScoredItem(s.value[|s.value| - 1], Extracted(b), b.impactAnswer(|s.value| - 1));
      }
    }
  }

  /** Each failure surfaces as its own exception, the first in code order winning. */
  lemma PipelineRaisesWhat(industry: string, b: Backends)
    ensures Sources(industry, b).Raise? ==> PipelineReport(industry, b) == Raise(Sources(industry, b).exc)
    ensures Sources(industry, b).Ok? && FirstSourceError(Sources(industry, b).value).Some? ==>
      PipelineReport(industry, b) == Raise(FirstSourceError(Sources(industry, b).value).value)
    ensures Sources(industry, b).Ok? && FirstSourceError(Sources(industry, b).value).None? && !Extracted(b).Obj? ==>
      PipelineReport(industry, b) == Raise(AttributeError)
  {
  }

  /** The padded list keeps the items, reaches max(n, 10), and repeats the last item. */
  lemma PaddedShape(items: seq<Json>)
    requires Padded(items).Ok?
    ensures |Padded(items).value| == Max(|items|, 10)
    ensures Padded(items).value[..|items|] == items
  {
    var base := if items == [] then [Placeholder] else items;
    assert Padded(items).value[..|base|] == base;
    if items != [] {
      assert base == items;
    }
  }

  /**
    When the pipeline gets to the writer, the sources were collected; the
    writer gets one url per source in source order, max(n, 10) impact items
    starting with one item per source in source order, and the extractor's
    competitors (or `[]` when that dict has none).
   */
  lemma PipelineInputShape(industry: string, b: Backends)
    requires PipelineInput(industry, b).Ok?
    ensures Sources(industry, b).Ok?
    ensures var sources := Sources(industry, b).value;
      var input := PipelineInput(industry, b).value;
      && |input.urls| == |sources|
      && (forall i :: 0 <= i < |sources| ==> GetItem(sources[i], "url") == Ok(input.urls[i]))
      && |input.items| == Max(|sources|, 10)
      && (forall i :: 0 <= i < |sources| ==>
            SourceError(sources[i]).None? && input.items[i] == ScoredItem(sources[i], Extracted(b), b.impactAnswer(i)))
      && GetOr(Extracted(b), "competitors", Arr([])) == Ok(input.competitors)
  {
    var sources := Sources(industry, b).value;
    var scored := ScoredItems(sources, Extracted(b), b.impactAnswer);
    PaddedShape(scored);
    var items := Padded(scored).value;
    assert forall i :: 0 <= i < |sources| ==> items[i] == items[..|scored|][i];
  }

  /**
    `run_full_pipeline`: the report, and the impact items and urls the writer
    was given. The report is the reference pipeline's; when it comes back, the
    writer got exactly the reference's impact items and urls.
   */
  method RunFullPipeline(industry: string, b: Backends) returns (report: Result<Json>, impactItems: seq<Json>, urls: seq<Json>)
    ensures report == PipelineReport(industry, b)
    ensures report.Ok? ==>
      && PipelineInput(industry, b).Ok?
      && impactItems == PipelineInput(industry, b).value.items
      && urls == PipelineInput(industry, b).value.urls
  {
    impactItems, urls := [], [];
    var sources, _ := CollectorAgent(industry, b.queryReply, b.parse, b.search);
    assert sources == Sources(industry, b);
    if sources.Raise? {
      return Raise(sources.exc), impactItems, urls;
    }
    var extracted := ExtractorAgentCall(Str(SampleText), b.extractAnswer);
    assert extracted == Extracted(b);
    var scored := ScoreSources(sources.value, extracted, b.impactAnswer);
    if scored.Raise? {
      assert PipelineInput(industry, b) == Raise(scored.exc);
      return Raise(scored.exc), impactItems, urls;
    }
    assert FirstSourceError(sources.value).None?;
    assert scored.value == ScoredItems(sources.value, extracted, b.impactAnswer);
    var padded := PadImpactItems(scored.value);
    if padded.Raise? {
      assert PipelineInput(industry, b) == Raise(padded.exc);
      return Raise(padded.exc), impactItems, urls;
    }
    impactItems := padded.value;
    var competitors := GetOr(extracted, "competitors", Arr([]));
    if competitors.Raise? {
      assert PipelineInput(industry, b) == Raise(competitors.exc);
      return Raise(competitors.exc), impactItems, urls;
    }
    var sent := UrlsOf(sources.value);
    if sent.Raise? {
      assert false;   // every source already had a url in the impact loop
    }
    urls := sent.value;
    assert PipelineInput(industry, b) == Ok(WriterInput(competitors.value, impactItems, urls));
    report := Ok(WriterAgentCall(industry, competitors.value, Arr(impactItems), Arr(urls), b.writerAnswer));
  }
}
