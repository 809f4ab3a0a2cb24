# Market-intelligence backend, modelled in Dafny

The system turns a request to analyse an industry into a structured market report. It has three parts:

- **Tool server.** A route `POST /tool/{name}` with body `{"args": {...}}` dispatches to six tools: `search_web`, `fetch_url`, `clean_extract`, `extract_entities`, `impact_score` and `generate_market_report`. The last three ask a local language model for JSON. They read the first `{ ... }` fragment of its reply (`safe_json_extract`), and fall back to fixed content when that gives nothing truthy.
- **Agents.** The collector asks the model for search queries and reads the first `[ ... ]` fragment of its reply as the query list. It runs `search_web` once per query and concatenates the hits. The extractor, impact and writer agents each call one tool and fall back to fixed content on any failure.
- **Pipeline and API.**
  - `run_full_pipeline` scores one impact item per source. It inserts a placeholder when there are none and pads the list to at least ten by copying the last item. It then hands everything to the writer.
  - `POST /analyze` stores the report under a fresh id.
  - `POST /chat` answers questions about a stored report by keyword.

The model keeps the decision logic and treats every collaborator as an input:

- the model's replies;
- `json.loads`;
- the random draw;
- the HTTP answers the agents decode.

Module by module:

- `PyJson` (json.dfy): JSON values as Python holds them. Dicts keep insertion order. It also has the Python operations the code applies to them (subscript, `get`, `in`, item assignment, iteration, `lower`, `join`), each with the exception Python raises where the operation does not apply.
- `Extract` (extract.dfy): the fragment locator behind both regular expressions, and `safe_json_extract`. `json.loads` is a parameter. The predicate `Rfc8259Shaped` collects what any RFC 8259 parser guarantees and the proofs rely on:
  - a text starting with `{` parses to an object;
  - a text starting with `[` parses to an array;
  - braces and brackets outside string literals pair up.
- `Tools` (tools.dfy): the six tool bodies. Each returns its effects (the log line, the model call) and its value or exception. The model's reply, the parser, the random draw, `str()` of non-strings in f-strings and the fetched text come from a `World`.
- `Server` (server.dfy): the registry of tools and their keyword parameters, the dispatch, and the status codes.
- `McpClient`, `ImpactAgent`, `ExtractorAgent`, `WriterAgent`: how the agents read an answer, their request arguments, and their fallbacks. Each agent has a lemma connecting it, through the server, to the tool it calls.
- `Collector` (collector.dfy): query selection, and the search loop as an imperative method proved against a recursive specification.
- `Pipeline` (pipeline.dfy): the impact loop, the placeholder and the padding, each as an imperative method with loop invariants. `RunFullPipeline` composes them and is proved equal to the reference function `PipelineReport`.
- `Api` (api.dfy): the report store as a class whose `Analyze` method updates a map field, and the read-only `Chat` with its keyword dispatch.

Where the code and the design description disagree, the model follows the code:

- **400 and 500.** The design says 400 is for invalid arguments only. In the code, a `TypeError` raised anywhere inside a tool body is also answered 400, because the `except TypeError` wraps the whole call. Every other exception escapes as a 500.
- **Pipeline failures.** The design says the pipeline's output is unconditional. In the code the pipeline raises in these cases:
  - a search request fails or its answer does not decode;
  - a search answer decodes to something other than a dict, so `.get` raises AttributeError;
  - a search answer's `result` is null, a number or a boolean, so `extend` raises TypeError;
  - a collected source lacks `title` or `url`;
  - fewer than ten impact items end with one that is not a dict or list, so it cannot be copied;
  - the extractor's result is not a dict.
- **Nested replies.** The design says a reply holding a valid structured fragment is used. In the code, any reply whose first object contains a nested object is cut at the inner `}` and takes the fallback (`NestedObjectIsCut`).

## Model

| member | source | states |
|---|---|---|
| `Extract.LocateIsLeftmostShortest` | mcp_server/tools.py:41 | The lazy pattern matches nowhere exactly when no opener is followed later by a closer. Otherwise the span found is a match, it is the leftmost one, and it is the shortest among those starting there. |
| `Extract.IndexOf` | mcp_server/tools.py:41 | The position found is the first occurrence of the character at or after the start, or the end of the text when there is none. |
| `Extract.Candidate` | mcp_server/tools.py:41-43 | The matched text is at least two characters long, starts with the opening delimiter and ends with the closing one. |
| `Extract.CandidateClosesOnce` | agents/collector.py:85 | The matched fragment contains its closing delimiter exactly once, at its end. |
| `Extract.SafeJsonExtract` | mcp_server/tools.py:39-46 | `safe_json_extract` returns a value only when a fragment was found, and then it is the parse of that fragment. It never raises. |
| `Extract.SafeJsonExtractIsObject` | mcp_server/tools.py:41-43 | With an RFC 8259 parser, any value `safe_json_extract` returns is a dict. |
| `Extract.SafeJsonExtractNoFragment` | mcp_server/tools.py:39-46 | A text with no `{` followed later by a `}` yields None. |
| `Extract.NestedObjectIsCut` | mcp_server/tools.py:41-43 | If the fragment opens two objects outside string literals, it cannot parse, so the result is None. |
| `Extract.NestedExampleCandidate` | mcp_server/tools.py:41 | For the reply `{"a":{}}` the fragment is `{"a":{}`, which opens two objects. |
| `Extract.NestedObjectExample` | mcp_server/tools.py:41-43 | `safe_json_extract` returns None on the valid object `{"a":{}}`. |
| `Extract.UnquotedDrawnFromText` | mcp_server/tools.py:43 | Characters outside string literals are drawn from the text, so there are no more of them than in the text. |
| `PyJson.LookupSpec` | api/main.py:47 | `dict.get` finds a value exactly for the dict's keys, and the value is the one stored under that key. |
| `PyJson.AssignSpec` | mcp_server/tools.py:142 | After `d[key] = v`, reading the key gives `v`. Every other key reads as before. Key order is kept, or the new key goes last. |
| `PyJson.GetItem` | mcp_server/tools.py:146 | A subscript succeeds exactly on a dict holding the key. Otherwise it raises KeyError on a dict and TypeError on anything else. |
| `PyJson.GetOr` | pipeline.py:49 | `get` succeeds exactly on dicts and gives the default for a missing key. Anything else raises AttributeError. |
| `PyJson.Contains` | agents/impact.py:31 | `in` raises TypeError exactly on numbers, booleans and null. On a dict it tests the keys. |
| `PyJson.Truthy` | mcp_server/tools.py:106 | A value is falsy exactly when it is null, false, 0, "", `[]` or `{}`. |
| `PyJson.SetItem` | mcp_server/tools.py:142 | Item assignment succeeds exactly on a dict, and gives the dict with the key assigned. Anything else raises TypeError. |
| `PyJson.Iterate` | agents/collector.py:107 | Iterating raises exactly on numbers, booleans and null. A list yields its items. |
| `PyJson.Join` | api/main.py:57 | Joining a list of strings gives its elements separated by the separator. |
| `PyJson.Lower` | mcp_server/tools.py:146 | Lowercasing keeps the length and lowercases each character in place. |
| `Tools.RandInt` | mcp_server/tools.py:152 | The draw lies within both bounds. |
| `Tools.RandIntCoversRange` | mcp_server/tools.py:167 | Every value of the range is drawn for some roll. |
| `Tools.UsableIffNonEmptyObject` | mcp_server/tools.py:104-107 | With an RFC 8259 parser, a model tool keeps the parsed value exactly when it is a non-empty dict. So `{}` takes the fallback. |
| `Tools.SearchHits` | mcp_server/tools.py:57-60 | Exactly two results. Each has exactly the keys title and url, a title containing the query, and url article1 or article2 respectively. |
| `Tools.SearchWeb` | mcp_server/tools.py:53-60 | `search_web` only logs and returns the two results for the query as shown in an f-string. It never calls the model. |
| `Tools.FetchUrl` | mcp_server/tools.py:63-71 | `fetch_url` returns the fixed article text, whatever the url. |
| `Tools.TrimLeft` | mcp_server/tools.py:76 | The result is a suffix that does not start with whitespace, and everything removed is whitespace. |
| `Tools.TrimRight` | mcp_server/tools.py:76 | The result is a prefix that does not end with whitespace, and everything removed is whitespace. |
| `Tools.StripSpec` | mcp_server/tools.py:76 | `strip` gives a slice of the text. Everything outside the slice is whitespace, and the slice neither starts nor ends with whitespace. |
| `Tools.StripIdempotent` | mcp_server/tools.py:74-76 | `clean_extract` of a cleaned text changes nothing. |
| `Tools.CleanExtract` | mcp_server/tools.py:74-76 | A string is stripped. Any other value raises AttributeError. |
| `Tools.ExtractEntities` | mcp_server/tools.py:83-114 | Logs, calls the model, and returns the model's object when it is truthy, the fixed entity set otherwise. It never raises. |
| `Tools.EntitiesFallbackShape` | mcp_server/tools.py:110-114 | The fixed entity set has exactly the keys competitors, themes and pricing_models. It names Bajaj Finance and Paytm Payments Bank, and it has no pricing models. |
| `Tools.ImpactFallbackBands` | mcp_server/tools.py:146-171 | For any dict with a string title and a url, in any key order: a title with rbi, regulation, compliance or guideline in it, in any ASCII case, gives High with a score in [75, 90]. Any other title gives Medium with a score in [50, 70]. Event and url are the item's, and the level agrees with the score band. |
| `Tools.ImpactFallback` | mcp_server/tools.py:145-171 | The fallback succeeds exactly when the item has a string title and a url. A missing title raises its subscript's exception, and a non-string title raises AttributeError. |
| `Tools.ImpactEntryFields` | mcp_server/tools.py:149-171 | An impact entry has the keys event, impact_level, score, why, actions and url, in that order, holding the given values. |
| `Tools.ImpactScore` | mcp_server/tools.py:117-171 | A missing or unreadable `item['title']` raises before the model is called. Otherwise the model is called exactly once. Without a usable reply the outcome is the keyword fallback for the item. |
| `Tools.ImpactScoreOverwritesUrl` | mcp_server/tools.py:141-143 | On the model path the result is the parsed dict with `url` set to the item's url, and every other key as the model gave it. |
| `Tools.ReportFallbackShape` | mcp_server/tools.py:207-236 | The template has the eight keys in order. It copies competitors, impact items (as impact_radar) and sources verbatim. It has 3 drivers, 5 opportunities, 5 risks, and a plan of three windows with 2 steps each. |
| `Tools.GenerateMarketReport` | mcp_server/tools.py:174-200 | The call raises exactly when `data` is not a dict holding the three keys the prompt reads: TypeError for a non-dict, which the server answers 400, and KeyError otherwise. It has then only logged. |
| `Tools.GenerateMarketReportResolves` | mcp_server/tools.py:200-236 | For a dict holding the three keys, the report is the model's truthy object, or the template filled with that dict's values. |
| `Server.Body` | mcp_server/server.py:14-27 | Every answer but an uncaught exception decodes, and what it decodes to is a dict. |
| `Server.CallTool` | mcp_server/server.py:12-27 | 404 exactly for an unregistered name. 400 exactly for keys that differ from the parameter set, or a TypeError from the body. 500 for any other exception. A 200 wraps the body's value unchanged. A binding failure has no effects; otherwise the effects are the body's. |
| `Server.ModelCalledOnlyByModelTools` | mcp_server/server.py:20 | The model is consulted only after binding succeeded, and only by extract_entities, impact_score or generate_market_report. |
| `Server.WrappedBody` | mcp_server/server.py:24-27 | A 200 answer is exactly `{"tool": name, "result": r}`, with `r` the body's return value. |
| `McpClient.McpResult` | agents/impact.py:29-37 | An agent takes a result exactly when the decoded answer is a dict with the key "result", and then it is that value. |
| `McpClient.McpResultOfServer` | agents/writer.py:27-35 | Against the tool server, an agent gets a result exactly on a 200, and then it is the tool's return value. |
| `ImpactAgent.ImpactArgsBind` | agents/impact.py:15-21 | The request binds to `impact_score(item, context)`, with item `{"title": event, "url": url}`. |
| `ImpactAgent.ImpactScoreOnAgentItemModel` | mcp_server/tools.py:141-143 | On the agent's item, a usable model reply always gives a value: the item's url can be written into the parsed dict. |
| `ImpactAgent.ImpactAgentCall` | agents/impact.py:14-54 | A result is returned verbatim. Otherwise the fallback is Low with score 40, in the Low band, carrying the given event and url. |
| `ImpactAgent.ImpactScoreOnAgentItem` | mcp_server/tools.py:117-171 | On the agent's item, with a string event, `impact_score` always succeeds. Without a usable model reply it is High or Medium by the keyword banding. |
| `ImpactAgent.ImpactAgentThroughServer` | agents/impact.py:23-37 | For a string title, through the server, the agent returns exactly what `impact_score` returns, so its own Low fallback is never reached. |
| `ExtractorAgent.ExtractorArgsBind` | agents/extractor.py:17 | The request `{"text": text}` binds to `extract_entities(text)`. |
| `ExtractorAgent.ExtractorAgentCall` | agents/extractor.py:14-43 | A result is returned verbatim. Otherwise the fallback has exactly the keys competitors, themes and pricing_models, each an empty list. |
| `ExtractorAgent.ExtractorFallbackIgnoresText` | agents/extractor.py:36-40 | The fallback is the same whatever the text. |
| `ExtractorAgent.ExtractorAgentThroughServer` | agents/extractor.py:15-29 | Through the server, the agent returns exactly what `extract_entities` returns. |
| `WriterAgent.WriterArgsBind` | agents/writer.py:14-23 | The request `{"data": {...}}` binds to `generate_market_report(data)`, and the data holds the three values under their keys. |
| `WriterAgent.WriterSummaryShape` | agents/writer.py:43 | The summary names the industry. |
| `WriterAgent.WriterCopiesShape` | agents/writer.py:53-88 | competitors, impact_radar and sources are the arguments, verbatim. |
| `WriterAgent.WriterDriversShape` | agents/writer.py:45-51 | Five drivers, all strings. |
| `WriterAgent.WriterListsShape` | agents/writer.py:57-71 | Five opportunities and five risks, all strings. |
| `WriterAgent.WriterPlanShape` | agents/writer.py:73-86 | The plan has exactly the windows 0_30, 30_60 and 60_90, with two steps each. |
| `WriterAgent.WriterAgentCall` | agents/writer.py:20-92 | A result is returned verbatim. Otherwise the template has the eight keys, the industry in its summary, the arguments copied verbatim, 5 drivers, 5 opportunities, 5 risks and the 2/2/2 plan. |
| `WriterAgent.WriterAgentThroughServer` | agents/writer.py:20-35 | Through the server, the agent returns the model's truthy object or the tool's own template for the same values. |
| `Collector.Queries` | agents/collector.py:83-96 | No bracket pair gives no queries, and so no fallback. A fragment that does not parse gives the three industry queries in order. |
| `Collector.QueriesFromParsedArray` | agents/collector.py:85-89 | With an RFC 8259 parser, a fragment that parses is a list, so the `isinstance` guard never fires. |
| `Collector.SearchResults` | agents/collector.py:30-39 | An answer without "result" adds nothing. A failed post or an undecodable answer raises. |
| `Collector.GatheredIsConcatenation` | agents/collector.py:102-107 | When every search succeeds, the sources are each query's results concatenated in query order. |
| `Collector.Gathered` | agents/collector.py:102-107 | The sources are there exactly when every search succeeds. Otherwise the exception is that of the first failing query. |
| `Collector.GatheredKeepsFailure` | agents/collector.py:104-107 | Once the searches of a prefix of the queries have failed, the remaining queries change nothing. |
| `Collector.SearchResultsFromServer` | agents/collector.py:33-39 | Through the server, every query yields the two simulated hits. |
| `Collector.GatheredFromServer` | agents/collector.py:102-107 | Through the server, collection never fails and holds two hits per query, in query order. |
| `Collector.CollectorAgent` | agents/collector.py:42-112 | The sources are the collection over all the queries. There is one search per query, in order. On success every query was searched. On failure the searches stop at the first failing query. |
| `Pipeline.PlaceholderShape` | pipeline.py:33-41 | The placeholder is Low, scored 30, in the Low band, with url "". |
| `Pipeline.SourceError` | pipeline.py:25-27 | A source is scored without error exactly when it is a dict with both title and url. |
| `Pipeline.FirstSourceError` | pipeline.py:23-28 | No exception exactly when every source has a title and a url. Otherwise it is the exception of the first source that lacks one. |
| `Pipeline.FirstSourceErrorAt` | pipeline.py:23-28 | The first failing source decides the exception. |
| `Pipeline.ScoreSources` | pipeline.py:22-29 | One impact item per source, in source order, the i-th from the i-th call. The first source lacking title or url stops the loop with its subscript's exception. |
| `Pipeline.PadImpactItems` | pipeline.py:33-44 | The result is the reference padding `Padded`. The length is max(n, 10). The items already there are unchanged, and every appended entry equals the last item. Zero items give exactly ten placeholders. It fails only when the last item has no `copy`. |
| `Pipeline.PaddedShape` | pipeline.py:33-44 | The reference padding keeps the items and reaches length max(n, 10). |
| `Pipeline.UrlsOf` | pipeline.py:51 | One url per source, in source order, with no deduplication. |
| `Pipeline.RunFullPipeline` | pipeline.py:7-54 | The report, or the exception, is exactly the reference pipeline's. On success the impact items and urls handed to the writer are the reference's. |
| `Pipeline.PipelineRaisesIff` | pipeline.py:7-54 | The pipeline raises exactly when one of these holds: the collection fails, a source lacks a title or a url, fewer than ten items end with one that cannot be copied, or the extractor's answer is not a dict. |
| `Pipeline.PipelineRaisesWhat` | pipeline.py:9-49 | The first failure in code order decides the exception: the collection's, then the first bad source's, then AttributeError for a non-dict extractor answer. |
| `Pipeline.PipelineInputShape` | pipeline.py:22-51 | When the writer is reached, it gets one url per source in order, max(n, 10) impact items starting with the per-source items, and the extractor's competitors, or `[]` when absent. |
| `Api.Answer` | api/main.py:53-70 | The answer has exactly the keys answer and citations. A non-dict report raises AttributeError. With neither keyword, the answer is the summary, or "No answer available.". |
| `Api.AnswerCitesSources` | api/main.py:58-69 | The citations are always the report's sources, or `[]`. |
| `Api.MissingListAnswersEmpty` | api/main.py:57-63 | A missing risks or opportunities field answers "". |
| `Api.ListAnswerIsJoin` | api/main.py:55-65 | A list of strings answers with its elements joined by ", ". |
| `Api.LowerIdempotent` | api/main.py:53 | Lowercasing twice is lowercasing once. |
| `Api.AnswerIgnoresCase` | api/main.py:53 | A question and its lowercase form get the same answer. |
| `Api.RiskTakesPriority` | api/main.py:55-65 | Any question mentioning "risk", opportunities or not, is answered like "risks". |
| `Api.FreshIdExists` | api/main.py:36 | There is always an id that no stored report has. |
| `Api.ReportStore.constructor` | api/main.py:12 | The store starts empty. |
| `Api.ReportStore.Chat` | api/main.py:45-70 | An unknown id, or a falsy stored report, gives `{"error": "Report not found"}`. Otherwise the answer is the keyword dispatch. Chat only reads the store. |
| `Api.ReportStore.Analyze` | api/main.py:27-42 | `analyze` raises exactly when the pipeline raises, with the same exception, and then the store is unchanged. On success it stores the pipeline's report under an id unused before and changes no other entry. It answers `{"report_id": id, "report": report}`. |

## Left out

- `call_ollama` (both copies) is not modelled. Its reply text is an input (`World.reply`, `Backends.queryReply`), `""` when the call fails.
- The prompt texts and the query prompt's dates and focus are not modelled. They only shape what the model is asked.
- `json.loads` is a parameter. Only the properties in `Rfc8259Shaped` are assumed of it, and only where a lemma says so.
- HTTP transport is not modelled: the `requests` and `httpx` posts, timeouts, FastAPI routing, pydantic validation and `/health`. Each agent's decoded answer is an input. For a 400, the text of `str(e)` is a parameter of `Server.Body`.
- `print` logging is recorded only as the `Logged` effect of a tool body. The agents' and the pipeline's printing is not modelled.
- `Server.CallTool` resolves only the six tool functions. `hasattr` also accepts other module attributes (`call_ollama`, `safe_json_extract`, the imported modules, `OLLAMA_URL`, `MODEL`, dunder names). Those requests are not modelled.
- `random.randint` is a `roll` input reduced into the range. `uuid.uuid4` is any id not yet in the store; the negligible chance of a collision is not modelled.
- JSON numbers are integers. Fractional scores in model replies are not represented.
- `lower()` and `isspace()` are modelled on ASCII only.
- A decoded dict never repeats a key, but `Json` objects may. `Lookup` takes the first occurrence, where `json.loads` would keep the last.
- The answers to `search_web` are a function of the query, so a repeated query gets the same answer, as the deterministic tool does.
- Each impact call's answer is indexed by its position in the loop.
- `.copy()` of the last impact item is modelled as an equal value. The shallow sharing of nested lists is not modelled, because nothing mutates the items afterwards.
- Concurrent requests to the API are not modelled.
- `fetch_url`'s text is an input (`World.article`).
- `testfile.py` is not part of this model.
- `Tools.FetchUrl`: its contract states the returned value but not its single log effect, which its body gives.
