/**
  `collector_agent(industry, ...)`: ask the model for search queries, read the
  first `[ ... ]` fragment of its reply as a JSON array (with three fixed
  queries when that fails), then run the tool server's `search_web` once per
  query and concatenate what comes back.
 */
module Collector {
  import opened PyJson
  import opened Extract
  import opened Tools
  import opened Server

  /** The queries used when the bracketed fragment does not parse to a list. */
  function FallbackQueries(industry: string): seq<Json>
  {
    [Str(industry + " regulatory updates India"),
     Str(industry + " RBI circular compliance changes"),
     Str(industry + " market trends fintech competition")]
  }

  /** What `queries` holds after the try block, for the model's reply `rawOutput`. */
  function Queries(industry: string, rawOutput: string, parse: string -> Option<Json>): (qs: seq<Json>)
    ensures Candidate(rawOutput, '[', ']').None? ==> qs == []
    ensures Candidate(rawOutput, '[', ']').Some? && parse(Candidate(rawOutput, '[', ']').value).None? ==>
      qs == FallbackQueries(industry)
  {
    match Candidate(rawOutput, '[', ']')
    case None => []
    case Some(c) =>
      match parse(c)
      case Some(Arr(xs)) => xs
      case _ => FallbackQueries(industry)   // json.loads raised, or ValueError("Not a list")
  }

  /**
    With a parser of RFC 8259 texts the `isinstance` guard never fires: a
    fragment that parses is a list, and the queries are its items.
   */
  lemma QueriesFromParsedArray(industry: string, rawOutput: string, parse: string -> Option<Json>)
    requires Rfc8259Shaped(parse)
    requires Candidate(rawOutput, '[', ']').Some? && parse(Candidate(rawOutput, '[', ']').value).Some?
    ensures parse(Candidate(rawOutput, '[', ']').value).value.Arr?
    ensures Queries(industry, rawOutput, parse) == parse(Candidate(rawOutput, '[', ']').value).value.items
  {
    var c := Candidate(rawOutput, '[', ']').value;
    assert c[0] == '[';
  }

  /**
    `call_mcp_search(q)` followed by `all_results.extend(...)`: the items the
    answer `data` adds. A missing "result" adds nothing; a failed post or an
    undecodable answer raises.
   */
  function SearchResults(data: Option<Json>): (r: Result<seq<Json>>)
    ensures data.Some? && data.value.Obj? && "result" !in Keys(data.value.fields) ==> r == Ok([])
    ensures data.None? ==> r == Raise(HttpError)
  {
    match data
    case None => Raise(HttpError)
    case Some(d) =>
      match GetOr(d, "result", Arr([]))
      case Raise(e) => Raise(e)
      case Ok(results) => Iterate(results)
  }

  /**
    `all_results` after searching `qs` in order, answers drawn from `search`.
    It is there exactly when every search succeeds; otherwise the exception is
    that of the first failing query.
   */
  function Gathered(qs: seq<Json>, search: Json -> Option<Json>): (r: Result<seq<Json>>)
    ensures r.Ok? <==> forall i :: 0 <= i < |qs| ==> SearchResults(search(qs[i])).Ok?
    ensures r.Raise? ==>
      exists k :: 0 <= k < |qs| && SearchResults(search(qs[k])) == Raise(r.exc) &&
        forall j :: 0 <= j < k ==> SearchResults(search(qs[j])).Ok?
  {
    if qs == [] then Ok([])
    else
      var init := qs[..|qs| - 1];
      assert forall i :: 0 <= i < |init| ==> init[i] == qs[i];
      match Gathered(init, search)
      case Raise(e) => Raise(e)
      case Ok(acc) =>
        match SearchResults(search(qs[|qs| - 1]))
        case Raise(e) => Raise(e)
        case Ok(rs) => Ok(acc + rs)
  }

  /** Once a prefix of the queries has failed, searching the rest changes nothing. */
  lemma {:induction false} GatheredKeepsFailure(qs: seq<Json>, k: nat, search: Json -> Option<Json>)
    requires k <= |qs| && Gathered(qs[..k], search).Raise?
    ensures Gathered(qs, search) == Gathered(qs[..k], search)
  {
    if k < |qs| {
      var init := qs[..|qs| - 1];
      assert init[..k] == qs[..k];
      GatheredKeepsFailure(init, k, search);
    } else {
      assert qs[..k] == qs;
    }
  }

  /** The sequences of a sequence, one after the other. */
  function Flatten(xss: seq<seq<Json>>): (r: seq<Json>)
  {
    if xss == [] then [] else Flatten(xss[..|xss| - 1]) + xss[|xss| - 1]
  }

  /** When every search succeeds, the collected sources are the results of each query, in query order. */
  lemma {:induction false} GatheredIsConcatenation(qs: seq<Json>, search: Json -> Option<Json>)
    requires forall i :: 0 <= i < |qs| ==> SearchResults(search(qs[i])).Ok?
    ensures Gathered(qs, search)
      == Ok(Flatten(seq(|qs|, i requires 0 <= i < |qs| => SearchResults(search(qs[i])).value)))
  {
    if qs != [] {
      var init := qs[..|qs| - 1];
      GatheredIsConcatenation(init, search);
      var all := seq(|qs|, i requires 0 <= i < |qs| => SearchResults(search(qs[i])).value);
      assert all[..|all| - 1] == seq(|init|, i requires 0 <= i < |init| => SearchResults(search(init[i])).value);
    }
  }

  /** The answer of the tool server to `search_web` with the query `q`, as the collector decodes it. */
  function ServerSearch(w: World, message: string): Json -> Option<Json>
  {
    q => Body(CallTool("search_web", [("query", q)], w).0, message)
  }

  /** Against the tool server every query yields the two simulated hits, whatever the query. */
  lemma SearchResultsFromServer(q: Json, w: World, message: string)
    ensures SearchResults(ServerSearch(w, message)(q)) == Ok(SearchHits(Shown(q, w.render)))
  {
    var args: Fields := [("query", q)];
    assert Keys(args) == ["query"];
    assert KeySet(args) == {"query"};
    LookupAt(args, 0);
    assert Arg(args, "query") == q;
    assert RunTool("search_web", args, w) == SearchWeb(q, w);
    var resp := CallTool("search_web", args, w).0;
    assert resp == Wrapped("search_web", Arr(SearchHits(Shown(q, w.render))));
    WrappedBody("search_web", args, w, message);
    var b := Body(resp, message).value;
    assert GetOr(b, "result", Arr([])) == Ok(Arr(SearchHits(Shown(q, w.render))));
  }

  /**
    Against the tool server the collection never fails and holds two hits per
    query, in query order: entries `2k` and `2k + 1` are the hits for query `k`.
   */
  lemma {:induction false} GatheredFromServer(qs: seq<Json>, w: World, message: string)
    ensures var g := Gathered(qs, ServerSearch(w, message));
      && g.Ok? && |g.value| == 2 * |qs|
      && forall k :: 0 <= k < |qs| ==>
           g.value[2 * k] == SearchHits(Shown(qs[k], w.render))[0]
           && g.value[2 * k + 1] == SearchHits(Shown(qs[k], w.render))[1]
  {
    if qs != [] {
      var search := ServerSearch(w, message);
      var init := qs[..|qs| - 1];
      GatheredFromServer(init, w, message);
      SearchResultsFromServer(qs[|qs| - 1], w, message);
      var acc := Gathered(init, search).value;
      var last := SearchHits(Shown(qs[|qs| - 1], w.render));
      var g := Gathered(qs, search).value;
      assert g == acc + last;
      assert |acc| == 2 * |init|;
      forall k | 0 <= k < |qs|
        ensures g[2 * k] == SearchHits(Shown(qs[k], w.render))[0]
        ensures g[2 * k + 1] == SearchHits(Shown(qs[k], w.render))[1]
      {
        if k < |qs| - 1 {
          assert qs[k] == init[k];
          assert 2 * k + 1 < |acc|;
          assert g[2 * k] == acc[2 * k] && g[2 * k + 1] == acc[2 * k + 1];
        } else {
          assert 2 * k == |acc|;
          assert g[2 * k] == last[0] && g[2 * k + 1] == last[1];
        }
      }
    }
  }

  /**
    `collector_agent`: the reply `rawOutput` of the model to the query prompt
    and the answers `search` of the tool server are inputs. Returns the
    collected sources (or the exception that escaped) and the queries searched,
    in order: every query when the collection succeeds, and up to the first
    failing one when it does not.
   */
  method CollectorAgent(industry: string, rawOutput: string, parse: string -> Option<Json>, search: Json -> Option<Json>)
    returns (sources: Result<seq<Json>>, issued: seq<Json>)
    ensures sources == Gathered(Queries(industry, rawOutput, parse), search)
    ensures issued <= Queries(industry, rawOutput, parse)
    ensures sources == Gathered(issued, search)
    ensures sources.Ok? ==> issued == Queries(industry, rawOutput, parse)
    ensures sources.Raise? ==> issued != [] && Gathered(issued[..|issued| - 1], search).Ok?
  {
    var queries: seq<Json> := [];
    var m := Candidate(rawOutput, '[', ']');
    if m.Some? {
      var parsed := parse(m.value);
      if parsed.Some? && parsed.value.Arr? {
        queries := parsed.value.items;
      } else {
        queries := FallbackQueries(industry);
      }
    }
    var all: seq<Json> := [];
    issued := [];
    var i := 0;
    while i < |queries|
      invariant 0 <= i <= |queries|
      invariant issued == queries[..i]
      invariant Gathered(issued, search) == Ok(all)
    {
      var q := queries[i];
      var results := SearchResults(search(q));
      issued := issued + [q];
      assert issued[..|issued| - 1] == queries[..i];
      if results.Raise? {
        assert issued == queries[..i + 1];
        GatheredKeepsFailure(queries, i + 1, search);
        return Raise(results.exc), issued;
      }
      all := all + results.value;
      i := i + 1;
    }
    assert issued == queries;
    return Ok(all), issued;
  }
}
