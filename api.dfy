/**
  The public API: `POST /analyze` runs the pipeline and keeps the report in an
  in-memory store under a fresh id; `POST /chat` answers a question about a
  stored report by keyword.
 */
module Api {
  import opened PyJson
  import opened Pipeline

  /** The answer for an id with no (or a falsy) report. */
  const NotFoundAnswer: Json := Obj([("error", Str("Report not found"))])

  /** The answer dict: an answer and the report's citations. */
  function ChatReply(answer: Json, citations: Json): Json
  {
    Obj([("answer", answer), ("citations", citations)])
  }

  predicate MentionsRisk(question: string)
  {
    IsSubstring("risk", Lower(question))
  }

  predicate MentionsOpportunity(question: string)
  {
    IsSubstring("opportunit", Lower(question))
  }

  /**
    The keyword dispatch of `chat` on a stored, truthy report. The citations
    are the report's sources, or `[]`; only a dict has `get`, and only a list
    of strings (or a string, or a dict of string keys) can be joined.
   */
  function Answer(report: Json, question: string): (r: Result<Json>)
    ensures !report.Obj? ==> r == Raise(AttributeError)
    ensures r.Ok? ==> r.value.Obj? && Keys(r.value.fields) == ["answer", "citations"]
    ensures report.Obj? && !MentionsRisk(question) && !MentionsOpportunity(question) ==>
      r.Ok? && Field(r.value, "answer") == Some(GetOr(report, "summary", Str("No answer available.")).value)
  {
    if !report.Obj? then Raise(AttributeError)
    else
      var citations := GetOr(report, "sources", Arr([])).value;
      if MentionsRisk(question) then
        match Join(", ", GetOr(report, "risks", Arr([])).value)
        case Raise(e) => Raise(e)
        case Ok(s) => Ok(ChatReply(Str(s), citations))
      else if MentionsOpportunity(question) then
        match Join(", ", GetOr(report, "opportunities", Arr([])).value)
        case Raise(e) => Raise(e)
        case Ok(s) => Ok(ChatReply(Str(s), citations))
      else
        LookupAt(ChatReply(GetOr(report, "summary", Str("No answer available.")).value, citations).fields, 0);
        Ok(ChatReply(GetOr(report, "summary", Str("No answer available.")).value, citations))
  }

  /** Every answer cites the report's sources, or `[]` when it has none. */
  lemma AnswerCitesSources(report: Json, question: string)
    requires Answer(report, question).Ok?
    ensures Field(Answer(report, question).value, "citations")
      == Some(match Field(report, "sources") case Some(s) => s case None => Arr([]))
  {
    LookupAt(Answer(report, question).value.fields, 1);
  }

  /** A missing field answers with the empty string for risks and opportunities. */
  lemma MissingListAnswersEmpty(report: Json, question: string)
    requires report.Obj?
    requires MentionsRisk(question) ==> "risks" !in Keys(report.fields)
    requires !MentionsRisk(question) && MentionsOpportunity(question) ==> "opportunities" !in Keys(report.fields)
    requires MentionsRisk(question) || MentionsOpportunity(question)
    ensures Answer(report, question).Ok?
    ensures Field(Answer(report, question).value, "answer") == Some(Str(""))
  {
    assert Join(", ", Arr([])) == Ok("");
    LookupAt(Answer(report, question).value.fields, 0);
  }

  /** A list of strings answers with its elements joined by ", ". */
  lemma ListAnswerIsJoin(report: Json, question: string, xs: seq<string>)
    requires report.Obj? && (MentionsRisk(question) || MentionsOpportunity(question))
    requires Field(report, if MentionsRisk(question) then "risks" else "opportunities") == Some(Arr(Strings(xs)))
    ensures Answer(report, question).Ok?
    ensures Field(Answer(report, question).value, "answer") == Some(Str(JoinStrings(", ", xs)))
  {
    var items := Strings(xs);
    assert seq(|items|, i requires 0 <= i < |items| => items[i].s) == xs;
    LookupAt(Answer(report, question).value.fields, 0);
  }

  lemma {:induction false} LowerIdempotent(s: string)
    ensures Lower(Lower(s)) == Lower(s)
  {
    assert forall i :: 0 <= i < |s| ==> LowerChar(LowerChar(s[i])) == LowerChar(s[i]);
  }

  /** The dispatch reads the question in lower case: asking in capitals changes nothing. */
  lemma AnswerIgnoresCase(report: Json, question: string)
    ensures Answer(report, question) == Answer(report, Lower(question))
  {
    LowerIdempotent(question);
  }

  /** "risk" is tested first: any question mentioning it, opportunities or not, is answered like "risks". */
  lemma RiskTakesPriority(report: Json, question: string)
    requires MentionsRisk(question)
    ensures Answer(report, question) == Answer(report, "risks")
  {
    assert Lower("risks") == "risks";
    assert OccursAt("risk", "risks", 0);
  }

  /** REPORT_STORE: the reports produced so far, by id. */
  class ReportStore {
    var reports: map<string, Json>

    constructor ()
      ensures reports == map[]
    {
      reports := map[];
    }

    /**
      `chat(report_id, question)`: the not-found answer for an unknown id and
      for a falsy report; the keyword dispatch otherwise. Reads the store and
      never changes it.
     */
    function Chat(reportId: string, question: string): (r: Result<Json>)
      reads this
      ensures reportId !in reports ==> r == Ok(NotFoundAnswer)
      ensures reportId in reports && !Truthy(reports[reportId]) ==> r == Ok(NotFoundAnswer)
      ensures reportId in reports && Truthy(reports[reportId]) ==> r == Answer(reports[reportId], question)
    {
      var report := if reportId in reports then reports[reportId] else Null;   // `dict.get` gives None
      if !Truthy(report) then Ok(NotFoundAnswer)
      else Answer(report, question)
    }

    /**
      `analyze(req)`: runs the pipeline; on success stores the pipeline's
      report under an id no report had before, leaves every other entry alone,
      and answers `{"report_id": id, "report": report}`. When the pipeline
      raises, the same exception escapes and the store is unchanged.
     */
    method Analyze(industry: string, b: Backends) returns (r: Result<Json>, id: string)
      modifies this
      ensures r.Raise? <==> PipelineReport(industry, b).Raise?
      ensures r.Raise? ==> r.exc == PipelineReport(industry, b).exc && reports == old(reports)
      ensures r.Ok? ==> id !in old(reports) && reports == old(reports)[id := PipelineReport(industry, b).value]
      ensures r.Ok? ==> r.value == Obj([("report_id", Str(id)), ("report", PipelineReport(industry, b).value)])
    {
      var report, _, _ := RunFullPipeline(industry, b);
      if report.Raise? {
        return Raise(report.exc), "";
      }
      FreshIdExists(reports);
      id :| id !in reports;   // str(uuid.uuid4())
      reports := reports[id := report.value];
      r := Ok(Obj([("report_id", Str(id)), ("report", report.value)]));
    }
  }

  /** A bound on the length of every string in `s`. */
  ghost function MaxLength(s: set<string>): (n: nat)
    ensures forall k :: k in s ==> |k| <= n
    decreases s
  {
    if s == {} then 0
    else
      var k :| k in s;
      var rest := MaxLength(s - {k});
      if |k| > rest then |k| else rest
  }

  /** There is always an id no stored report has: one longer than every stored id. */
  lemma FreshIdExists(m: map<string, Json>)
    ensures exists id :: id !in m
  {
    var n := MaxLength(m.Keys);
    var id := seq(n + 1, i => 'x');
    assert id !in m;
  }
}
