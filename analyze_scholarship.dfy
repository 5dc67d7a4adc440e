/** The analysis route (scholarlens/app/api/analyze-scholarship/route.ts):
    cache-or-compute over the analysis table, keyed by scholarship id. A hit
    answers from the table; a miss reads the scholarship, asks the model for
    an analysis and inserts it. */
module AnalyzeScholarship {
  import opened Types
  import opened External
  import opened ClaudeClient
  import opened Prompts

  /** The parsed body: `scholarship_id`. */
  datatype AnalyzeRequestBody = AnalyzeRequestBody(scholarshipId: Option<string>)

  /** What the insert gives back: an error, or the stored row's generated id
      and timestamp. */
  datatype InsertOutcome = InsertFailed | Inserted(rowId: string, analyzedAt: string)

  /** `{analysis, cached}`. */
  datatype AnalyzeResponse = AnalyzeResponse(analysis: ScholarshipAnalysis, cached: bool)

  /** One request: the response, the store and model accesses in order, and
      the table afterwards. */
  datatype AnalyzeStepResult = AnalyzeStepResult(
    response: Result<AnalyzeResponse, HttpError>,
    trace: seq<Effect>,
    rows: map<string, ScholarshipAnalysis>)

  const ScholarshipIdRequired := "scholarship_id is required"
  const ScholarshipNotFound := "Scholarship not found"
  const AnalyzeFailure := "Failed to analyze scholarship"

  /** The model call analysing a scholarship. */
  function AnalysisRequest(s: Scholarship, codec: JsonCodec, texts: PromptTexts): (r: ApiRequest)
    ensures r.model == ClaudeModel && r.system == Some(texts.analysisSystem)
    ensures r.temperature == 0.7 && r.maxTokens == 2048
    ensures r.userContent == AnalysisPrompt(s, codec, texts)
  {
    ToApiRequest(MessageParams(Some(texts.analysisSystem), AnalysisPrompt(s, codec, texts), Some(2048), Some(0.7)))
  }

  /** The row the insert stores and returns. */
  function StoredRow(sid: string, f: AnalysisFields, rowId: string, analyzedAt: string): ScholarshipAnalysis {
    ScholarshipAnalysis(Some(rowId), sid, f.personality, f.weights, f.hiddenPriorities, f.successPatterns,
                        f.messagingStrategy, analyzedAt)
  }

  /** The analysis returned when the insert fails: the id, the parsed fields
      and the current time, without a row id. */
  function FallbackRow(sid: string, f: AnalysisFields, now: string): ScholarshipAnalysis {
    ScholarshipAnalysis(None, sid, f.personality, f.weights, f.hiddenPriorities, f.successPatterns,
                        f.messagingStrategy, now)
  }

  /** Every row is stored under its own scholarship id. */
  predicate KeyedById(rows: map<string, ScholarshipAnalysis>) {
    forall k :: k in rows ==> rows[k].scholarshipId == k
  }

  /** The model reply's fields, or None when the call or the parse failed. */
  function ParsedAnalysis(reply: Option<Message>, codec: JsonCodec): (r: Option<AnalysisFields>)
    ensures r.Some? <==> reply.Some? && ParseJsonResponse(reply.value, codec.parseAnalysis).Ok?
    ensures r.Some? ==> r.value == codec.parseAnalysis(JsonCandidate(ExtractTextContent(reply.value))).value
  {
    if reply.None? then None
    else match ParseJsonResponse(reply.value, codec.parseAnalysis)
      case Err(_) => None
      case Ok(f) => Some(f)
  }

  /** One `POST /api/analyze-scholarship` against the table `rows`, with the
      scholarships, the model, the insert's outcome and the clock as inputs.
      The table changes only by the one row a successful insert adds. */
  function AnalyzeStep(rows: map<string, ScholarshipAnalysis>, body: Option<AnalyzeRequestBody>,
                       scholarships: map<string, Scholarship>, codec: JsonCodec, texts: PromptTexts,
                       complete: Completion, insert: InsertOutcome, now: string): (r: AnalyzeStepResult)
    ensures r.rows == rows || (
      && body.Some? && TruthyString(body.value.scholarshipId)
      && var sid := body.value.scholarshipId.value;
      && sid !in rows && insert.Inserted?
      && r.response.Ok? && r.rows == rows[sid := r.response.value.analysis])
    ensures |r.trace| <= 4
  {
    if body.None? then AnalyzeStepResult(Err(HttpError(500, AnalyzeFailure)), [], rows)
    else if !TruthyString(body.value.scholarshipId) then AnalyzeStepResult(Err(HttpError(400, ScholarshipIdRequired)), [], rows)
    else
      var sid := body.value.scholarshipId.value;
      if sid in rows then AnalyzeStepResult(Ok(AnalyzeResponse(rows[sid], true)), [ReadAnalysis(sid)], rows)
      else if sid !in scholarships then
        AnalyzeStepResult(Err(HttpError(404, ScholarshipNotFound)), [ReadAnalysis(sid), ReadScholarship(sid)], rows)
      else
        var request := AnalysisRequest(scholarships[sid], codec, texts);
        var calls := [ReadAnalysis(sid), ReadScholarship(sid), ModelCall(request)];
        match ParsedAnalysis(complete(0, request), codec)
        case None => AnalyzeStepResult(Err(HttpError(500, AnalyzeFailure)), calls, rows)
        case Some(f) =>
          match insert
          case InsertFailed =>
            AnalyzeStepResult(Ok(AnalyzeResponse(FallbackRow(sid, f, now), false)), calls + [InsertAnalysis(sid)], rows)
          case Inserted(rowId, at) =>
            var row := StoredRow(sid, f, rowId, at);
            AnalyzeStepResult(Ok(AnalyzeResponse(row, false)), calls + [InsertAnalysis(sid)], rows[sid := row])
  }

  /** No effect is a model call. */
  predicate NoModelCall(trace: seq<Effect>) {
    forall k :: 0 <= k < |trace| ==> !trace[k].ModelCall?
  }

  /** No effect is an insert. */
  predicate NoInsert(trace: seq<Effect>) {
    forall k :: 0 <= k < |trace| ==> !trace[k].InsertAnalysis?
  }

  /** A missing body is a 500 and a missing or empty id a 400, both before any
      store or model access. */
  lemma AnalyzeIdRequired(rows: map<string, ScholarshipAnalysis>, body: Option<AnalyzeRequestBody>,
                          scholarships: map<string, Scholarship>, codec: JsonCodec, texts: PromptTexts,
                          complete: Completion, insert: InsertOutcome, now: string)
    ensures body.None? ==>
      AnalyzeStep(rows, body, scholarships, codec, texts, complete, insert, now)
      == AnalyzeStepResult(Err(HttpError(500, AnalyzeFailure)), [], rows)
    ensures body.Some? && !TruthyString(body.value.scholarshipId) ==>
      AnalyzeStep(rows, body, scholarships, codec, texts, complete, insert, now)
      == AnalyzeStepResult(Err(HttpError(400, ScholarshipIdRequired)), [], rows)
  {
  }

  /** A hit answers with the stored row and `cached: true`, after one table
      read: no model call, no insert, the table unchanged. */
  lemma AnalyzeCacheHit(rows: map<string, ScholarshipAnalysis>, sid: string,
                        scholarships: map<string, Scholarship>, codec: JsonCodec, texts: PromptTexts,
                        complete: Completion, insert: InsertOutcome, now: string)
    requires sid != "" && sid in rows
    ensures AnalyzeStep(rows, Some(AnalyzeRequestBody(Some(sid))), scholarships, codec, texts, complete, insert, now)
      == AnalyzeStepResult(Ok(AnalyzeResponse(rows[sid], true)), [ReadAnalysis(sid)], rows)
  {
  }

  /** A miss on an unknown scholarship is a 404, with no model call and no
      insert. */
  lemma AnalyzeUnknownScholarship(rows: map<string, ScholarshipAnalysis>, sid: string,
                                  scholarships: map<string, Scholarship>, codec: JsonCodec, texts: PromptTexts,
                                  complete: Completion, insert: InsertOutcome, now: string)
    requires sid != "" && sid !in rows && sid !in scholarships
    ensures var r := AnalyzeStep(rows, Some(AnalyzeRequestBody(Some(sid))), scholarships, codec, texts, complete, insert, now);
      && r.response == Err(HttpError(404, ScholarshipNotFound))
      && NoModelCall(r.trace) && NoInsert(r.trace) && r.rows == rows
  {
  }

  /** A miss on a known scholarship makes exactly one model call, with the
      analysis prompt. The insert, keyed by the id, happens exactly when the
      reply parses, and the answer is then the analysis with `cached: false`:
      the stored row when the insert succeeds, otherwise the parsed fields
      with the id and the current time, the table unchanged. A reply that
      does not parse is a 500. */
  lemma AnalyzeComputes(rows: map<string, ScholarshipAnalysis>, sid: string,
                        scholarships: map<string, Scholarship>, codec: JsonCodec, texts: PromptTexts,
                        complete: Completion, insert: InsertOutcome, now: string)
    requires sid != "" && sid !in rows && sid in scholarships
    ensures var r := AnalyzeStep(rows, Some(AnalyzeRequestBody(Some(sid))), scholarships, codec, texts, complete, insert, now);
      var request := AnalysisRequest(scholarships[sid], codec, texts);
      var parsed := ParsedAnalysis(complete(0, request), codec);
      && r.trace[..3] == [ReadAnalysis(sid), ReadScholarship(sid), ModelCall(request)]
      && NoModelCall(r.trace[3..])
      && (parsed.None? <==> r.trace == r.trace[..3])
      && (parsed.None? <==> r.response == Err(HttpError(500, AnalyzeFailure)))
      && (parsed.Some? ==> r.trace[3..] == [InsertAnalysis(sid)] && r.response.Ok? && !r.response.value.cached)
      && (parsed.Some? && insert.Inserted? ==>
            var row := StoredRow(sid, parsed.value, insert.rowId, insert.analyzedAt);
            r.response.value.analysis == row && r.rows == rows[sid := row])
      && (parsed.Some? && insert.InsertFailed? ==>
            r.response.value.analysis == FallbackRow(sid, parsed.value, now) && r.rows == rows)
  {
    var r := AnalyzeStep(rows, Some(AnalyzeRequestBody(Some(sid))), scholarships, codec, texts, complete, insert, now);
    var request := AnalysisRequest(scholarships[sid], codec, texts);
    var calls := [ReadAnalysis(sid), ReadScholarship(sid), ModelCall(request)];
    if ParsedAnalysis(complete(0, request), codec).Some? {
      assert r.trace == calls + [InsertAnalysis(sid)];
      assert r.trace[..3] == calls;
      assert r.trace[3..] == [InsertAnalysis(sid)];
    } else {
      assert r.trace == calls;
    }
  }

  /** A request that fails leaves the table as it was and inserts nothing. */
  lemma AnalyzeErrorChangesNothing(rows: map<string, ScholarshipAnalysis>, body: Option<AnalyzeRequestBody>,
                                   scholarships: map<string, Scholarship>, codec: JsonCodec, texts: PromptTexts,
                                   complete: Completion, insert: InsertOutcome, now: string)
    ensures var r := AnalyzeStep(rows, body, scholarships, codec, texts, complete, insert, now);
      r.response.Err? ==> r.rows == rows && NoInsert(r.trace)
  {
  }

  /** The table stays keyed by scholarship id. */
  lemma AnalyzeKeepsKeys(rows: map<string, ScholarshipAnalysis>, body: Option<AnalyzeRequestBody>,
                         scholarships: map<string, Scholarship>, codec: JsonCodec, texts: PromptTexts,
                         complete: Completion, insert: InsertOutcome, now: string)
    requires KeyedById(rows)
    ensures KeyedById(AnalyzeStep(rows, body, scholarships, codec, texts, complete, insert, now).rows)
  {
  }

  /** Over a table keyed by id, every analysis the route answers with, cached,
      stored or fallback, belongs to the requested scholarship, as the read
      filtered on `scholarship_id` promises. */
  lemma AnalysisForRequestedId(rows: map<string, ScholarshipAnalysis>, body: Option<AnalyzeRequestBody>,
                               scholarships: map<string, Scholarship>, codec: JsonCodec, texts: PromptTexts,
                               complete: Completion, insert: InsertOutcome, now: string)
    requires KeyedById(rows)
    ensures var r := AnalyzeStep(rows, body, scholarships, codec, texts, complete, insert, now);
      r.response.Ok? ==>
        && body.Some? && TruthyString(body.value.scholarshipId)
        && r.response.value.analysis.scholarshipId == body.value.scholarshipId.value
  {
  }

  /** Once a request has stored or found an analysis, the next request for the
      same id is a hit that returns that row, whatever the model or the insert
      would do. */
  lemma SecondCallHits(rows: map<string, ScholarshipAnalysis>, sid: string,
                       scholarships: map<string, Scholarship>, codec: JsonCodec, texts: PromptTexts,
                       complete: Completion, insert: InsertOutcome, now: string,
                       scholarships2: map<string, Scholarship>, complete2: Completion,
                       insert2: InsertOutcome, now2: string)
    requires sid != ""
    requires var r := AnalyzeStep(rows, Some(AnalyzeRequestBody(Some(sid))), scholarships, codec, texts, complete, insert, now);
      r.response.Ok? && (r.response.value.cached || insert.Inserted?)
    ensures var r := AnalyzeStep(rows, Some(AnalyzeRequestBody(Some(sid))), scholarships, codec, texts, complete, insert, now);
      AnalyzeStep(r.rows, Some(AnalyzeRequestBody(Some(sid))), scholarships2, codec, texts, complete2, insert2, now2)
      == AnalyzeStepResult(Ok(AnalyzeResponse(r.response.value.analysis, true)), [ReadAnalysis(sid)], r.rows)
  {
  }

  /** The analysis table as the route updates it. */
  class AnalysisTable {
    var rows: map<string, ScholarshipAnalysis>

    ghost predicate Valid()
      reads this
    {
      KeyedById(rows)
    }

    constructor ()
      ensures Valid() && rows == map[]
    {
      rows := map[];
    }

    /** `POST /api/analyze-scholarship`: the table read, the scholarship read,
        the model call and the insert, each only when the previous step
        allows it. */
    method Analyze(body: Option<AnalyzeRequestBody>, scholarships: map<string, Scholarship>, codec: JsonCodec,
                   texts: PromptTexts, complete: Completion, insert: InsertOutcome, now: string)
      returns (response: Result<AnalyzeResponse, HttpError>, trace: seq<Effect>)
      requires Valid()
      modifies this
      ensures Valid()
      ensures AnalyzeStepResult(response, trace, rows)
        == AnalyzeStep(old(rows), body, scholarships, codec, texts, complete, insert, now)
      ensures response.Ok? ==>
                && body.Some? && TruthyString(body.value.scholarshipId)
                && response.value.analysis.scholarshipId == body.value.scholarshipId.value
    {
      AnalyzeKeepsKeys(rows, body, scholarships, codec, texts, complete, insert, now);
      AnalysisForRequestedId(rows, body, scholarships, codec, texts, complete, insert, now);
      trace := [];
      if body.None? {
        response := Err(HttpError(500, AnalyzeFailure));
        return;
      }
      if !TruthyString(body.value.scholarshipId) {
        response := Err(HttpError(400, ScholarshipIdRequired));
        return;
      }
      var sid := body.value.scholarshipId.value;
      trace := trace + [ReadAnalysis(sid)];
      if sid in rows {
        response := Ok(AnalyzeResponse(rows[sid], true));
        return;
      }
      trace := trace + [ReadScholarship(sid)];
      if sid !in scholarships {
        response := Err(HttpError(404, ScholarshipNotFound));
        return;
      }
      var request := AnalysisRequest(scholarships[sid], codec, texts);
      trace := trace + [ModelCall(request)];
      var parsed := ParsedAnalysis(complete(0, request), codec);
      if parsed.None? {
        response := Err(HttpError(500, AnalyzeFailure));
        return;
      }
      var f := parsed.value;
      trace := trace + [InsertAnalysis(sid)];
      match insert {
        case InsertFailed =>
          response := Ok(AnalyzeResponse(FallbackRow(sid, f, now), false));
        case Inserted(rowId, at) =>
          var row := StoredRow(sid, f, rowId, at);
          rows := rows[sid := row];
          response := Ok(AnalyzeResponse(row, false));
      }
    }
  }
}
