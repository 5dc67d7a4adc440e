/** The collaborators the routes call but this model does not contain: the
    language-model service, JSON.parse / JSON.stringify, and the store. Each is
    a value passed in, so every operation is deterministic once they are fixed. */
module External {
  import opened Types

  /** A content block of a model reply; only text blocks carry text. */
  datatype ContentBlock = TextBlock(text: string) | NonTextBlock

  /** A model reply (`Anthropic.Message`, reduced to its content blocks). */
  datatype Message = Message(content: seq<ContentBlock>)

  /** What is sent to the model service, after option defaulting. */
  datatype ApiRequest = ApiRequest(
    model: string,
    maxTokens: int,
    temperature: real,
    system: Option<string>,
    userContent: string)

  /** The model service. The first argument is the ordinal of the call within one
      request, so two calls with equal requests may get different replies;
      None is a call that throws. */
  type Completion = (nat, ApiRequest) -> Option<Message>

  /** One observable interaction of a route with the store or the model service. */
  datatype Effect =
    | ReadStudent(studentId: string)
    | ReadScholarship(scholarshipId: string)
    | ReadAnalysis(analysisKey: string)
    | ListScholarships(limit: int)
    | InsertAnalysis(insertKey: string)
    | ModelCall(request: ApiRequest)

  /** The model calls made for `requests`, in order. */
  function ModelCalls(requests: seq<ApiRequest>): (r: seq<Effect>)
    ensures |r| == |requests|
    ensures forall i :: 0 <= i < |r| ==> r[i] == ModelCall(requests[i])
  {
    seq(|requests|, i requires 0 <= i < |requests| => ModelCall(requests[i]))
  }

  /** One more request appends its model call. */
  lemma ModelCallsSnoc(requests: seq<ApiRequest>, r: ApiRequest)
    ensures ModelCalls(requests + [r]) == ModelCalls(requests) + [ModelCall(r)]
  {
  }

  /** The replies to `requests` sent in order, the i-th as call i. */
  function Replies(requests: seq<ApiRequest>, complete: Completion): (r: seq<Option<Message>>)
    ensures |r| == |requests|
    ensures forall i :: 0 <= i < |r| ==> r[i] == complete(i, requests[i])
  {
    seq(|requests|, i requires 0 <= i < |requests| => complete(i, requests[i]))
  }

  /** The fields the analysis route reads from a parsed analysis reply. */
  datatype AnalysisFields = AnalysisFields(
    personality: PersonalityProfile,
    weights: PriorityWeights,
    hiddenPriorities: seq<string>,
    successPatterns: seq<string>,
    messagingStrategy: string)

  /** The fields the matching route reads from a parsed match reply. */
  datatype MatchFields = MatchFields(
    matchScore: int,
    breakdown: MatchBreakdown,
    explanation: string,
    alignedExperiences: seq<string>,
    gaps: seq<string>,
    recommendations: seq<string>)

  /** The fields the essay route reads from a parsed draft reply. */
  datatype DraftFields = DraftFields(
    content: string,
    wordCount: int,
    reasoning: string,
    highlightedExperiences: seq<string>)

  /** JSON.stringify (the pretty-printed form the prompts embed) and JSON.parse
      followed by reading the typed fields; a parse yields None on failure. */
  datatype JsonCodec = JsonCodec(
    stringifyRequirements: Requirements -> string,
    stringifyPersonality: PersonalityProfile -> string,
    stringifyWeights: PriorityWeights -> string,
    stringifyAnalysis: ScholarshipAnalysis -> string,
    parseAnalysis: string -> Option<AnalysisFields>,
    parseMatch: string -> Option<MatchFields>,
    parseDraft: string -> Option<DraftFields>)
}
