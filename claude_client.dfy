/** The pure helpers of scholarlens/lib/ai/claude-client.ts: option defaulting
    for a model call, picking the reply's text, and fenced-JSON extraction. */
module ClaudeClient {
  import opened Types
  import opened Strings
  import opened External

  const ClaudeModel := "claude-3-5-sonnet-20241022"
  const DefaultMaxTokens := 4096
  const DefaultTemperature := 0.7
  const InvalidJsonMessage := "Invalid JSON response from Claude"

  /** The parameters a route passes to `createMessage`. */
  datatype MessageParams = MessageParams(
    system: Option<string>,
    userContent: string,
    maxTokens: Option<int>,
    temperature: Option<real>)

  /** The request `createMessage` sends: a falsy `max_tokens` (absent or 0)
      becomes 4096 and a falsy `temperature` (absent or 0) becomes 0.7; every
      other value is kept. The effective values are therefore never 0. */
  function ToApiRequest(p: MessageParams): (r: ApiRequest)
    ensures r.model == ClaudeModel && r.system == p.system && r.userContent == p.userContent
    ensures r.maxTokens != 0 && r.temperature != 0.0
    ensures r.maxTokens == (if TruthyNumber(p.maxTokens) then p.maxTokens.value else DefaultMaxTokens)
    ensures (p.temperature.Some? && p.temperature.value != 0.0) ==> r.temperature == p.temperature.value
    ensures (p.temperature.None? || p.temperature.value == 0.0) ==> r.temperature == DefaultTemperature
  {
    var maxTokens := if p.maxTokens.Some? && p.maxTokens.value != 0 then p.maxTokens.value else DefaultMaxTokens;
    var temperature := if p.temperature.Some? && p.temperature.value != 0.0 then p.temperature.value else DefaultTemperature;
    ApiRequest(ClaudeModel, maxTokens, temperature, p.system, p.userContent)
  }

  /** `content.find(block => block.type === "text")`, as the text it carries. */
  function FindText(content: seq<ContentBlock>): (r: Option<string>)
    decreases |content|
    ensures r.None? <==> forall i :: 0 <= i < |content| ==> !content[i].TextBlock?
    ensures forall i :: (0 <= i < |content| && content[i].TextBlock? &&
                         (forall j :: 0 <= j < i ==> !content[j].TextBlock?)) ==> r == Some(content[i].text)
  {
    if |content| == 0 then None
    else if content[0].TextBlock? then Some(content[0].text)
    else FindText(content[1..])
  }

  /** The text of the first text block, or "" when the reply has none. */
  function ExtractTextContent(m: Message): string {
    FindText(m.content).GetOr("")
  }

  const FenceOpen := "```json\n"
  const FenceClose := "\n```"

  /** The text handed to JSON.parse: the capture group of the regular expression
      /```json\n([\s\S]*?)\n```/ when it matches, the whole text otherwise.
      The leftmost match starts at the first opening fence, because a closing
      fence after a later opening is also after the first one; the lazy group
      ends at the nearest closing fence after the opening. */
  function JsonCandidate(text: string): string {
    match FindFrom(text, FenceOpen, 0)
    case None => text
    case Some(p) =>
      match FindFrom(text, FenceClose, p + |FenceOpen|)
      case None => text
      case Some(q) => text[p + |FenceOpen|..q]
  }

  /** With an opening fence at p (the first one) and a closing fence at q (the
      nearest after the opening), the candidate is exactly what lies between;
      text before and after the fence is ignored. */
  lemma FencedCandidate(text: string, p: nat, q: nat)
    requires OccursAt(text, FenceOpen, p)
    requires forall j :: 0 <= j < p ==> !OccursAt(text, FenceOpen, j)
    requires p + |FenceOpen| <= q && OccursAt(text, FenceClose, q)
    requires forall j :: p + |FenceOpen| <= j < q ==> !OccursAt(text, FenceClose, j)
    ensures JsonCandidate(text) == text[p + |FenceOpen|..q]
  {
  }

  /** Without an opening fence that has a closing fence after it, the whole
      text is the candidate. */
  lemma UnfencedCandidate(text: string)
    requires forall p, q :: OccursAt(text, FenceOpen, p) && p + |FenceOpen| <= q ==> !OccursAt(text, FenceClose, q)
    ensures JsonCandidate(text) == text
  {
  }

  /** Wrapping a JSON text that holds no closing fence in a ```json fence and
      extracting gives the text back. */
  lemma {:induction false} FenceRoundTrip(s: string)
    requires forall j :: !OccursAt(s, FenceClose, j)
    ensures JsonCandidate(FenceOpen + s + FenceClose) == s
  {
    var text := FenceOpen + s + FenceClose;
    var n := |FenceOpen|;
    var q := n + |s|;
    assert OccursAt(text, FenceOpen, 0) by { assert text[0..n] == FenceOpen; }
    assert OccursAt(text, FenceClose, q) by { assert text[q..q + |FenceClose|] == FenceClose; }
    forall j | n <= j < q
      ensures !OccursAt(text, FenceClose, j)
    {
      if j + |FenceClose| <= q {
        var w, v := text[j..j + |FenceClose|], s[j - n..j - n + |FenceClose|];
        forall d | 0 <= d < |FenceClose|
          ensures w[d] == v[d]
        {
          assert w[d] == text[j + d];
        }
        assert w == v;
        assert !OccursAt(s, FenceClose, j - n);
      } else {
        // the closing fence's newline sits at q, where the pattern wants a backtick
        assert text[q] == '\n';
      }
    }
    FencedCandidate(text, 0, q);
    assert text[n..q] == s;
  }

  /** `parseJSONResponse`: JSON.parse of the candidate text, with every parse
      failure reported as the single error "Invalid JSON response from Claude". */
  function ParseJsonResponse<T>(m: Message, parse: string -> Option<T>): (r: Result<T, string>)
    ensures r.Err? ==> r.error == InvalidJsonMessage
    ensures r.Ok? <==> parse(JsonCandidate(ExtractTextContent(m))).Some?
    ensures r.Ok? ==> r.value == parse(JsonCandidate(ExtractTextContent(m))).value
  {
    match parse(JsonCandidate(ExtractTextContent(m)))
    case Some(v) => Ok(v)
    case None => Err(InvalidJsonMessage)
  }

  /** A reply whose first text block is a fenced JSON text is parsed from the
      text inside the fence, whatever blocks precede it. */
  lemma FencedReplyParses<T>(m: Message, k: nat, s: string, parse: string -> Option<T>)
    requires k < |m.content| && m.content[k] == TextBlock(FenceOpen + s + FenceClose)
    requires forall j :: 0 <= j < k ==> !m.content[j].TextBlock?
    requires forall j :: !OccursAt(s, FenceClose, j)
    ensures ParseJsonResponse(m, parse) == (if parse(s).Some? then Ok(parse(s).value) else Err(InvalidJsonMessage))
  {
    assert ExtractTextContent(m) == FenceOpen + s + FenceClose;
    FenceRoundTrip(s);
  }
}
