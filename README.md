# ScholarLens core, modelled in Dafny

ScholarLens matches students to scholarships with the help of a language
model. This project models the server-side core and proves properties of it:

- **Prompt templates.** There is one template for a scholarship analysis, one
  for a student–scholarship match score, and one per essay angle.
- **Model client.** It builds the request and pulls the JSON out of a reply.
- **The three API routes.**
  - `POST /api/analyze-scholarship` is a cache-or-compute over the analysis
    table.
  - `POST /api/match-scholarships` validates the request, filters the listed
    scholarships to the analysed ones, scores each one with one model call,
    keeps the calls that succeed and sorts the matches by score.
  - `POST /api/generate-essay` validates the request, formats the profile, and
    asks for one draft per angle, keeping the drafts that come back.
- **Two display rules.** The scholarship card and the match score gauge each
  have one.

The model replaces the parts it cannot see with inputs:

- **The language model** is a function `complete(k, request)`. It gives the
  reply to the k-th call of a request, or `None` when the call throws.
- **JSON** parsing and serialisation are the function fields of a `JsonCodec`.
  A parse yields `None` when the text is not valid JSON.
- **The database tables** are maps. The scholarship listing is a function of
  the `limit`. The analysis table that the analysis route changes is a class
  with a map field.
- **Effects.** Every route returns a `trace` of the store reads, model calls
  and inserts it makes, in order. "No model call when validation fails" is
  then a statement about that trace.
- **Where the source builds text step by step**, the model does the same:
  `sections.push` in a loop becomes a method with a loop. The loop is proved
  equal to a function that gives the sections of a profile, and the
  properties are proved about that function.
- **The match sort** is an in-place insertion sort on an array. It is proved
  to give a sorted permutation.

Modules: one per source file (`ClaudeClient`, `Prompts`,
`AnalyzeScholarship`, `MatchScholarships`, `GenerateEssay`, `ScholarshipCard`,
`MatchScoreGauge`), plus the shared `Types`, `Strings` (join, search, number
rendering), `External` (the model and the store as inputs) and `Attempts`
(what a try-each-keep-successes loop yields).

## Model

| member | source | states |
|---|---|---|
| ClaudeClient.ToApiRequest | scholarlens/lib/ai/claude-client.ts:23-29 | the request uses the fixed model; an absent or 0 `max_tokens` becomes 4096 and an absent or 0 temperature becomes 0.7; system and content pass through |
| ClaudeClient.FindText | scholarlens/lib/ai/claude-client.ts:68-71 | it yields the text of the first text block, and None exactly when no block is text |
| ClaudeClient.FencedCandidate | scholarlens/lib/ai/claude-client.ts:79-81 | when the text holds an opening json fence, the JSON text is what lies between the first such fence and the first closing fence after it (the lazy match) |
| ClaudeClient.UnfencedCandidate | scholarlens/lib/ai/claude-client.ts:79-81 | without an opening fence followed by a closing one, the whole text is parsed |
| ClaudeClient.FenceRoundTrip | scholarlens/lib/ai/claude-client.ts:79-81 | fencing a text that holds no closing fence and then extracting gives the text back |
| ClaudeClient.ParseJsonResponse | scholarlens/lib/ai/claude-client.ts:76-89 | success exactly when the candidate text parses, with the parsed value; otherwise the error "Invalid JSON response from Claude" |
| ClaudeClient.FencedReplyParses | scholarlens/lib/ai/claude-client.ts:68-84 | a reply whose first text block is a fenced JSON text parses to what the fenced text parses to |
| Strings.FindFrom | scholarlens/lib/ai/claude-client.ts:80 | it gives the first occurrence at or after the start, and None exactly when there is none |
| Strings.JoinContainsPart | scholarlens/lib/ai/prompts.ts:20-22 | every part of a `join` occurs in the joined text |
| Strings.TemplateContainsPart | scholarlens/lib/ai/prompts.ts:25-40 | every interpolated value of a template literal occurs in the rendered text |
| Strings.Round | scholarlens/components/match-score-gauge.tsx:59 | `Math.round`: the result is within one half of the input, and a half rounds up |
| Prompts.WinnerEntries | scholarlens/lib/ai/prompts.ts:20-22 | one entry per winner story, in order, the i-th headed `Winner i+1:` |
| Prompts.WinnerStoriesSection | scholarlens/lib/ai/prompts.ts:18-23 | the winner section is empty exactly when the stories are absent or empty |
| Prompts.WinnerSectionHoldsStories | scholarlens/lib/ai/prompts.ts:18-23 | every story and its heading appear in the winner section |
| Prompts.AnalysisPromptEmbeds | scholarlens/lib/ai/prompts.ts:25-40 | the analysis prompt holds the title, organization, description, criteria and serialised requirements verbatim, the tags joined with ", ", and the winner section |
| Prompts.AnalysisPromptHoldsWinnerStories | scholarlens/lib/ai/prompts.ts:18-40 | every winner story appears in the analysis prompt |
| Prompts.MatchingPromptEmbeds | scholarlens/lib/ai/prompts.ts:94-105 | the matching prompt holds the scholarship line, the serialised personality and weights, and the student summary |
| Prompts.EssayPromptEmbedsScholarship | scholarlens/lib/ai/prompts.ts:169-178 | the essay prompt holds the title, the organization, the serialised analysis and the essay question |
| Prompts.EssayPromptEmbedsStudent | scholarlens/lib/ai/prompts.ts:180-188 | the essay prompt holds the student profile and the angle's instruction, and states the word limit on its own line and in requirement 1 |
| Prompts.ExampleWeightsNormalised | scholarlens/lib/ai/prompts.ts:231-267 | both worked examples' priority weights are non-negative and sum to 1.0, as instruction 1 of the analysis prompt demands |
| External.ModelCalls | scholarlens/app/api/match-scholarships/route.ts:74-79 | one model-call effect per request, in order |
| External.Replies | scholarlens/app/api/match-scholarships/route.ts:74-79 | one reply per request: the k-th is the model's answer to the k-th call |
| Attempts.OriginsSound | scholarlens/app/api/match-scholarships/route.ts:62-111 | each kept result is the value of its attempt, the kept results are in attempt order, and every successful attempt is kept |
| Attempts.SuccessesEmpty | scholarlens/app/api/generate-essay/route.ts:103-150 | nothing is kept exactly when every attempt fails |
| Attempts.SuccessesAll | scholarlens/app/api/match-scholarships/route.ts:62-111 | when every attempt succeeds, all the results are kept, in order |
| AnalyzeScholarship.AnalysisRequest | scholarlens/app/api/analyze-scholarship/route.ts:56-63 | the analysis call: system prompt, the analysis prompt of the scholarship, temperature 0.7, 2048 tokens |
| AnalyzeScholarship.ParsedAnalysis | scholarlens/app/api/analyze-scholarship/route.ts:58-71 | there are fields exactly when the call returned and its reply parses |
| AnalyzeScholarship.AnalyzeStep | scholarlens/app/api/analyze-scholarship/route.ts:14-111 | the table changes only by the one row that a successful insert, after a miss, stores under the requested id; at most four effects |
| AnalyzeScholarship.AnalyzeIdRequired | scholarlens/app/api/analyze-scholarship/route.ts:16-23 | an unreadable body is a 500 and a missing or empty id a 400, both with no access and the table unchanged |
| AnalyzeScholarship.AnalyzeCacheHit | scholarlens/app/api/analyze-scholarship/route.ts:28-39 | a hit returns the stored row with `cached: true` after one table read: no model call or insert, and the table is unchanged |
| AnalyzeScholarship.AnalyzeUnknownScholarship | scholarlens/app/api/analyze-scholarship/route.ts:42-53 | a miss on an unknown scholarship is a 404 with no model call, no insert and the table unchanged |
| AnalyzeScholarship.AnalyzeComputes | scholarlens/app/api/analyze-scholarship/route.ts:55-103 | see the analyze-miss rules below the table |
| AnalyzeScholarship.AnalyzeErrorChangesNothing | scholarlens/app/api/analyze-scholarship/route.ts:65-110 | a failing request leaves the table unchanged and inserts nothing |
| AnalyzeScholarship.AnalyzeKeepsKeys | scholarlens/app/api/analyze-scholarship/route.ts:74-85 | every row stays stored under its own scholarship id |
| AnalyzeScholarship.SecondCallHits | scholarlens/app/api/analyze-scholarship/route.ts:28-85 | after a hit or a stored insert, the next request for the same id is a hit returning that row, whatever the model or the insert would do |
| AnalyzeScholarship.AnalysisForRequestedId | scholarlens/app/api/analyze-scholarship/route.ts:27-104 | over a table keyed by id, every successful answer (cached, stored or fallback) is an analysis whose `scholarship_id` is the requested id |
| AnalyzeScholarship.AnalysisTable.constructor | scholarlens/app/api/analyze-scholarship/route.ts:28-32 | the analysis table starts empty |
| AnalyzeScholarship.AnalysisTable.Analyze | scholarlens/app/api/analyze-scholarship/route.ts:14-111 | the route, step by step against the table field: its response, trace and new table are those of `AnalyzeStep`, the table stays keyed by id, and a successful answer carries the requested id |
| MatchScholarships.PushSection | scholarlens/app/api/match-scholarships/route.ts:150-185 | a guarded `forEach` push appends the header and every item's lines, or nothing for an absent or empty list |
| MatchScholarships.PushAcademic | scholarlens/app/api/match-scholarships/route.ts:132-147 | it pushes the academic lines of the summary |
| MatchScholarships.PushPersonal | scholarlens/app/api/match-scholarships/route.ts:187-199 | it pushes the personal-background lines of the summary |
| MatchScholarships.FormatStudentData | scholarlens/app/api/match-scholarships/route.ts:129-202 | `formatStudentData`: its text is the summary's sections joined with newlines |
| MatchScholarships.SummaryOpensWithAcademics | scholarlens/app/api/match-scholarships/route.ts:133 | the summary starts with the academic header, and that header stands alone when no academic field is set |
| MatchScholarships.GpaBeforeGradeLevel | scholarlens/app/api/match-scholarships/route.ts:134-136 | when both are given, the GPA line comes right before the grade-level line |
| MatchScholarships.AchievementsOnOneLine | scholarlens/app/api/match-scholarships/route.ts:143-147 | the achievements are on one line, joined with ", ", and each achievement is on it |
| MatchScholarships.PersonalBlockLines | scholarlens/app/api/match-scholarships/route.ts:188-199 | the personal block is empty without a story; otherwise it is its header plus one line per given story field |
| MatchScholarships.NotPersonalHeader | scholarlens/app/api/match-scholarships/route.ts:132-185 | no line before the personal block is the personal header |
| MatchScholarships.SummaryLine | scholarlens/app/api/match-scholarships/route.ts:150-185 | every line of a list section is its header or a `- ` item line |
| MatchScholarships.PersonalHeaderIff | scholarlens/app/api/match-scholarships/route.ts:188-193 | the personal header appears exactly when the student has a background, challenges or goals |
| MatchScholarships.SummaryOmitsFalsy | scholarlens/app/api/match-scholarships/route.ts:129-202 | empty strings, a zero GPA and empty lists give exactly the summary that absent fields give, as the essay profile does |
| MatchScholarships.WithAnalysis | scholarlens/app/api/match-scholarships/route.ts:53-56 | a scholarship is kept exactly when its analysis list is non-empty, and none is added |
| MatchScholarships.WithAnalysisCounts | scholarlens/app/api/match-scholarships/route.ts:53-56 | each row with an analysis is kept as many times as the listing holds it, and a row without one not at all |
| MatchScholarships.WithAnalysisSnoc | scholarlens/app/api/match-scholarships/route.ts:53-56 | a listing one row longer filters to the old result plus that row exactly when it has an analysis |
| MatchScholarships.WithAnalysisAppend | scholarlens/app/api/match-scholarships/route.ts:53-56 | filtering a concatenation is the concatenation of the filtered parts, so the kept rows stay in listing order |
| MatchScholarships.CheckMatchRequest | scholarlens/app/api/match-scholarships/route.ts:9-56 | validation passes only with analysed rows |
| MatchScholarships.MatchIdRequired | scholarlens/app/api/match-scholarships/route.ts:9-16 | a missing id is a 400 with no access; an absent limit lists 10 scholarships |
| MatchScholarships.MatchValidationPasses | scholarlens/app/api/match-scholarships/route.ts:9-56 | validation passes exactly when the id is given, the student exists and the listing succeeds; the rows are then the analysed listed ones, none for null data |
| MatchScholarships.MatchRequest | scholarlens/app/api/match-scholarships/route.ts:64-79 | the match call: system prompt, 0.5, 1500 tokens, and the matching prompt with the first analysis row's weights and personality |
| MatchScholarships.MatchRequests | scholarlens/app/api/match-scholarships/route.ts:63-79 | one call per analysed scholarship, in order |
| MatchScholarships.MatchOutcome | scholarlens/app/api/match-scholarships/route.ts:74-110 | a match exactly when the call returned and its reply parses; it carries the scholarship summary, the first analysis row and the parsed fields |
| MatchScholarships.MatchOutcomes | scholarlens/app/api/match-scholarships/route.ts:63-111 | one outcome per analysed scholarship, each from its own reply |
| MatchScholarships.ScoreScholarships | scholarlens/app/api/match-scholarships/route.ts:62-111 | the loop makes exactly the calls `MatchRequests` lists and keeps exactly the successful outcomes, in listing order |
| MatchScholarships.SwapLeft | scholarlens/app/api/match-scholarships/route.ts:114 | exchanging two adjacent matches keeps the multiset |
| MatchScholarships.InsertLeft | scholarlens/app/api/match-scholarships/route.ts:114 | one insertion pass extends the sorted prefix by one and keeps the multiset |
| MatchScholarships.SortByScore | scholarlens/app/api/match-scholarships/route.ts:114 | after the sort the array is in descending score order and is a permutation of the input |
| MatchScholarships.SortedMatches | scholarlens/app/api/match-scholarships/route.ts:114 | the result is in descending score order and has the same matches |
| MatchScholarships.MatchScholarshipsRoute | scholarlens/app/api/match-scholarships/route.ts:7-124 | a validation error is returned with only the validation reads; otherwise one call per analysed scholarship, and the answer is the successful matches, sorted, as a permutation |
| MatchScholarships.MatchesFromAnalysedRows | scholarlens/app/api/match-scholarships/route.ts:63-106 | the j-th match is the outcome of an analysed scholarship at a strictly increasing position |
| MatchScholarships.MatchesKeepEverySuccess | scholarlens/app/api/match-scholarships/route.ts:107-111 | every scholarship whose reply gave a match is among the matches: a failure drops only its own scholarship |
| MatchScholarships.NothingScored | scholarlens/app/api/match-scholarships/route.ts:62-116 | when no reply gives a match, the matches are empty rather than an error |
| MatchScholarships.AllScored | scholarlens/app/api/match-scholarships/route.ts:62-111 | when every reply gives a match, every analysed scholarship is scored, each by its own reply |
| GenerateEssay.ApEntries | scholarlens/app/api/generate-essay/route.ts:196-200 | one `subject (score)` entry per AP score, in order |
| GenerateEssay.PushBullets | scholarlens/app/api/generate-essay/route.ts:210-212 | the loop appends `- item` for every item |
| GenerateEssay.PushBulletSection | scholarlens/app/api/generate-essay/route.ts:205-213 | a bullet section is its header and items, or nothing for an absent or empty list |
| GenerateEssay.PushActivities | scholarlens/app/api/generate-essay/route.ts:218-224 | each activity adds its title and description lines, plus the impact line when it is non-empty |
| GenerateEssay.PushActivitySection | scholarlens/app/api/generate-essay/route.ts:216-225 | the extracurricular section, or nothing |
| GenerateEssay.PushRoles | scholarlens/app/api/generate-essay/route.ts:230-237 | each role adds its title and responsibilities lines, plus the achievements line when it is non-empty |
| GenerateEssay.PushRoleSection | scholarlens/app/api/generate-essay/route.ts:228-238 | the leadership section, or nothing |
| GenerateEssay.PushVolunteerEntry | scholarlens/app/api/generate-essay/route.ts:252-256 | one volunteer entry's lines |
| GenerateEssay.PushVolunteerWork | scholarlens/app/api/generate-essay/route.ts:251-257 | every volunteer entry's lines, in order |
| GenerateEssay.PushVolunteerSection | scholarlens/app/api/generate-essay/route.ts:249-258 | the volunteer section, or nothing |
| GenerateEssay.PushProjects | scholarlens/app/api/generate-essay/route.ts:267-274 | each project adds title, description and outcomes, with the technologies line between when the list is non-empty |
| GenerateEssay.PushProjectSection | scholarlens/app/api/generate-essay/route.ts:265-275 | the projects section, or nothing |
| GenerateEssay.PushTestScores | scholarlens/app/api/generate-essay/route.ts:186-202 | the test score block: header, SAT and ACT when truthy, the AP line when non-empty |
| GenerateEssay.PushStorySection | scholarlens/app/api/generate-essay/route.ts:278-291 | a story section is its header and the text, or nothing for a falsy text |
| GenerateEssay.PushTail | scholarlens/app/api/generate-essay/route.ts:249-297 | the second half of the profile |
| GenerateEssay.FormatStudentProfile | scholarlens/app/api/generate-essay/route.ts:177-300 | `formatStudentProfile`: its text is the profile's sections joined with newlines |
| GenerateEssay.ProfileStartsWithName | scholarlens/app/api/generate-essay/route.ts:180 | the profile opens with the name line |
| GenerateEssay.ProfileIdentityLines | scholarlens/app/api/generate-essay/route.ts:181-183 | grade level, then GPA, each only when truthy, and a falsy value prints as an absent one |
| GenerateEssay.ProfileOmitsFalsyFields | scholarlens/app/api/generate-essay/route.ts:181-297 | an empty string, a 0 or an empty list prints exactly as an absent field |
| GenerateEssay.HeadOmitsFalsyFields | scholarlens/app/api/generate-essay/route.ts:181-246 | the same for the first half of the profile |
| GenerateEssay.TailOmitsFalsyFields | scholarlens/app/api/generate-essay/route.ts:249-297 | the same for the second half |
| GenerateEssay.NoFalsyStory | scholarlens/app/api/generate-essay/route.ts:278-291 | a story section treats an empty text as absent |
| GenerateEssay.ProfileTestScoresHeader | scholarlens/app/api/generate-essay/route.ts:186-187 | a test score object prints its header even when it holds no score |
| GenerateEssay.ProfileShowsAchievements | scholarlens/app/api/generate-essay/route.ts:205-213 | every achievement appears, under its header |
| GenerateEssay.ProfileShowsAwards | scholarlens/app/api/generate-essay/route.ts:241-246 | every award appears, under its header |
| GenerateEssay.ProfileShowsActivities | scholarlens/app/api/generate-essay/route.ts:216-225 | every line of every activity appears, under its header |
| GenerateEssay.ProfileShowsRoles | scholarlens/app/api/generate-essay/route.ts:228-238 | every line of every role appears, under its header |
| GenerateEssay.ProfileShowsVolunteerWork | scholarlens/app/api/generate-essay/route.ts:249-258 | every line of every volunteer entry appears, under its header |
| GenerateEssay.ProfileShowsProjects | scholarlens/app/api/generate-essay/route.ts:265-275 | every line of every project appears, under its header |
| GenerateEssay.ProfileTextHoldsLine | scholarlens/app/api/generate-essay/route.ts:299 | every section line occurs in the joined profile text |
| GenerateEssay.BareProfile | scholarlens/app/api/generate-essay/route.ts:177-300 | a profile with only a name prints as the name line alone |
| GenerateEssay.AngleLabelsDistinct | scholarlens/app/api/generate-essay/route.ts:166-175 | the three angle labels differ |
| GenerateEssay.CheckEssayRequest | scholarlens/app/api/generate-essay/route.ts:17-91 | validation reads at most the student and the scholarship, and calls no model |
| GenerateEssay.EssayIdsRequired | scholarlens/app/api/generate-essay/route.ts:23-28 | a missing student or scholarship id is a 400 with no access |
| GenerateEssay.EssayValidationPasses | scholarlens/app/api/generate-essay/route.ts:17-91 | see the essay-validation rules below the table |
| GenerateEssay.EssayRejectionStatus | scholarlens/app/api/generate-essay/route.ts:17-91 | a rejection is a 400, 404 or 500; a 500 exactly for an unreadable body, a 404 exactly for a missing student or scholarship |
| GenerateEssay.DraftRequest | scholarlens/app/api/generate-essay/route.ts:108-122 | the draft call: essay system prompt, 0.8, 3000 tokens, the angle's essay prompt |
| GenerateEssay.DraftPromptContents | scholarlens/app/api/generate-essay/route.ts:108-115 | the draft prompt holds the profile, the angle's instruction, the word limit and the essay question |
| GenerateEssay.DraftRequests | scholarlens/app/api/generate-essay/route.ts:97-122 | one call per angle, in the order primary strength, personal story, balanced |
| GenerateEssay.DraftOutcome | scholarlens/app/api/generate-essay/route.ts:117-142 | a draft exactly when the call returned and its reply parses; it is version i+1 with the angle's label and the parsed fields |
| GenerateEssay.DraftOutcomes | scholarlens/app/api/generate-essay/route.ts:103-143 | one outcome per angle, each from its own reply |
| GenerateEssay.DraftsResponse | scholarlens/app/api/generate-essay/route.ts:145-156 | a 500 exactly when no draft came back; otherwise the drafts, the analysis and the selected prompt |
| GenerateEssay.DraftLoop | scholarlens/app/api/generate-essay/route.ts:103-143 | the loop makes exactly the listed calls and keeps exactly the successful drafts, in angle order |
| GenerateEssay.GenerateEssays | scholarlens/app/api/generate-essay/route.ts:15-164 | a validation error is returned after only its reads, with no model call; otherwise three calls and the response of the successful drafts |
| GenerateEssay.DraftVersions | scholarlens/app/api/generate-essay/route.ts:103-143 | see the draft-version rules below the table |
| GenerateEssay.AllAnglesFailed | scholarlens/app/api/generate-essay/route.ts:145-150 | the response is the 500 exactly when every angle failed |
| GenerateEssay.MiddleAngleFails | scholarlens/app/api/generate-essay/route.ts:139-143 | when only the middle angle fails, there are two drafts, versions 1 and 3 |
| ScholarshipCard.MatchColor | scholarlens/components/scholarship-card.tsx:42-48 | green exactly from 80, yellow exactly on [60, 80), gray exactly below 60 |
| ScholarshipCard.MatchColorMonotone | scholarlens/components/scholarship-card.tsx:42-48 | a higher score never gets a lower band |
| ScholarshipCard.Href | scholarlens/components/scholarship-card.tsx:51 | the link is `/scholarships/` followed by the id |
| ScholarshipCard.HrefIdentifies | scholarlens/components/scholarship-card.tsx:51 | the id is recoverable from the link, so different scholarships link to different pages |
| ScholarshipCard.Badge | scholarlens/components/scholarship-card.tsx:59-63 | a badge exactly when a score is given, coloured by its band and labelled with the rounded score |
| ScholarshipCard.ShownTags | scholarlens/components/scholarship-card.tsx:77 | the first min(3, n) tags, in order |
| ScholarshipCard.OverflowCount | scholarlens/components/scholarship-card.tsx:82-86 | an overflow count exactly when there are more than three tags, and it is positive |
| ScholarshipCard.TagsAccounted | scholarlens/components/scholarship-card.tsx:77-86 | the shown tags plus the overflow count are all the tags, and the hidden ones are those after the shown ones |
| ScholarshipCard.Card | scholarlens/components/scholarship-card.tsx:50-91 | the card shows the link, title, organization, badge, first tags and `+n` overflow badge |
| MatchScoreGauge.Color | scholarlens/components/match-score-gauge.tsx:7-12 | green exactly from 80, yellow exactly on [60, 80), orange exactly on [40, 60), red exactly below 40 |
| MatchScoreGauge.ColorMonotone | scholarlens/components/match-score-gauge.tsx:7-12 | a higher score never gets a lower band |
| MatchScoreGauge.SizeClasses | scholarlens/components/match-score-gauge.tsx:14-23 | "sm" is small, "lg" is large, anything else is medium |
| MatchScoreGauge.Gauge | scholarlens/components/match-score-gauge.tsx:6-60 | the size classes of the given or default size, and the rounded score as the number |
| MatchScoreGauge.DefaultIsMedium | scholarlens/components/match-score-gauge.tsx:6 | without a size the gauge is medium |
| MatchScoreGauge.RingMatchesNumber | scholarlens/components/match-score-gauge.tsx:51-57 | the ring and the number carry the same colour class, the score's band |
| MatchScoreGauge.NumberNearScore | scholarlens/components/match-score-gauge.tsx:59 | the number shown is within one half of the score |

Three rows need more than a table cell.

`AnalyzeComputes` describes a miss on a known scholarship:

- There is exactly one model call, with the analysis prompt.
- The insert under the id happens exactly when the reply parses.
- A reply that does not parse is a 500, and nothing is inserted.
- A parsed reply gives `cached: false`. A successful insert returns the stored
  row and adds it to the table. A failed insert returns the parsed fields with
  the id and the current time, and leaves the table unchanged.

`EssayValidationPasses` says validation passes exactly when all of these hold:

- both ids are given;
- both the student and the scholarship exist;
- the scholarship has an analysis;
- it has at least one essay prompt;
- the index, 0 when absent, is in range.

The context is then the student, the first analysis row and the selected
prompt.

`DraftVersions` says:

- there are at most three drafts;
- each draft is the outcome of the angle its version names, and carries that
  angle's label;
- the versions strictly increase;
- every angle whose reply parsed has its draft.

## Left out

- The wording of the system prompts, of the opening sentence of each user
  prompt, of the reply-format instructions and of the three angle
  instructions is taken as given, as the fields of `PromptTexts`. The model
  does not check those constants against their text. The pieces that
  surround interpolated values are written out.
- The language model SDK, the API key check, `streamMessage` and the network
  are left out. A call that throws is a `None` reply. The request carries a
  single user message.
- `JSON.parse` and `JSON.stringify` are the `JsonCodec` inputs. A reply that
  parses but lacks a field, or has one of the wrong type, is not modelled: the
  parsed fields are assumed well-typed.
- A database error other than "no row" is not modelled. Each lookup is a map
  lookup, and the listing either fails or gives rows. `createClient`
  throwing is not modelled either.
- AnalyzeScholarship.AnalyzeStep: `.single()` on the analysis table fails
  when several rows share a scholarship id. That makes the source treat it as
  a miss. Here the table holds one row per id. Each request also runs as
  one atomic step: in the source, awaits separate the cache read from the
  insert, so two concurrent misses for one id can both insert and produce
  exactly that several-row state. Concurrent interleaving is not modelled.
- AnalyzeScholarship.FallbackRow: the spread `...analysisData` also copies any
  extra keys of the reply into the returned analysis, and a reply key named
  `scholarship_id` would override the id. Only the five typed fields are
  modelled.
- `new Date().toISOString()` is the `now` input. The row id and timestamp the
  database assigns come in the `InsertOutcome` input.
- MatchScholarships.SortByScore: `Array.prototype.sort` is stable; the model
  proves a sorted permutation but says nothing about the order of equal
  scores. The comparator's behaviour on non-numeric or NaN scores is not
  modelled, because scores are integers here.
- Match scores, SAT and ACT scores, hours and word limits are integers. GPA
  is an integer count of hundredths, rendered as JavaScript renders a number
  with at most two decimals. Priority weights (`PriorityWeights`) and the
  match breakdown (`MatchBreakdown`) are integer hundredths too, so a reply
  weight such as 0.333 cannot be represented; nothing computes on them, and
  they only pass through the codec. The card and the gauge take scores as
  reals.
- The body's `limit` (10 when absent) is passed to the listing unchanged. A non-numeric
  limit or a non-integer `essay_prompt_index` is not modelled, and neither
  is a JSON `null` for a defaulted field, which the destructuring defaults
  would not replace.
- GenerateEssay: the three draft requests are built before the loop. The
  source builds each prompt inside it, but a prompt depends only on the
  validated context, the profile and the angle, so the calls are the same.
- The amount (`Intl.NumberFormat`) and deadline (`toLocaleDateString`)
  formatting on the card, the gauge's ring geometry (circumference and dash
  offset, floating point) and the React markup are left out.
- Logging with `console.error` is left out.
