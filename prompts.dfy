/** The prompt templates of scholarlens/lib/ai/prompts.ts. JSON.stringify is
    the codec's serialiser; the long fixed instruction texts are given values. */
module Prompts {
  import opened Types
  import opened Strings
  import opened External

  /** The long fixed texts of the templates: the three system prompts, the
      opening sentence of each user prompt, the reply-format instructions each
      user prompt ends with, and the instruction for each essay angle. They
      are verbatim constants in the source; the model takes them as given. */
  datatype PromptTexts = PromptTexts(
    analysisSystem: string,
    analysisLead: string,
    analysisInstructions: string,
    matchingSystem: string,
    matchingLead: string,
    matchingInstructions: string,
    essaySystem: string,
    essayLead: string,
    essayInstructions: string,
    primaryStrengthAngle: string,
    personalStoryAngle: string,
    balancedAngle: string)

  /** The heading of the i-th (0-based) winner story: `Winner i+1:`. */
  function WinnerHeading(i: nat): string {
    "Winner " + NatToString(i + 1) + ":"
  }

  /** `\nWinner i+1:\n<story>` for each story, in input order. */
  function WinnerEntries(stories: seq<string>): (r: seq<string>)
    ensures |r| == |stories|
    ensures forall i :: 0 <= i < |r| ==> r[i] == Template(["\n", WinnerHeading(i), "\n", stories[i]])
  {
    seq(|stories|, i requires 0 <= i < |stories| => Template(["\n", WinnerHeading(i), "\n", stories[i]]))
  }

  const WinnerSectionHeader := "\n\nPast Winner Stories:\n"

  /** The past-winner section: empty exactly when there are no stories. */
  function WinnerStoriesSection(stories: Option<seq<string>>): (r: string)
    ensures r == "" <==> !NonEmptyList(stories)
  {
    if NonEmptyList(stories) then WinnerSectionHeader + Join("\n", WinnerEntries(stories.value)) else ""
  }

  /** Every story, under its heading `Winner i+1:`, appears in the section. */
  lemma WinnerSectionHoldsStories(stories: seq<string>, i: nat)
    requires i < |stories|
    ensures Contains(WinnerStoriesSection(Some(stories)), stories[i])
    ensures Contains(WinnerStoriesSection(Some(stories)), WinnerHeading(i))
  {
    var entries := WinnerEntries(stories);
    var parts := ["\n", WinnerHeading(i), "\n", stories[i]];
    var section := WinnerStoriesSection(Some(stories));
    JoinContainsPart("\n", entries, i);
    ContainsWithin(Join("\n", entries), entries[i], WinnerSectionHeader, "");
    assert WinnerSectionHeader + Join("\n", entries) + "" == section;
    TemplateContainsPart(parts, 3);
    TemplateContainsPart(parts, 1);
    ContainsTransitive(section, entries[i], stories[i]);
    ContainsTransitive(section, entries[i], WinnerHeading(i));
  }

  /** `createScholarshipAnalysisPrompt`, piece by piece. */
  function AnalysisPromptParts(s: Scholarship, codec: JsonCodec, texts: PromptTexts): seq<string> {
    [ texts.analysisLead + "\n\n**Scholarship Title:** ", s.title,
      "\n**Organization:** ", s.organization,
      "\n\n**Description:**\n", s.description,
      "\n\n**Stated Criteria:**\n", s.criteria,
      "\n\n**Requirements:**\n", codec.stringifyRequirements(s.requirements),
      "\n\n", "**Tags:** " + Join(", ", s.tags),
      "\n", WinnerStoriesSection(s.winnerStories),
      "\n\n" + texts.analysisInstructions ]
  }

  function AnalysisPrompt(s: Scholarship, codec: JsonCodec, texts: PromptTexts): string {
    Template(AnalysisPromptParts(s, codec, texts))
  }

  /** The analysis prompt carries the title, organization, description,
      criteria and serialised requirements verbatim, the tags joined with
      ", ", the winner section and the reply format. */
  lemma AnalysisPromptEmbeds(s: Scholarship, codec: JsonCodec, texts: PromptTexts)
    ensures Contains(AnalysisPrompt(s, codec, texts), s.title)
    ensures Contains(AnalysisPrompt(s, codec, texts), s.organization)
    ensures Contains(AnalysisPrompt(s, codec, texts), s.description)
    ensures Contains(AnalysisPrompt(s, codec, texts), s.criteria)
    ensures Contains(AnalysisPrompt(s, codec, texts), codec.stringifyRequirements(s.requirements))
    ensures Contains(AnalysisPrompt(s, codec, texts), "**Tags:** " + Join(", ", s.tags))
    ensures Contains(AnalysisPrompt(s, codec, texts), WinnerStoriesSection(s.winnerStories))
  {
    var parts := AnalysisPromptParts(s, codec, texts);
    TemplateContainsPart(parts, 1);
    TemplateContainsPart(parts, 3);
    TemplateContainsPart(parts, 5);
    TemplateContainsPart(parts, 7);
    TemplateContainsPart(parts, 9);
    TemplateContainsPart(parts, 11);
    TemplateContainsPart(parts, 13);
  }

  /** Each winner story appears in the analysis prompt of its scholarship. */
  lemma AnalysisPromptHoldsWinnerStories(s: Scholarship, codec: JsonCodec, texts: PromptTexts, i: nat)
    requires s.winnerStories.Some? && i < |s.winnerStories.value|
    ensures Contains(AnalysisPrompt(s, codec, texts), s.winnerStories.value[i])
  {
    AnalysisPromptEmbeds(s, codec, texts);
    WinnerSectionHoldsStories(s.winnerStories.value, i);
    ContainsTransitive(AnalysisPrompt(s, codec, texts), WinnerStoriesSection(s.winnerStories), s.winnerStories.value[i]);
  }

  /** `createMatchingPrompt`, piece by piece. */
  function MatchingPromptParts(studentData: string, scholarshipTitle: string, weights: PriorityWeights,
                               personality: PersonalityProfile, codec: JsonCodec, texts: PromptTexts): seq<string> {
    [ texts.matchingLead + "\n\n",
      "**Scholarship:** " + scholarshipTitle,
      "\n\n**Scholarship Personality:**\n", codec.stringifyPersonality(personality),
      "\n\n**Priority Weights (how much scholarship values each area):**\n", codec.stringifyWeights(weights),
      "\n\n**Student Profile:**\n", studentData,
      "\n\n" + texts.matchingInstructions ]
  }

  function MatchingPrompt(studentData: string, scholarshipTitle: string, weights: PriorityWeights,
                          personality: PersonalityProfile, codec: JsonCodec, texts: PromptTexts): string {
    Template(MatchingPromptParts(studentData, scholarshipTitle, weights, personality, codec, texts))
  }

  /** The matching prompt carries the title, the serialised personality and
      weights, and the student summary verbatim. */
  lemma MatchingPromptEmbeds(studentData: string, scholarshipTitle: string, weights: PriorityWeights,
                             personality: PersonalityProfile, codec: JsonCodec, texts: PromptTexts)
    ensures Contains(MatchingPrompt(studentData, scholarshipTitle, weights, personality, codec, texts), "**Scholarship:** " + scholarshipTitle)
    ensures Contains(MatchingPrompt(studentData, scholarshipTitle, weights, personality, codec, texts), codec.stringifyPersonality(personality))
    ensures Contains(MatchingPrompt(studentData, scholarshipTitle, weights, personality, codec, texts), codec.stringifyWeights(weights))
    ensures Contains(MatchingPrompt(studentData, scholarshipTitle, weights, personality, codec, texts), studentData)
  {
    var parts := MatchingPromptParts(studentData, scholarshipTitle, weights, personality, codec, texts);
    TemplateContainsPart(parts, 1);
    TemplateContainsPart(parts, 3);
    TemplateContainsPart(parts, 5);
    TemplateContainsPart(parts, 7);
  }

  /** The three essay angles, in the order the essay route tries them. */
  datatype Angle = PrimaryStrength | PersonalStory | Balanced

  /** The fixed instruction for an angle (`angleDescriptions`). */
  function AngleDescription(a: Angle, texts: PromptTexts): string {
    match a
    case PrimaryStrength => texts.primaryStrengthAngle
    case PersonalStory => texts.personalStoryAngle
    case Balanced => texts.balancedAngle
  }

  /** The parameters `createEssayGenerationPrompt` reads. */
  datatype EssayPromptParams = EssayPromptParams(
    studentProfile: string,
    scholarship: Scholarship,
    essayPrompt: string,
    wordLimit: int,
    analysis: ScholarshipAnalysis,
    angle: Angle)

  function WordLimitLine(n: int): string {
    "**Word Limit:** " + IntToString(n) + " words"
  }

  function StrictLimitLine(n: int): string {
    "1. Stay within " + IntToString(n) + " words (strict limit)"
  }

  function AngleLine(a: Angle, texts: PromptTexts): string {
    "**Essay Angle:** " + AngleDescription(a, texts)
  }

  /** The first half of `createEssayGenerationPrompt`: the scholarship, its
      analysis and the essay question. */
  function EssayScholarshipParts(p: EssayPromptParams, codec: JsonCodec, texts: PromptTexts): seq<string> {
    [ texts.essayLead + "\n\n**Scholarship:** ", p.scholarship.title,
      "\n**Organization:** ", p.scholarship.organization,
      "\n\n**Scholarship Analysis:**\n", codec.stringifyAnalysis(p.analysis),
      "\n\n**Essay Prompt:**\n", p.essayPrompt ]
  }

  /** The second half: the word limit, the student, the angle and the requirements. */
  function EssayStudentParts(p: EssayPromptParams, texts: PromptTexts): seq<string> {
    [ "\n\n", WordLimitLine(p.wordLimit),
      "\n\n**Student Profile:**\n", p.studentProfile,
      "\n\n", AngleLine(p.angle, texts),
      "\n\n**Requirements:**\n", StrictLimitLine(p.wordLimit),
      "\n" + texts.essayInstructions ]
  }

  /** `createEssayGenerationPrompt`. */
  function EssayGenerationPrompt(p: EssayPromptParams, codec: JsonCodec, texts: PromptTexts): string {
    Template(EssayScholarshipParts(p, codec, texts)) + Template(EssayStudentParts(p, texts))
  }

  /** The essay prompt carries the scholarship's title and organization, the
      serialised analysis and the essay question verbatim. */
  lemma EssayPromptEmbedsScholarship(p: EssayPromptParams, codec: JsonCodec, texts: PromptTexts)
    ensures Contains(EssayGenerationPrompt(p, codec, texts), p.scholarship.title)
    ensures Contains(EssayGenerationPrompt(p, codec, texts), p.scholarship.organization)
    ensures Contains(EssayGenerationPrompt(p, codec, texts), codec.stringifyAnalysis(p.analysis))
    ensures Contains(EssayGenerationPrompt(p, codec, texts), p.essayPrompt)
  {
    var head, tail := EssayScholarshipParts(p, codec, texts), EssayStudentParts(p, texts);
    forall k | k in {1, 3, 5, 7}
      ensures Contains(EssayGenerationPrompt(p, codec, texts), head[k])
    {
      TemplateContainsPart(head, k);
      ContainsBefore(Template(head), head[k], Template(tail));
    }
    assert head[1] == p.scholarship.title && head[3] == p.scholarship.organization;
    assert head[5] == codec.stringifyAnalysis(p.analysis) && head[7] == p.essayPrompt;
  }

  /** The essay prompt carries the student profile and the angle's
      instruction, and states the word limit twice: on the limit line and in
      requirement 1. */
  lemma EssayPromptEmbedsStudent(p: EssayPromptParams, codec: JsonCodec, texts: PromptTexts)
    ensures Contains(EssayGenerationPrompt(p, codec, texts), WordLimitLine(p.wordLimit))
    ensures Contains(EssayGenerationPrompt(p, codec, texts), p.studentProfile)
    ensures Contains(EssayGenerationPrompt(p, codec, texts), AngleLine(p.angle, texts))
    ensures Contains(EssayGenerationPrompt(p, codec, texts), StrictLimitLine(p.wordLimit))
  {
    var head, tail := EssayScholarshipParts(p, codec, texts), EssayStudentParts(p, texts);
    forall k | k in {1, 3, 5, 7}
      ensures Contains(EssayGenerationPrompt(p, codec, texts), tail[k])
    {
      TemplateContainsPart(tail, k);
      ContainsAfter(Template(head), Template(tail), tail[k]);
    }
    assert tail[1] == WordLimitLine(p.wordLimit) && tail[3] == p.studentProfile;
    assert tail[5] == AngleLine(p.angle, texts) && tail[7] == StrictLimitLine(p.wordLimit);
  }

  /** The two worked examples in SCHOLARSHIP_ANALYSIS_EXAMPLES, in hundredths. */
  const MeritExampleWeights := PriorityWeights(55, 10, 5, 15, 5, 10)
  const LeadershipExampleWeights := PriorityWeights(15, 40, 30, 5, 5, 5)

  function WeightSum(w: PriorityWeights): int {
    w.academic + w.leadership + w.service + w.innovation + w.personalStory + w.extracurricular
  }

  /** Six non-negative weights summing to 1.0, that is to 100 hundredths. */
  predicate Normalised(w: PriorityWeights) {
    && w.academic >= 0 && w.leadership >= 0 && w.service >= 0
    && w.innovation >= 0 && w.personalStory >= 0 && w.extracurricular >= 0
    && WeightSum(w) == 100
  }

  /** Both worked examples obey the instruction that weights sum to 1.0. */
  lemma ExampleWeightsNormalised()
    ensures Normalised(MeritExampleWeights) && Normalised(LeadershipExampleWeights)
  {
  }
}
