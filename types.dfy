/** Records of the ScholarLens data model (scholarlens/lib/types.ts), plus the
    Option/Result wrappers and JavaScript truthiness used by every route. */
module Types {

  datatype Option<+T> = None | Some(value: T) {
    /** The value, or `default` when absent (a destructuring default). */
    function GetOr(default: T): T {
      match this
      case Some(v) => v
      case None => default
    }
  }

  datatype Result<+T, +E> = Ok(value: T) | Err(error: E)

  /** An HTTP error response: a status code and the body's `error` text. */
  datatype HttpError = HttpError(status: int, message: string)

  /** JavaScript truthiness of an optional string: absent and "" are falsy. */
  predicate TruthyString(s: Option<string>) {
    s.Some? && s.value != ""
  }

  /** JavaScript truthiness of an optional number: absent and 0 are falsy. */
  predicate TruthyNumber(n: Option<int>) {
    n.Some? && n.value != 0
  }

  /** `list && list.length > 0`, equivalently `list?.length` taken as a condition. */
  predicate NonEmptyList<T>(l: Option<seq<T>>) {
    l.Some? && |l.value| > 0
  }

  datatype EssayPrompt = EssayPrompt(question: string, wordLimit: int)

  datatype Requirements = Requirements(
    gpaMin: Option<int>,
    gradeLevel: Option<seq<string>>,
    citizenship: Option<seq<string>>,
    fieldOfStudy: Option<seq<string>>,
    other: Option<seq<string>>)

  /** A scholarship row. The list columns the routes guard against being null
      (`essay_prompts`, `winner_stories`) are optional here. */
  datatype Scholarship = Scholarship(
    id: string,
    title: string,
    organization: string,
    description: string,
    criteria: string,
    amount: int,
    deadline: string,
    essayPrompts: Option<seq<EssayPrompt>>,
    winnerStories: Option<seq<string>>,
    requirements: Requirements,
    tags: seq<string>)

  datatype PersonalityProfile = PersonalityProfile(
    personalityType: string,
    traits: seq<string>,
    values: seq<string>,
    tone: string)

  /** The six priority categories, weights in hundredths (0.55 is 55). */
  datatype PriorityWeights = PriorityWeights(
    academic: int,
    leadership: int,
    service: int,
    innovation: int,
    personalStory: int,
    extracurricular: int)

  /** Per-category match sub-scores for the same six categories. */
  datatype MatchBreakdown = MatchBreakdown(
    academic: int,
    leadership: int,
    service: int,
    innovation: int,
    personalStory: int,
    extracurricular: int)

  /** A row of the analysis table. `id` is generated by the store, so an
      analysis that was never stored has none. */
  datatype ScholarshipAnalysis = ScholarshipAnalysis(
    id: Option<string>,
    scholarshipId: string,
    personality: PersonalityProfile,
    weights: PriorityWeights,
    hiddenPriorities: seq<string>,
    successPatterns: seq<string>,
    messagingStrategy: string,
    analyzedAt: string)

  datatype ApScore = ApScore(subject: string, score: int)

  datatype TestScores = TestScores(sat: Option<int>, act: Option<int>, apScores: Option<seq<ApScore>>)

  datatype Extracurricular = Extracurricular(name: string, role: string, duration: string, description: string, impact: string)

  datatype LeadershipRole = LeadershipRole(organization: string, position: string, duration: string, responsibilities: string, achievements: string)

  datatype VolunteerWork = VolunteerWork(organization: string, role: string, hours: int, impact: string, story: string)

  datatype Project = Project(title: string, description: string, technologies: Option<seq<string>>, outcomes: string)

  /** A student profile; `gpa` is in hundredths (3.85 is 385). */
  datatype StudentProfile = StudentProfile(
    id: string,
    fullName: string,
    gradeLevel: Option<string>,
    gpa: Option<int>,
    testScores: Option<TestScores>,
    academicAchievements: Option<seq<string>>,
    extracurriculars: Option<seq<Extracurricular>>,
    leadershipRoles: Option<seq<LeadershipRole>>,
    awardsHonors: Option<seq<string>>,
    volunteerWork: Option<seq<VolunteerWork>>,
    communityImpact: Option<string>,
    projects: Option<seq<Project>>,
    backgroundStory: Option<string>,
    challengesOvercome: Option<string>,
    futureGoals: Option<string>,
    personalValues: Option<seq<string>>)

  /** The profile with every falsy optional field (an empty string, a zero
      GPA, an empty list) replaced by an absent one. Test scores are an
      object, which is truthy even when it records nothing, so they stay. */
  function WithoutFalsy(s: StudentProfile): StudentProfile {
    s.(gradeLevel := if TruthyString(s.gradeLevel) then s.gradeLevel else None,
       gpa := if TruthyNumber(s.gpa) then s.gpa else None,
       academicAchievements := if NonEmptyList(s.academicAchievements) then s.academicAchievements else None,
       extracurriculars := if NonEmptyList(s.extracurriculars) then s.extracurriculars else None,
       leadershipRoles := if NonEmptyList(s.leadershipRoles) then s.leadershipRoles else None,
       awardsHonors := if NonEmptyList(s.awardsHonors) then s.awardsHonors else None,
       volunteerWork := if NonEmptyList(s.volunteerWork) then s.volunteerWork else None,
       communityImpact := if TruthyString(s.communityImpact) then s.communityImpact else None,
       projects := if NonEmptyList(s.projects) then s.projects else None,
       backgroundStory := if TruthyString(s.backgroundStory) then s.backgroundStory else None,
       challengesOvercome := if TruthyString(s.challengesOvercome) then s.challengesOvercome else None,
       futureGoals := if TruthyString(s.futureGoals) then s.futureGoals else None,
       personalValues := if NonEmptyList(s.personalValues) then s.personalValues else None)
  }

  datatype EssayDraft = EssayDraft(
    version: int,
    angle: string,
    content: string,
    reasoning: string,
    highlightedExperiences: seq<string>,
    wordCount: int)

  /** A scholarship as the routes read it, with its embedded
      `scholarship_analysis (*)` rows (null when the join yields nothing). */
  datatype ScholarshipRow = ScholarshipRow(scholarship: Scholarship, analyses: Option<seq<ScholarshipAnalysis>>)
}
