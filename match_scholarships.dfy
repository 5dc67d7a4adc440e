/** The matching route (scholarlens/app/api/match-scholarships/route.ts):
    request validation, the filter to analysed scholarships, the compact
    student summary, the loop that scores each scholarship and keeps the
    scores that came back, and the sort by score. */
module MatchScholarships {
  import opened Types
  import opened Strings
  import opened External
  import opened Attempts
  import opened ClaudeClient
  import opened Prompts

  // ---------------------------------------------------------------------
  // formatStudentData

  /** `- <name> (<role>, <duration>): <description>`. */
  function ActivitySummary(a: Extracurricular): seq<string> {
    ["- " + a.name + " (" + a.role + ", " + a.duration + "): " + a.description]
  }

  /** `- <position> at <organization>: <achievements>`. */
  function RoleSummary(r: LeadershipRole): seq<string> {
    ["- " + r.position + " at " + r.organization + ": " + r.achievements]
  }

  /** `- <organization> (<hours> hours): <impact>`. */
  function VolunteerSummary(w: VolunteerWork): seq<string> {
    ["- " + w.organization + " (" + IntToString(w.hours) + " hours): " + w.impact]
  }

  /** `- <title>: <description>`. */
  function ProjectSummary(p: Project): seq<string> {
    ["- " + p.title + ": " + p.description]
  }

  const AcademicHeader := "**Academic Performance:**"
  const PersonalHeader := "\n**Personal Background:**"

  /** The SAT and ACT lines, inside a recorded test-score object. */
  function ScoreSummary(t: Option<TestScores>): seq<string> {
    if t.None? then []
    else
      (if TruthyNumber(t.value.sat) then ["- SAT: " + IntToString(t.value.sat.value)] else [])
      + (if TruthyNumber(t.value.act) then ["- ACT: " + IntToString(t.value.act.value)] else [])
  }

  /** The academic block: its header always, then GPA, grade level, scores
      and the achievements on one line, each only when truthy. */
  function AcademicSummary(s: StudentProfile): seq<string> {
    [AcademicHeader]
    + (if TruthyNumber(s.gpa) then ["- GPA: " + HundredthsToString(s.gpa.value)] else [])
    + InlineSection("- Grade Level: ", s.gradeLevel)
    + ScoreSummary(s.testScores)
    + JoinedSection("- Achievements: ", s.academicAchievements)
  }

  /** Some personal field is truthy. */
  predicate HasPersonalStory(s: StudentProfile) {
    TruthyString(s.backgroundStory) || TruthyString(s.challengesOvercome) || TruthyString(s.futureGoals)
  }

  /** The personal block: the header when any personal field is truthy, then
      one line for each truthy one. */
  function PersonalSummary(s: StudentProfile): seq<string> {
    if HasPersonalStory(s) then
      [PersonalHeader]
      + InlineSection("Background: ", s.backgroundStory)
      + InlineSection("Challenges: ", s.challengesOvercome)
      + InlineSection("Goals: ", s.futureGoals)
    else []
  }

  /** The lines `formatStudentData` pushes, in order. */
  function SummarySections(s: StudentProfile): seq<string> {
    SummaryBody(s) + PersonalSummary(s)
  }

  /** The academic block and the four list sections. */
  function SummaryBody(s: StudentProfile): seq<string> {
    AcademicSummary(s)
    + ListSection("\n**Extracurricular Activities:**", s.extracurriculars, ActivitySummary)
    + ListSection("\n**Leadership Experience:**", s.leadershipRoles, RoleSummary)
    + ListSection("\n**Volunteer & Community Service:**", s.volunteerWork, VolunteerSummary)
    + ListSection("\n**Projects & Innovation:**", s.projects, ProjectSummary)
  }

  /** The student summary handed to the matching prompt. */
  function StudentData(s: StudentProfile): string {
    Join("\n", SummarySections(s))
  }

  /** A list section pushed by a `forEach`: nothing for an absent or empty
      list, otherwise the header and then the lines of each item in order. */
  method PushSection<T>(sections: seq<string>, header: string, list: Option<seq<T>>, lines: T -> seq<string>)
    returns (out: seq<string>)
    ensures out == sections + ListSection(header, list, lines)
  {
    out := sections;
    if NonEmptyList(list) {
      out := out + [header];
      ghost var start := out;
      var items := list.value;
      var k := 0;
      while k < |items|
        invariant 0 <= k <= |items|
        invariant out == start + FlatMap(items[..k], lines)
      {
        out := out + lines(items[k]);
        FlatMapStep(items, k, lines);
        k := k + 1;
      }
      assert items[..k] == items;
    }
  }

  /** The pushes of the academic block. */
  method PushAcademic(s: StudentProfile) returns (sections: seq<string>)
    ensures sections == AcademicSummary(s)
  {
    sections := [AcademicHeader];
    if TruthyNumber(s.gpa) {
      var gpa := HundredthsToString(s.gpa.value);
      sections := sections + ["- GPA: " + gpa];
    }
    if TruthyString(s.gradeLevel) {
      sections := sections + ["- Grade Level: " + s.gradeLevel.value];
    }
    ghost var done := sections;
    if s.testScores.Some? {
      if TruthyNumber(s.testScores.value.sat) {
        var sat := IntToString(s.testScores.value.sat.value);
        sections := sections + ["- SAT: " + sat];
      }
      if TruthyNumber(s.testScores.value.act) {
        var act := IntToString(s.testScores.value.act.value);
        sections := sections + ["- ACT: " + act];
      }
    }
    assert sections == done + ScoreSummary(s.testScores);
    if NonEmptyList(s.academicAchievements) {
      var achievements := Join(", ", s.academicAchievements.value);
      sections := sections + ["- Achievements: " + achievements];
    }
  }

  /** The pushes of the personal block. */
  method PushPersonal(sections: seq<string>, s: StudentProfile) returns (out: seq<string>)
    ensures out == sections + PersonalSummary(s)
  {
    out := sections;
    if TruthyString(s.backgroundStory) || TruthyString(s.challengesOvercome) || TruthyString(s.futureGoals) {
      out := out + [PersonalHeader];
      ghost var start := out;
      if TruthyString(s.backgroundStory) {
        out := out + ["Background: " + s.backgroundStory.value];
      }
      if TruthyString(s.challengesOvercome) {
        out := out + ["Challenges: " + s.challengesOvercome.value];
      }
      if TruthyString(s.futureGoals) {
        out := out + ["Goals: " + s.futureGoals.value];
      }
      assert out == start + InlineSection("Background: ", s.backgroundStory)
        + InlineSection("Challenges: ", s.challengesOvercome) + InlineSection("Goals: ", s.futureGoals);
    }
  }

  /** `formatStudentData`: pushes the summary's lines block by block, then
      joins them with newlines. */
  method FormatStudentData(s: StudentProfile) returns (text: string)
    ensures text == StudentData(s)
  {
    var sections := PushAcademic(s);
    sections := PushSection(sections, "\n**Extracurricular Activities:**", s.extracurriculars, ActivitySummary);
    sections := PushSection(sections, "\n**Leadership Experience:**", s.leadershipRoles, RoleSummary);
    sections := PushSection(sections, "\n**Volunteer & Community Service:**", s.volunteerWork, VolunteerSummary);
    sections := PushSection(sections, "\n**Projects & Innovation:**", s.projects, ProjectSummary);
    sections := PushPersonal(sections, s);
    text := Join("\n", sections);
  }

  /** The summary always opens with the academic header, and a student with
      no academic field set (no GPA, grade level, test scores or
      achievements) gets that header alone in the academic block. */
  lemma SummaryOpensWithAcademics(s: StudentProfile)
    ensures SummarySections(s)[0] == AcademicHeader
    ensures AcademicHeader <= StudentData(s)
    ensures !TruthyNumber(s.gpa) && !TruthyString(s.gradeLevel) && s.testScores.None? && !NonEmptyList(s.academicAchievements)
      ==> AcademicSummary(s) == [AcademicHeader]
  {
    JoinStartsWithFirst("\n", SummarySections(s));
  }

  /** GPA comes right after the header and the grade level right after it. */
  lemma GpaBeforeGradeLevel(s: StudentProfile)
    requires TruthyNumber(s.gpa) && TruthyString(s.gradeLevel)
    ensures SummarySections(s)[1] == "- GPA: " + HundredthsToString(s.gpa.value)
    ensures SummarySections(s)[2] == "- Grade Level: " + s.gradeLevel.value
  {
    assert AcademicSummary(s)[..3] == [AcademicHeader, "- GPA: " + HundredthsToString(s.gpa.value), "- Grade Level: " + s.gradeLevel.value];
    assert SummarySections(s)[..|AcademicSummary(s)|] == AcademicSummary(s);
  }

  /** The achievements go on one line that names every one of them. */
  lemma AchievementsOnOneLine(s: StudentProfile, i: nat)
    requires s.academicAchievements.Some? && i < |s.academicAchievements.value|
    ensures "- Achievements: " + Join(", ", s.academicAchievements.value) in SummarySections(s)
    ensures Contains("- Achievements: " + Join(", ", s.academicAchievements.value), s.academicAchievements.value[i])
  {
    var line := "- Achievements: " + Join(", ", s.academicAchievements.value);
    assert line in AcademicSummary(s);
    JoinContainsPart(", ", s.academicAchievements.value, i);
    ContainsAfter("- Achievements: ", Join(", ", s.academicAchievements.value), s.academicAchievements.value[i]);
  }

  /** Empty strings, a zero GPA and empty lists print exactly as absent
      fields do, as in the essay route's profile. */
  lemma {:induction false} SummaryOmitsFalsy(s: StudentProfile)
    ensures SummarySections(WithoutFalsy(s)) == SummarySections(s)
    ensures StudentData(WithoutFalsy(s)) == StudentData(s)
  {
    var w := WithoutFalsy(s);
    NoFalsyInline("- Grade Level: ", s.gradeLevel);
    NoFalsyJoined("- Achievements: ", s.academicAchievements);
    assert AcademicSummary(w) == AcademicSummary(s);
    NoFalsyList("\n**Extracurricular Activities:**", s.extracurriculars, ActivitySummary);
    NoFalsyList("\n**Leadership Experience:**", s.leadershipRoles, RoleSummary);
    NoFalsyList("\n**Volunteer & Community Service:**", s.volunteerWork, VolunteerSummary);
    NoFalsyList("\n**Projects & Innovation:**", s.projects, ProjectSummary);
    assert SummaryBody(w) == SummaryBody(s);
    NoFalsyInline("Background: ", s.backgroundStory);
    NoFalsyInline("Challenges: ", s.challengesOvercome);
    NoFalsyInline("Goals: ", s.futureGoals);
    assert PersonalSummary(w) == PersonalSummary(s);
  }

  /** The personal block is empty without a personal field, and otherwise is
      the header and exactly one line per truthy field. */
  lemma PersonalBlockLines(s: StudentProfile)
    ensures !HasPersonalStory(s) ==> PersonalSummary(s) == []
    ensures HasPersonalStory(s) ==>
      PersonalSummary(s)[0] == PersonalHeader
      && |PersonalSummary(s)| == 1 + (if TruthyString(s.backgroundStory) then 1 else 0)
           + (if TruthyString(s.challengesOvercome) then 1 else 0) + (if TruthyString(s.futureGoals) then 1 else 0)
  {
  }

  /** A line of the summary before the personal block is never the personal
      header: every such line is a header of another block or starts with
      "- ". */
  lemma NotPersonalHeader(s: StudentProfile, line: string)
    requires line in SummaryBody(s)
    ensures line != PersonalHeader
  {
    assert PersonalHeader[..2] == "\n*";
    if line in AcademicSummary(s) {
      assert line == AcademicHeader || line[..2] == "- ";
    } else if line in ListSection("\n**Extracurricular Activities:**", s.extracurriculars, ActivitySummary) {
      SummaryLine(s.extracurriculars, "\n**Extracurricular Activities:**", ActivitySummary, line);
    } else if line in ListSection("\n**Leadership Experience:**", s.leadershipRoles, RoleSummary) {
      SummaryLine(s.leadershipRoles, "\n**Leadership Experience:**", RoleSummary, line);
    } else if line in ListSection("\n**Volunteer & Community Service:**", s.volunteerWork, VolunteerSummary) {
      SummaryLine(s.volunteerWork, "\n**Volunteer & Community Service:**", VolunteerSummary, line);
    } else {
      SummaryLine(s.projects, "\n**Projects & Innovation:**", ProjectSummary, line);
    }
  }

  /** A line of a summary list section is its header or an item line that
      starts with "- ". */
  lemma SummaryLine<T>(items: Option<seq<T>>, header: string, lines: T -> seq<string>, line: string)
    requires forall x, l :: l in lines(x) ==> |l| >= 2 && l[..2] == "- "
    requires line in ListSection(header, items, lines)
    ensures line == header || (|line| >= 2 && line[..2] == "- ")
  {
    if line != header {
      var i := FlatMapMember(items.value, lines, line);
    }
  }

  /** The "Personal Background" header appears exactly when some personal
      field is truthy. */
  lemma PersonalHeaderIff(s: StudentProfile)
    ensures PersonalHeader in SummarySections(s) <==> HasPersonalStory(s)
  {
    if HasPersonalStory(s) {
      assert PersonalSummary(s)[0] == PersonalHeader;
    } else if PersonalHeader in SummarySections(s) {
      NotPersonalHeader(s, PersonalHeader);
    }
  }

  // ---------------------------------------------------------------------
  // POST: validation

  /** The parsed body: `student_id`, and `limit` (10 when absent). */
  datatype MatchRequestBody = MatchRequestBody(studentId: Option<string>, limit: Option<int>)

  const DefaultLimit := 10

  /** What the scholarship listing query gives: an error, or the rows (null
      when the query yields no data). */
  datatype Listing = ListingError | Rows(rows: Option<seq<ScholarshipRow>>)

  /** The store as this route reads it: students by id, and the listing of
      at most `limit` scholarships with their analysis rows. */
  datatype MatchStore = MatchStore(
    students: map<string, StudentProfile>,
    listScholarships: int -> Listing)

  const MatchFailure := "Failed to match scholarships"
  const StudentIdRequired := "student_id is required"
  const StudentNotFound := "Student profile not found"
  const FetchFailure := "Failed to fetch scholarships"

  /** The student and the listed scholarships that have an analysis. */
  datatype MatchContext = MatchContext(student: StudentProfile, rows: seq<ScholarshipRow>)

  /** The outcome of validation, with the store reads it made. */
  datatype MatchChecked = MatchChecked(result: Result<MatchContext, HttpError>, accesses: seq<Effect>)

  /** The scholarships with a non-empty analysis list, in listing order. */
  function WithAnalysis(rows: seq<ScholarshipRow>): (r: seq<ScholarshipRow>)
    decreases |rows|
    ensures |r| <= |rows|
    ensures forall k :: 0 <= k < |r| ==> NonEmptyList(r[k].analyses)
    ensures forall x :: x in r <==> x in rows && NonEmptyList(x.analyses)
  {
    if |rows| == 0 then []
    else
      var init := WithAnalysis(rows[..|rows| - 1]);
      var last := rows[|rows| - 1];
      assert rows == rows[..|rows| - 1] + [last];
      if NonEmptyList(last.analyses) then init + [last] else init
  }

  /** Filtering a list one row longer adds that row exactly when it has an
      analysis. */
  lemma WithAnalysisSnoc(rows: seq<ScholarshipRow>, x: ScholarshipRow)
    ensures WithAnalysis(rows + [x]) == WithAnalysis(rows) + (if NonEmptyList(x.analyses) then [x] else [])
  {
    var xs := rows + [x];
    assert xs[..|xs| - 1] == rows && xs[|xs| - 1] == x;
  }

  /** Each row with an analysis is kept as many times as the listing holds
      it, and a row without one not at all. */
  lemma {:induction false} WithAnalysisCounts(rows: seq<ScholarshipRow>)
    decreases |rows|
    ensures forall x :: multiset(WithAnalysis(rows))[x] == if NonEmptyList(x.analyses) then multiset(rows)[x] else 0
  {
    if |rows| > 0 {
      var init, last := rows[..|rows| - 1], rows[|rows| - 1];
      assert rows == init + [last];
      WithAnalysisSnoc(init, last);
      WithAnalysisCounts(init);
      assert multiset(rows) == multiset(init) + multiset{last};
    }
  }

  /** The filter distributes over concatenation: together with the one-row
      case of its definition, this pins the kept rows to listing order. */
  lemma {:induction false} WithAnalysisAppend(a: seq<ScholarshipRow>, b: seq<ScholarshipRow>)
    decreases |b|
    ensures WithAnalysis(a + b) == WithAnalysis(a) + WithAnalysis(b)
  {
    if |b| == 0 {
      assert a + b == a;
      assert WithAnalysis(b) == [];
    } else {
      var init, last := b[..|b| - 1], b[|b| - 1];
      assert b == init + [last];
      assert a + b == (a + init) + [last];
      WithAnalysisSnoc(init, last);
      WithAnalysisSnoc(a + init, last);
      WithAnalysisAppend(a, init);
    }
  }

  /** Validation and the two store reads, in the order the route makes them. */
  function CheckMatchRequest(body: Option<MatchRequestBody>, store: MatchStore): (c: MatchChecked)
    ensures c.result.Ok? ==> forall k :: 0 <= k < |c.result.value.rows| ==> NonEmptyList(c.result.value.rows[k].analyses)
  {
    if body.None? then MatchChecked(Err(HttpError(500, MatchFailure)), [])
    else
      var b := body.value;
      if !TruthyString(b.studentId) then MatchChecked(Err(HttpError(400, StudentIdRequired)), [])
      else
        var sid := b.studentId.value;
        if sid !in store.students then MatchChecked(Err(HttpError(404, StudentNotFound)), [ReadStudent(sid)])
        else
          var limit := b.limit.GetOr(DefaultLimit);
          var accesses := [ReadStudent(sid), ListScholarships(limit)];
          match store.listScholarships(limit)
          case ListingError => MatchChecked(Err(HttpError(500, FetchFailure)), accesses)
          case Rows(rows) => MatchChecked(Ok(MatchContext(store.students[sid], WithAnalysis(rows.GetOr([])))), accesses)
  }

  /** A missing student id is a 400 before any store access; an absent limit
      lists 10 scholarships. */
  lemma MatchIdRequired(body: MatchRequestBody, store: MatchStore)
    ensures !TruthyString(body.studentId) ==> CheckMatchRequest(Some(body), store) == MatchChecked(Err(HttpError(400, StudentIdRequired)), [])
    ensures TruthyString(body.studentId) && body.studentId.value in store.students && body.limit.None? ==>
      CheckMatchRequest(Some(body), store).accesses == [ReadStudent(body.studentId.value), ListScholarships(10)]
  {
  }

  /** Validation passes exactly when the id is given, the student exists and
      the listing succeeds; the rows are then the analysed ones among those
      listed, and null listing data counts as no rows. */
  lemma MatchValidationPasses(body: Option<MatchRequestBody>, store: MatchStore)
    ensures CheckMatchRequest(body, store).result.Ok? <==>
      && body.Some? && TruthyString(body.value.studentId)
      && body.value.studentId.value in store.students
      && store.listScholarships(body.value.limit.GetOr(10)).Rows?
    ensures CheckMatchRequest(body, store).result.Ok? ==>
      var listing := store.listScholarships(body.value.limit.GetOr(10));
      && CheckMatchRequest(body, store).result.value.student == store.students[body.value.studentId.value]
      && CheckMatchRequest(body, store).result.value.rows == WithAnalysis(listing.rows.GetOr([]))
      && (listing.rows.None? ==> CheckMatchRequest(body, store).result.value.rows == [])
  {
  }

  // ---------------------------------------------------------------------
  // POST: the scoring loop and the sort

  /** The scholarship fields a match carries. */
  datatype ScholarshipSummary = ScholarshipSummary(
    id: string,
    title: string,
    organization: string,
    amount: int,
    deadline: string,
    tags: seq<string>)

  datatype ScholarshipMatch = ScholarshipMatch(
    scholarship: ScholarshipSummary,
    analysis: ScholarshipAnalysis,
    matchScore: int,
    breakdown: MatchBreakdown,
    explanation: string,
    alignedExperiences: seq<string>,
    gaps: seq<string>,
    recommendations: seq<string>)

  function Summary(s: Scholarship): ScholarshipSummary {
    ScholarshipSummary(s.id, s.title, s.organization, s.amount, s.deadline, s.tags)
  }

  /** The model call scoring one analysed scholarship against the summary,
      with its first analysis row's weights and personality. */
  function MatchRequest(studentData: string, row: ScholarshipRow, codec: JsonCodec, texts: PromptTexts): (r: ApiRequest)
    requires NonEmptyList(row.analyses)
    ensures r.system == Some(texts.matchingSystem) && r.temperature == 0.5 && r.maxTokens == 1500
    ensures r.userContent == MatchingPrompt(studentData, row.scholarship.title,
      row.analyses.value[0].weights, row.analyses.value[0].personality, codec, texts)
  {
    var analysis := row.analyses.value[0];
    var prompt := MatchingPrompt(studentData, row.scholarship.title, analysis.weights, analysis.personality, codec, texts);
    ToApiRequest(MessageParams(Some(texts.matchingSystem), prompt, Some(1500), Some(0.5)))
  }

  /** One model call per analysed scholarship, in order. */
  function MatchRequests(studentData: string, rows: seq<ScholarshipRow>, codec: JsonCodec, texts: PromptTexts): (r: seq<ApiRequest>)
    requires forall k :: 0 <= k < |rows| ==> NonEmptyList(rows[k].analyses)
    ensures |r| == |rows| && forall k :: 0 <= k < |rows| ==> r[k] == MatchRequest(studentData, rows[k], codec, texts)
  {
    seq(|rows|, k requires 0 <= k < |rows| => MatchRequest(studentData, rows[k], codec, texts))
  }

  /** What the reply for one scholarship gives: no match for a failed call or
      an unparsable reply, otherwise the summary, the first analysis row and
      the parsed fields. */
  function MatchOutcome(row: ScholarshipRow, reply: Option<Message>, codec: JsonCodec): (r: Option<ScholarshipMatch>)
    requires NonEmptyList(row.analyses)
    ensures r.Some? <==> reply.Some? && ParseJsonResponse(reply.value, codec.parseMatch).Ok?
    ensures r.Some? ==>
      var f := ParseJsonResponse(reply.value, codec.parseMatch).value;
      r.value == ScholarshipMatch(Summary(row.scholarship), row.analyses.value[0], f.matchScore, f.breakdown,
                                  f.explanation, f.alignedExperiences, f.gaps, f.recommendations)
  {
    match reply
    case None => None
    case Some(m) =>
      match ParseJsonResponse(m, codec.parseMatch)
      case Err(_) => None
      case Ok(f) => Some(ScholarshipMatch(Summary(row.scholarship), row.analyses.value[0], f.matchScore, f.breakdown,
                                          f.explanation, f.alignedExperiences, f.gaps, f.recommendations))
  }

  function MatchOutcomes(rows: seq<ScholarshipRow>, replies: seq<Option<Message>>, codec: JsonCodec): (r: seq<Option<ScholarshipMatch>>)
    requires |replies| == |rows| && forall k :: 0 <= k < |rows| ==> NonEmptyList(rows[k].analyses)
    ensures |r| == |rows| && forall k :: 0 <= k < |rows| ==> r[k] == MatchOutcome(rows[k], replies[k], codec)
  {
    seq(|rows|, k requires 0 <= k < |rows| => MatchOutcome(rows[k], replies[k], codec))
  }

  /** The matches of the replies, before sorting. */
  function Matches(rows: seq<ScholarshipRow>, replies: seq<Option<Message>>, codec: JsonCodec): seq<ScholarshipMatch>
    requires |replies| == |rows| && forall k :: 0 <= k < |rows| ==> NonEmptyList(rows[k].analyses)
  {
    Successes(MatchOutcomes(rows, replies, codec))
  }

  /** The scoring loop: call k scores the k-th analysed scholarship and a
      failure skips only that scholarship. The prompt is built inside the
      loop, as in the source. */
  method ScoreScholarships(studentData: string, rows: seq<ScholarshipRow>, codec: JsonCodec, texts: PromptTexts, complete: Completion)
    returns (matches: seq<ScholarshipMatch>, calls: seq<Effect>)
    requires forall k :: 0 <= k < |rows| ==> NonEmptyList(rows[k].analyses)
    ensures calls == ModelCalls(MatchRequests(studentData, rows, codec, texts))
    ensures matches == Matches(rows, Replies(MatchRequests(studentData, rows, codec, texts), complete), codec)
  {
    ghost var requests := MatchRequests(studentData, rows, codec, texts);
    ghost var attempts := MatchOutcomes(rows, Replies(requests, complete), codec);
    matches := [];
    calls := [];
    var k := 0;
    while k < |rows|
      invariant 0 <= k <= |rows|
      invariant matches == Successes(attempts[..k])
      invariant calls == ModelCalls(requests[..k])
    {
      var request := MatchRequest(studentData, rows[k], codec, texts);
      calls := calls + [ModelCall(request)];
      var reply := complete(k, request);
      var outcome := MatchOutcome(rows[k], reply, codec);
      if outcome.Some? {
        matches := matches + [outcome.value];
      }
      SuccessesSnoc(attempts[..k], attempts[k]);
      TakeSnoc(attempts, k);
      TakeSnoc(requests, k);
      ModelCallsSnoc(requests[..k], request);
      k := k + 1;
    }
    assert attempts[..k] == attempts;
    assert requests[..k] == requests;
  }

  /** Highest score first. */
  predicate SortedByScore(s: seq<ScholarshipMatch>) {
    forall i, j :: 0 <= i < j < |s| ==> s[i].matchScore >= s[j].matchScore
  }

  /** The first `n` matches are in score order. */
  predicate SortedPrefix(s: seq<ScholarshipMatch>, n: nat)
    requires n <= |s|
  {
    forall p, q :: 0 <= p < q < n ==> s[p].matchScore >= s[q].matchScore
  }

  /** Exchanges the match at `j` with the one before it. */
  method SwapLeft(a: array<ScholarshipMatch>, j: nat)
    requires 0 < j < a.Length
    modifies a
    ensures a[..] == old(a[..])[j - 1 := old(a[j])][j := old(a[j - 1])]
    ensures multiset(a[..]) == multiset(old(a[..]))
  {
    a[j - 1], a[j] := a[j], a[j - 1];
  }

  /** One pass of insertion: the match at `i` moves left past every match
      with a lower score, so one more match is in order. */
  method InsertLeft(a: array<ScholarshipMatch>, i: nat)
    requires i < a.Length && SortedPrefix(a[..], i)
    modifies a
    ensures SortedPrefix(a[..], i + 1)
    ensures multiset(a[..]) == multiset(old(a[..]))
  {
    var j := i;
    while j > 0 && a[j - 1].matchScore < a[j].matchScore
      invariant 0 <= j <= i
      invariant multiset(a[..]) == multiset(old(a[..]))
      invariant forall p, q :: 0 <= p < q <= i && p != j && q != j ==> a[p].matchScore >= a[q].matchScore
      invariant forall q :: j < q <= i ==> a[j].matchScore >= a[q].matchScore
    {
      SwapLeft(a, j);
      j := j - 1;
    }
  }

  /** `matches.sort((a, b) => b.match_score - a.match_score)`, in place, as
      an insertion sort. */
  method SortByScore(a: array<ScholarshipMatch>)
    modifies a
    ensures SortedByScore(a[..])
    ensures multiset(a[..]) == multiset(old(a[..]))
  {
    var i := 0;
    while i < a.Length
      invariant 0 <= i <= a.Length
      invariant SortedPrefix(a[..], i)
      invariant multiset(a[..]) == multiset(old(a[..]))
    {
      InsertLeft(a, i);
      i := i + 1;
    }
  }

  /** The matches in score order, highest first: the same matches, sorted
      in an array that holds them. */
  method SortedMatches(matches: seq<ScholarshipMatch>) returns (sorted: seq<ScholarshipMatch>)
    ensures SortedByScore(sorted)
    ensures multiset(sorted) == multiset(matches)
  {
    var a := new ScholarshipMatch[|matches|](i requires 0 <= i < |matches| => matches[i]);
    assert a[..] == matches;
    SortByScore(a);
    sorted := a[..];
  }

  /** `POST /api/match-scholarships`. Validation and the two store reads
      first; then the summary, one model call per analysed scholarship, and
      the matches that came back sorted by score, highest first. */
  method MatchScholarshipsRoute(body: Option<MatchRequestBody>, store: MatchStore, codec: JsonCodec, texts: PromptTexts, complete: Completion)
    returns (response: Result<seq<ScholarshipMatch>, HttpError>, trace: seq<Effect>)
    ensures var c := CheckMatchRequest(body, store);
      c.result.Err? ==> response == Err(c.result.error) && trace == c.accesses
    ensures var c := CheckMatchRequest(body, store);
      c.result.Ok? ==>
        var requests := MatchRequests(StudentData(c.result.value.student), c.result.value.rows, codec, texts);
        var matches := Matches(c.result.value.rows, Replies(requests, complete), codec);
        && trace == c.accesses + ModelCalls(requests)
        && response.Ok?
        && SortedByScore(response.value)
        && multiset(response.value) == multiset(matches)
  {
    var checked := CheckMatchRequest(body, store);
    if checked.result.Err? {
      response := Err(checked.result.error);
      trace := checked.accesses;
      return;
    }
    var ctx := checked.result.value;
    var studentData := FormatStudentData(ctx.student);
    var matches, calls := ScoreScholarships(studentData, ctx.rows, codec, texts, complete);
    trace := checked.accesses + calls;
    var sorted := SortedMatches(matches);
    response := Ok(sorted);
  }

  /** Every match comes from an analysed scholarship, in listing order: the
      j-th match is the outcome of the scholarship at `origins[j]`, so its
      summary and analysis are that row's. */
  lemma MatchesFromAnalysedRows(rows: seq<ScholarshipRow>, replies: seq<Option<Message>>, codec: JsonCodec)
    returns (origins: seq<nat>)
    requires |replies| == |rows| && forall k :: 0 <= k < |rows| ==> NonEmptyList(rows[k].analyses)
    ensures |origins| == |Matches(rows, replies, codec)| <= |rows|
    ensures forall j :: 0 <= j < |origins| ==>
      origins[j] < |rows| && MatchOutcome(rows[origins[j]], replies[origins[j]], codec) == Some(Matches(rows, replies, codec)[j])
    ensures forall j, k :: 0 <= j < k < |origins| ==> origins[j] < origins[k]
  {
    var attempts := MatchOutcomes(rows, replies, codec);
    OriginsSound(attempts);
    origins := Origins(attempts);
  }

  /** Every scholarship whose reply gave a match is in the result: a failed
      call or reply drops only its own scholarship. */
  lemma MatchesKeepEverySuccess(rows: seq<ScholarshipRow>, replies: seq<Option<Message>>, codec: JsonCodec, k: nat)
    requires |replies| == |rows| && forall k :: 0 <= k < |rows| ==> NonEmptyList(rows[k].analyses)
    requires k < |rows| && MatchOutcome(rows[k], replies[k], codec).Some?
    ensures MatchOutcome(rows[k], replies[k], codec).value in Matches(rows, replies, codec)
  {
    var attempts := MatchOutcomes(rows, replies, codec);
    OriginsSound(attempts);
    var origins := Origins(attempts);
    assert attempts[k].Some?;
    var j :| 0 <= j < |origins| && origins[j] == k;
    assert Successes(attempts)[j] == attempts[k].value;
  }

  /** When every reply fails (or nothing was listed), the route succeeds with
      no matches rather than failing. */
  lemma NothingScored(rows: seq<ScholarshipRow>, replies: seq<Option<Message>>, codec: JsonCodec)
    requires |replies| == |rows| && forall k :: 0 <= k < |rows| ==> NonEmptyList(rows[k].analyses)
    requires forall k :: 0 <= k < |rows| ==> MatchOutcome(rows[k], replies[k], codec).None?
    ensures Matches(rows, replies, codec) == []
  {
    SuccessesEmpty(MatchOutcomes(rows, replies, codec));
  }

  /** When every reply gives a match, every analysed scholarship is scored,
      each by its own reply. */
  lemma AllScored(rows: seq<ScholarshipRow>, replies: seq<Option<Message>>, codec: JsonCodec)
    requires |replies| == |rows| && forall k :: 0 <= k < |rows| ==> NonEmptyList(rows[k].analyses)
    requires forall k :: 0 <= k < |rows| ==> MatchOutcome(rows[k], replies[k], codec).Some?
    ensures |Matches(rows, replies, codec)| == |rows|
    ensures forall k :: 0 <= k < |rows| ==> Matches(rows, replies, codec)[k] == MatchOutcome(rows[k], replies[k], codec).value
  {
    SuccessesAll(MatchOutcomes(rows, replies, codec));
  }
}
