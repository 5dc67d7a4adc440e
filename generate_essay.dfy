/** The essay route (scholarlens/app/api/generate-essay/route.ts): request
    validation, the profile text for the prompt, and the loop that asks for
    one draft per angle and keeps the drafts that came back. */
module GenerateEssay {
  import opened Types
  import opened Strings
  import opened External
  import opened Attempts
  import opened ClaudeClient
  import opened Prompts

  // ---------------------------------------------------------------------
  // formatStudentProfile

  /** `- <item>`, one line per achievement or award. */
  function BulletLines(item: string): seq<string> {
    ["- " + item]
  }

  /** The lines of one extracurricular; the impact line only when it is non-empty. */
  function ActivityLines(a: Extracurricular): seq<string> {
    ["**" + a.name + "** (" + a.role + ", " + a.duration + ")", "  " + a.description]
    + (if a.impact != "" then ["  Impact: " + a.impact] else [])
  }

  /** The lines of one leadership role; the achievements line only when non-empty. */
  function RoleLines(r: LeadershipRole): seq<string> {
    ["**" + r.position + "** at " + r.organization + " (" + r.duration + ")", "  Responsibilities: " + r.responsibilities]
    + (if r.achievements != "" then ["  Achievements: " + r.achievements] else [])
  }

  /** The lines of one volunteer entry; the impact line only when non-empty. */
  function VolunteerLines(w: VolunteerWork): seq<string> {
    ["**" + w.organization + "** (" + w.role + ", " + IntToString(w.hours) + " hours)", "  " + w.story]
    + (if w.impact != "" then ["  Impact: " + w.impact] else [])
  }

  /** The lines of one project; the technologies line only for a non-empty list. */
  function ProjectLines(p: Project): seq<string> {
    ["**" + p.title + "**", "  " + p.description]
    + (if NonEmptyList(p.technologies) then ["  Technologies: " + Join(", ", p.technologies.value)] else [])
    + ["  Outcomes: " + p.outcomes]
  }

  /** `<subject> (<score>)`, one entry of the AP line. */
  function ApEntry(a: ApScore): string {
    a.subject + " (" + IntToString(a.score) + ")"
  }

  function ApEntries(scores: seq<ApScore>): (r: seq<string>)
    ensures |r| == |scores| && forall i :: 0 <= i < |r| ==> r[i] == ApEntry(scores[i])
  {
    seq(|scores|, i requires 0 <= i < |scores| => ApEntry(scores[i]))
  }

  /** A story section: its header and the text on the next line, or nothing
      for an absent or empty text. */
  function StorySection(header: string, text: Option<string>): seq<string> {
    if TruthyString(text) then [header, text.value] else []
  }

  /** The name, grade-level and GPA lines. */
  function IdentityLines(s: StudentProfile): seq<string> {
    ["**Name:** " + s.fullName]
    + (if TruthyString(s.gradeLevel) then ["**Grade Level:** " + s.gradeLevel.value] else [])
    + (if TruthyNumber(s.gpa) then ["**GPA:** " + HundredthsToString(s.gpa.value)] else [])
  }

  /** The test-score block: a header whenever scores are recorded at all, then
      one line for each truthy score and one line for a non-empty AP list. */
  function TestScoreLines(t: Option<TestScores>): seq<string> {
    if t.None? then []
    else
      ["\n**Test Scores:**"]
      + (if TruthyNumber(t.value.sat) then ["- SAT: " + IntToString(t.value.sat.value)] else [])
      + (if TruthyNumber(t.value.act) then ["- ACT: " + IntToString(t.value.act.value)] else [])
      + (if NonEmptyList(t.value.apScores) then ["- AP: " + Join(", ", ApEntries(t.value.apScores.value))] else [])
  }

  /** The lines `formatStudentProfile` pushes, in order: the identity, test,
      academic and activity sections, then the service, project and personal
      sections. */
  function ProfileSections(s: StudentProfile): seq<string> {
    ProfileHead(s) + ProfileTail(s)
  }

  function ProfileHead(s: StudentProfile): seq<string> {
    IdentityLines(s)
    + TestScoreLines(s.testScores)
    + ListSection("\n**Academic Achievements:**", s.academicAchievements, BulletLines)
    + ListSection("\n**Extracurricular Activities:**", s.extracurriculars, ActivityLines)
    + ListSection("\n**Leadership Roles:**", s.leadershipRoles, RoleLines)
    + ListSection("\n**Awards & Honors:**", s.awardsHonors, BulletLines)
  }

  function ProfileTail(s: StudentProfile): seq<string> {
    ListSection("\n**Volunteer & Community Service:**", s.volunteerWork, VolunteerLines)
    + InlineSection("\n**Community Impact:** ", s.communityImpact)
    + ListSection("\n**Projects:**", s.projects, ProjectLines)
    + StorySection("\n**Background Story:**", s.backgroundStory)
    + StorySection("\n**Challenges Overcome:**", s.challengesOvercome)
    + StorySection("\n**Future Goals:**", s.futureGoals)
    + JoinedSection("\n**Personal Values:** ", s.personalValues)
  }

  /** The profile text handed to the essay prompt. */
  function ProfileText(s: StudentProfile): string {
    Join("\n", ProfileSections(s))
  }

  /** The `forEach` loops: each pushes every item's lines, in order. */
  method PushBullets(sections: seq<string>, items: seq<string>) returns (out: seq<string>)
    ensures out == sections + FlatMap(items, BulletLines)
  {
    out := sections;
    var k := 0;
    while k < |items|
      invariant 0 <= k <= |items|
      invariant out == sections + FlatMap(items[..k], BulletLines)
    {
      out := out + ["- " + items[k]];
      FlatMapStep(items, k, BulletLines);
      k := k + 1;
    }
    assert items[..k] == items;
  }

  /** Pushes a list section: nothing for an absent or empty list, otherwise
      the header and then each item's lines. */
  method PushBulletSection(sections: seq<string>, header: string, list: Option<seq<string>>) returns (out: seq<string>)
    ensures out == sections + ListSection(header, list, BulletLines)
  {
    out := sections;
    if NonEmptyList(list) {
      out := out + [header];
      out := PushBullets(out, list.value);
    }
  }

  method PushActivities(sections: seq<string>, items: seq<Extracurricular>) returns (out: seq<string>)
    ensures out == sections + FlatMap(items, ActivityLines)
  {
    out := sections;
    var k := 0;
    while k < |items|
      invariant 0 <= k <= |items|
      invariant out == sections + FlatMap(items[..k], ActivityLines)
    {
      var a := items[k];
      ghost var prev := out;
      out := out + ["**" + a.name + "** (" + a.role + ", " + a.duration + ")"];
      out := out + ["  " + a.description];
      if a.impact != "" {
        out := out + ["  Impact: " + a.impact];
      }
      assert out == prev + ActivityLines(a);
      FlatMapStep(items, k, ActivityLines);
      k := k + 1;
    }
    assert items[..k] == items;
  }

  method PushActivitySection(sections: seq<string>, header: string, list: Option<seq<Extracurricular>>) returns (out: seq<string>)
    ensures out == sections + ListSection(header, list, ActivityLines)
  {
    out := sections;
    if NonEmptyList(list) {
      out := out + [header];
      out := PushActivities(out, list.value);
    }
  }

  method PushRoles(sections: seq<string>, items: seq<LeadershipRole>) returns (out: seq<string>)
    ensures out == sections + FlatMap(items, RoleLines)
  {
    out := sections;
    var k := 0;
    while k < |items|
      invariant 0 <= k <= |items|
      invariant out == sections + FlatMap(items[..k], RoleLines)
    {
      var r := items[k];
      ghost var prev := out;
      out := out + ["**" + r.position + "** at " + r.organization + " (" + r.duration + ")"];
      out := out + ["  Responsibilities: " + r.responsibilities];
      if r.achievements != "" {
        out := out + ["  Achievements: " + r.achievements];
      }
      assert out == prev + RoleLines(r);
      FlatMapStep(items, k, RoleLines);
      k := k + 1;
    }
    assert items[..k] == items;
  }

  method PushRoleSection(sections: seq<string>, header: string, list: Option<seq<LeadershipRole>>) returns (out: seq<string>)
    ensures out == sections + ListSection(header, list, RoleLines)
  {
    out := sections;
    if NonEmptyList(list) {
      out := out + [header];
      out := PushRoles(out, list.value);
    }
  }

  /** Pushes one volunteer entry's lines. */
  method PushVolunteerEntry(sections: seq<string>, w: VolunteerWork) returns (out: seq<string>)
    ensures out == sections + VolunteerLines(w)
  {
    var hours := IntToString(w.hours);
    out := sections + ["**" + w.organization + "** (" + w.role + ", " + hours + " hours)"];
    out := out + ["  " + w.story];
    if w.impact != "" {
      out := out + ["  Impact: " + w.impact];
    }
  }

  method PushVolunteerWork(sections: seq<string>, items: seq<VolunteerWork>) returns (out: seq<string>)
    ensures out == sections + FlatMap(items, VolunteerLines)
  {
    out := sections;
    var k := 0;
    while k < |items|
      invariant 0 <= k <= |items|
      invariant out == sections + FlatMap(items[..k], VolunteerLines)
    {
      out := PushVolunteerEntry(out, items[k]);
      FlatMapStep(items, k, VolunteerLines);
      k := k + 1;
    }
    assert items[..k] == items;
  }

  method PushVolunteerSection(sections: seq<string>, header: string, list: Option<seq<VolunteerWork>>) returns (out: seq<string>)
    ensures out == sections + ListSection(header, list, VolunteerLines)
  {
    out := sections;
    if NonEmptyList(list) {
      out := out + [header];
      out := PushVolunteerWork(out, list.value);
    }
  }

  method PushProjects(sections: seq<string>, items: seq<Project>) returns (out: seq<string>)
    ensures out == sections + FlatMap(items, ProjectLines)
  {
    out := sections;
    var k := 0;
    while k < |items|
      invariant 0 <= k <= |items|
      invariant out == sections + FlatMap(items[..k], ProjectLines)
    {
      var p := items[k];
      ghost var prev := out;
      out := out + ["**" + p.title + "**"];
      out := out + ["  " + p.description];
      if NonEmptyList(p.technologies) {
        var technologies := Join(", ", p.technologies.value);
        out := out + ["  Technologies: " + technologies];
      }
      out := out + ["  Outcomes: " + p.outcomes];
      assert out == prev + ProjectLines(p);
      FlatMapStep(items, k, ProjectLines);
      k := k + 1;
    }
    assert items[..k] == items;
  }

  method PushProjectSection(sections: seq<string>, header: string, list: Option<seq<Project>>) returns (out: seq<string>)
    ensures out == sections + ListSection(header, list, ProjectLines)
  {
    out := sections;
    if NonEmptyList(list) {
      out := out + [header];
      out := PushProjects(out, list.value);
    }
  }

  /** Pushes the test-score block. */
  method PushTestScores(sections: seq<string>, scores: Option<TestScores>) returns (out: seq<string>)
    ensures out == sections + TestScoreLines(scores)
  {
    out := sections;
    if scores.Some? {
      var t := scores.value;
      out := out + ["\n**Test Scores:**"];
      if TruthyNumber(t.sat) {
        var sat := IntToString(t.sat.value);
        out := out + ["- SAT: " + sat];
      }
      if TruthyNumber(t.act) {
        var act := IntToString(t.act.value);
        out := out + ["- ACT: " + act];
      }
      if NonEmptyList(t.apScores) {
        var ap := Join(", ", ApEntries(t.apScores.value));
        out := out + ["- AP: " + ap];
      }
    }
  }

  /** Pushes a story section: the header, then the text as a line of its own. */
  method PushStorySection(sections: seq<string>, header: string, text: Option<string>) returns (out: seq<string>)
    ensures out == sections + StorySection(header, text)
  {
    out := sections;
    if TruthyString(text) {
      out := out + [header];
      out := out + [text.value];
    }
  }

  /** The pushes of the service, project and personal sections. */
  method PushTail(s: StudentProfile) returns (sections: seq<string>)
    ensures sections == ProfileTail(s)
  {
    sections := PushVolunteerSection([], "\n**Volunteer & Community Service:**", s.volunteerWork);
    assert sections == ListSection("\n**Volunteer & Community Service:**", s.volunteerWork, VolunteerLines);
    ghost var done := sections;
    if TruthyString(s.communityImpact) {
      sections := sections + ["\n**Community Impact:** " + s.communityImpact.value];
    }
    assert sections == done + InlineSection("\n**Community Impact:** ", s.communityImpact);
    sections := PushProjectSection(sections, "\n**Projects:**", s.projects);
    sections := PushStorySection(sections, "\n**Background Story:**", s.backgroundStory);
    sections := PushStorySection(sections, "\n**Challenges Overcome:**", s.challengesOvercome);
    sections := PushStorySection(sections, "\n**Future Goals:**", s.futureGoals);
    done := sections;
    if NonEmptyList(s.personalValues) {
      var values := Join(", ", s.personalValues.value);
      sections := sections + ["\n**Personal Values:** " + values];
    }
    assert sections == done + JoinedSection("\n**Personal Values:** ", s.personalValues);
  }

  /** `formatStudentProfile`: pushes the profile's lines section by section,
      then joins them with newlines. */
  method FormatStudentProfile(s: StudentProfile) returns (text: string)
    ensures text == ProfileText(s)
  {
    var sections := ["**Name:** " + s.fullName];
    if TruthyString(s.gradeLevel) {
      sections := sections + ["**Grade Level:** " + s.gradeLevel.value];
    }
    if TruthyNumber(s.gpa) {
      var gpa := HundredthsToString(s.gpa.value);
      sections := sections + ["**GPA:** " + gpa];
    }
    assert sections == IdentityLines(s);
    sections := PushTestScores(sections, s.testScores);
    sections := PushBulletSection(sections, "\n**Academic Achievements:**", s.academicAchievements);
    sections := PushActivitySection(sections, "\n**Extracurricular Activities:**", s.extracurriculars);
    sections := PushRoleSection(sections, "\n**Leadership Roles:**", s.leadershipRoles);
    sections := PushBulletSection(sections, "\n**Awards & Honors:**", s.awardsHonors);
    assert sections == ProfileHead(s);
    var tail := PushTail(s);
    sections := sections + tail;
    text := Join("\n", sections);
  }

  /** The profile text always opens with the name line. */
  lemma ProfileStartsWithName(s: StudentProfile)
    ensures ProfileSections(s)[0] == "**Name:** " + s.fullName
    ensures "**Name:** " + s.fullName <= ProfileText(s)
  {
    JoinStartsWithFirst("\n", ProfileSections(s));
  }

  /** Grade level and GPA follow the name, each only when truthy: a GPA of 0
      or an empty grade level prints nothing. */
  lemma ProfileIdentityLines(s: StudentProfile)
    ensures TruthyString(s.gradeLevel) ==> ProfileSections(s)[1] == "**Grade Level:** " + s.gradeLevel.value
    ensures TruthyNumber(s.gpa) ==>
      ProfileSections(s)[if TruthyString(s.gradeLevel) then 2 else 1] == "**GPA:** " + HundredthsToString(s.gpa.value)
    ensures !TruthyNumber(s.gpa) ==> ProfileSections(s) == ProfileSections(s.(gpa := None))
    ensures !TruthyString(s.gradeLevel) ==> ProfileSections(s) == ProfileSections(s.(gradeLevel := None))
  {
    var rest := TestScoreLines(s.testScores);
    assert ProfileSections(s)[..|IdentityLines(s)|] == IdentityLines(s);
  }

  /** Empty strings, a zero GPA and empty lists print exactly as absent fields do. */
  lemma ProfileOmitsFalsyFields(s: StudentProfile)
    ensures ProfileSections(WithoutFalsy(s)) == ProfileSections(s)
    ensures ProfileText(WithoutFalsy(s)) == ProfileText(s)
  {
    HeadOmitsFalsyFields(s);
    TailOmitsFalsyFields(s);
  }

  lemma HeadOmitsFalsyFields(s: StudentProfile)
    ensures ProfileHead(WithoutFalsy(s)) == ProfileHead(s)
  {
    var w := WithoutFalsy(s);
    assert IdentityLines(w) == IdentityLines(s);
    assert w.testScores == s.testScores;
    NoFalsyList("\n**Academic Achievements:**", s.academicAchievements, BulletLines);
    NoFalsyList("\n**Extracurricular Activities:**", s.extracurriculars, ActivityLines);
    NoFalsyList("\n**Leadership Roles:**", s.leadershipRoles, RoleLines);
    NoFalsyList("\n**Awards & Honors:**", s.awardsHonors, BulletLines);
  }

  lemma TailOmitsFalsyFields(s: StudentProfile)
    ensures ProfileTail(WithoutFalsy(s)) == ProfileTail(s)
  {
    NoFalsyList("\n**Volunteer & Community Service:**", s.volunteerWork, VolunteerLines);
    NoFalsyInline("\n**Community Impact:** ", s.communityImpact);
    NoFalsyList("\n**Projects:**", s.projects, ProjectLines);
    NoFalsyStory("\n**Background Story:**", s.backgroundStory);
    NoFalsyStory("\n**Challenges Overcome:**", s.challengesOvercome);
    NoFalsyStory("\n**Future Goals:**", s.futureGoals);
    NoFalsyJoined("\n**Personal Values:** ", s.personalValues);
  }

  /** An empty text prints as an absent one. */
  lemma NoFalsyStory(header: string, text: Option<string>)
    ensures StorySection(header, if TruthyString(text) then text else None) == StorySection(header, text)
  {
  }

  /** The Test Scores header is printed whenever test scores are recorded,
      even when they hold no SAT, ACT or AP score. */
  lemma ProfileTestScoresHeader(s: StudentProfile)
    requires s.testScores.Some?
    ensures "\n**Test Scores:**" in ProfileSections(s)
    ensures s.testScores.value == TestScores(None, None, None) ==> TestScoreLines(s.testScores) == ["\n**Test Scores:**"]
  {
    assert TestScoreLines(s.testScores)[0] == "\n**Test Scores:**";
  }

  /** Every achievement is printed as a bullet under its header. */
  lemma ProfileShowsAchievements(s: StudentProfile, i: nat)
    requires s.academicAchievements.Some? && i < |s.academicAchievements.value|
    ensures "\n**Academic Achievements:**" in ProfileSections(s)
    ensures "- " + s.academicAchievements.value[i] in ProfileSections(s)
  {
    ListSectionHolds("\n**Academic Achievements:**", s.academicAchievements, BulletLines, i, "- " + s.academicAchievements.value[i]);
  }

  /** Every award is printed as a bullet under its header. */
  lemma ProfileShowsAwards(s: StudentProfile, i: nat)
    requires s.awardsHonors.Some? && i < |s.awardsHonors.value|
    ensures "\n**Awards & Honors:**" in ProfileSections(s)
    ensures "- " + s.awardsHonors.value[i] in ProfileSections(s)
  {
    ListSectionHolds("\n**Awards & Honors:**", s.awardsHonors, BulletLines, i, "- " + s.awardsHonors.value[i]);
  }

  /** Every activity is printed, heading line first, under its header. */
  lemma ProfileShowsActivities(s: StudentProfile, i: nat)
    requires s.extracurriculars.Some? && i < |s.extracurriculars.value|
    ensures "\n**Extracurricular Activities:**" in ProfileSections(s)
    ensures forall line :: line in ActivityLines(s.extracurriculars.value[i]) ==> line in ProfileSections(s)
  {
    forall line | line in ActivityLines(s.extracurriculars.value[i])
      ensures line in ProfileSections(s)
    {
      ListSectionHolds("\n**Extracurricular Activities:**", s.extracurriculars, ActivityLines, i, line);
    }
  }

  /** Every leadership role is printed under its header. */
  lemma ProfileShowsRoles(s: StudentProfile, i: nat)
    requires s.leadershipRoles.Some? && i < |s.leadershipRoles.value|
    ensures "\n**Leadership Roles:**" in ProfileSections(s)
    ensures forall line :: line in RoleLines(s.leadershipRoles.value[i]) ==> line in ProfileSections(s)
  {
    forall line | line in RoleLines(s.leadershipRoles.value[i])
      ensures line in ProfileSections(s)
    {
      ListSectionHolds("\n**Leadership Roles:**", s.leadershipRoles, RoleLines, i, line);
    }
  }

  /** Every volunteer entry is printed under its header. */
  lemma ProfileShowsVolunteerWork(s: StudentProfile, i: nat)
    requires s.volunteerWork.Some? && i < |s.volunteerWork.value|
    ensures "\n**Volunteer & Community Service:**" in ProfileSections(s)
    ensures forall line :: line in VolunteerLines(s.volunteerWork.value[i]) ==> line in ProfileSections(s)
  {
    forall line | line in VolunteerLines(s.volunteerWork.value[i])
      ensures line in ProfileSections(s)
    {
      ListSectionHolds("\n**Volunteer & Community Service:**", s.volunteerWork, VolunteerLines, i, line);
    }
  }

  /** Every project is printed under its header. */
  lemma ProfileShowsProjects(s: StudentProfile, i: nat)
    requires s.projects.Some? && i < |s.projects.value|
    ensures "\n**Projects:**" in ProfileSections(s)
    ensures forall line :: line in ProjectLines(s.projects.value[i]) ==> line in ProfileSections(s)
  {
    forall line | line in ProjectLines(s.projects.value[i])
      ensures line in ProfileSections(s)
    {
      ListSectionHolds("\n**Projects:**", s.projects, ProjectLines, i, line);
    }
  }

  /** Every pushed line occurs in the profile text. */
  lemma ProfileTextHoldsLine(s: StudentProfile, line: string)
    requires line in ProfileSections(s)
    ensures Contains(ProfileText(s), line)
  {
    var i :| 0 <= i < |ProfileSections(s)| && ProfileSections(s)[i] == line;
    JoinContainsPart("\n", ProfileSections(s), i);
  }

  /** A profile with nothing but a name prints just the name line. */
  lemma BareProfile(s: StudentProfile)
    requires WithoutFalsy(s) == WithoutFalsy(s).(gradeLevel := None, gpa := None, academicAchievements := None,
      extracurriculars := None, leadershipRoles := None, awardsHonors := None, volunteerWork := None,
      communityImpact := None, projects := None, backgroundStory := None, challengesOvercome := None,
      futureGoals := None, personalValues := None)
    requires s.testScores.None?
    ensures ProfileText(s) == "**Name:** " + s.fullName
  {
    ProfileOmitsFalsyFields(s);
    assert ProfileSections(WithoutFalsy(s)) == ["**Name:** " + s.fullName];
  }

  // ---------------------------------------------------------------------
  // getAngleLabel

  /** The angles, in the order the route tries them. */
  const Angles: seq<Angle> := [PrimaryStrength, PersonalStory, Balanced]

  /** `getAngleLabel`. */
  function AngleLabel(a: Angle): string {
    match a
    case PrimaryStrength => "Primary Strength Focus"
    case PersonalStory => "Personal Story Lead"
    case Balanced => "Balanced Approach"
  }

  /** Different angles have different labels, so a draft's label names its angle. */
  lemma AngleLabelsDistinct(a: Angle, b: Angle)
    requires a != b
    ensures AngleLabel(a) != AngleLabel(b)
  {
    assert |AngleLabel(PrimaryStrength)| == 22;
    assert |AngleLabel(PersonalStory)| == 19;
    assert |AngleLabel(Balanced)| == 17;
  }

  // ---------------------------------------------------------------------
  // POST: validation

  /** The request body (`await request.json()`); absent members are None. */
  datatype EssayRequestBody = EssayRequestBody(
    studentId: Option<string>,
    scholarshipId: Option<string>,
    essayPromptIndex: Option<int>)

  /** The two tables the route reads: profiles by id, and scholarships by id
      with their embedded analysis rows. */
  datatype EssayStore = EssayStore(
    students: map<string, StudentProfile>,
    scholarships: map<string, ScholarshipRow>)

  /** What validation hands to generation. */
  datatype EssayContext = EssayContext(
    student: StudentProfile,
    row: ScholarshipRow,
    analysis: ScholarshipAnalysis,
    essayPrompt: EssayPrompt)

  /** The outcome of validation and the store reads made on the way. */
  datatype Checked = Checked(result: Result<EssayContext, HttpError>, accesses: seq<Effect>)

  const EssayFailure := "Failed to generate essays"
  const IdsRequired := "student_id and scholarship_id are required"
  const StudentNotFound := "Student profile not found"
  const ScholarshipNotFound := "Scholarship not found"
  const NotAnalyzed := "Scholarship has not been analyzed yet. Please analyze it first."
  const NoPrompts := "No essay prompts available for this scholarship"
  const InvalidPromptIndex := "Invalid essay_prompt_index"
  const NoDrafts := "Failed to generate any essay drafts"

  /** The checks before generation, in the route's order. A body that fails
      to parse lands in the outer `catch`; an essay-prompt index that selects
      no prompt (negative or too large) yields undefined, which is rejected. */
  function CheckEssayRequest(body: Option<EssayRequestBody>, store: EssayStore): (c: Checked)
    ensures |c.accesses| <= 2 && forall e :: e in c.accesses ==> e.ReadStudent? || e.ReadScholarship?
  {
    if body.None? then Checked(Err(HttpError(500, EssayFailure)), [])
    else
      var b := body.value;
      if !TruthyString(b.studentId) || !TruthyString(b.scholarshipId) then Checked(Err(HttpError(400, IdsRequired)), [])
      else
        var sid, schid := b.studentId.value, b.scholarshipId.value;
        if sid !in store.students then Checked(Err(HttpError(404, StudentNotFound)), [ReadStudent(sid)])
        else
          var accesses := [ReadStudent(sid), ReadScholarship(schid)];
          if schid !in store.scholarships then Checked(Err(HttpError(404, ScholarshipNotFound)), accesses)
          else
            var row := store.scholarships[schid];
            if !NonEmptyList(row.analyses) then Checked(Err(HttpError(400, NotAnalyzed)), accesses)
            else if !NonEmptyList(row.scholarship.essayPrompts) then Checked(Err(HttpError(400, NoPrompts)), accesses)
            else
              var prompts := row.scholarship.essayPrompts.value;
              var index := b.essayPromptIndex.GetOr(0);
              if !(0 <= index < |prompts|) then Checked(Err(HttpError(400, InvalidPromptIndex)), accesses)
              else Checked(Ok(EssayContext(store.students[sid], row, row.analyses.value[0], prompts[index])), accesses)
  }

  /** A missing id is a 400 before any store access. */
  lemma EssayIdsRequired(b: EssayRequestBody, store: EssayStore)
    requires !TruthyString(b.studentId) || !TruthyString(b.scholarshipId)
    ensures CheckEssayRequest(Some(b), store) == Checked(Err(HttpError(400, IdsRequired)), [])
  {
  }

  /** Validation passes exactly when both ids are given, both rows exist, the
      scholarship has an analysis and a prompt sits at the requested index
      (0 when none is given); the context then holds the student, the first
      analysis row and the selected prompt, read in that order. */
  lemma EssayValidationPasses(body: Option<EssayRequestBody>, store: EssayStore)
    ensures CheckEssayRequest(body, store).result.Ok? <==>
      && body.Some? && TruthyString(body.value.studentId) && TruthyString(body.value.scholarshipId)
      && body.value.studentId.value in store.students
      && body.value.scholarshipId.value in store.scholarships
      && NonEmptyList(store.scholarships[body.value.scholarshipId.value].analyses)
      && NonEmptyList(store.scholarships[body.value.scholarshipId.value].scholarship.essayPrompts)
      && 0 <= body.value.essayPromptIndex.GetOr(0) < |store.scholarships[body.value.scholarshipId.value].scholarship.essayPrompts.value|
    ensures CheckEssayRequest(body, store).result.Ok? ==>
      var b := body.value;
      var row := store.scholarships[b.scholarshipId.value];
      && CheckEssayRequest(body, store).accesses == [ReadStudent(b.studentId.value), ReadScholarship(b.scholarshipId.value)]
      && CheckEssayRequest(body, store).result.value ==
         EssayContext(store.students[b.studentId.value], row, row.analyses.value[0],
                      row.scholarship.essayPrompts.value[b.essayPromptIndex.GetOr(0)])
  {
  }

  /** Rejections are classified: 404 exactly for a missing profile or
      scholarship, 500 only for an unreadable body, 400 for the rest. */
  lemma EssayRejectionStatus(body: Option<EssayRequestBody>, store: EssayStore)
    requires CheckEssayRequest(body, store).result.Err?
    ensures CheckEssayRequest(body, store).result.error.status in {400, 404, 500}
    ensures CheckEssayRequest(body, store).result.error.status == 500 <==> body.None?
    ensures CheckEssayRequest(body, store).result.error.status == 404 <==>
      body.Some? && TruthyString(body.value.studentId) && TruthyString(body.value.scholarshipId)
      && (body.value.studentId.value !in store.students || body.value.scholarshipId.value !in store.scholarships)
  {
  }

  // ---------------------------------------------------------------------
  // POST: the draft loop

  /** The prompt for the i-th angle. */
  function DraftPrompt(ctx: EssayContext, profile: string, i: nat, codec: JsonCodec, texts: PromptTexts): string
    requires i < |Angles|
  {
    EssayGenerationPrompt(EssayPromptParams(profile, ctx.row.scholarship,
      ctx.essayPrompt.question, ctx.essayPrompt.wordLimit, ctx.analysis, Angles[i]), codec, texts)
  }

  /** The model call for the i-th angle. */
  function DraftRequest(ctx: EssayContext, profile: string, i: nat, codec: JsonCodec, texts: PromptTexts): (r: ApiRequest)
    requires i < |Angles|
    ensures r.system == Some(texts.essaySystem) && r.temperature == 0.8 && r.maxTokens == 3000
    ensures r.userContent == DraftPrompt(ctx, profile, i, codec, texts)
  {
    ToApiRequest(MessageParams(Some(texts.essaySystem), DraftPrompt(ctx, profile, i, codec, texts), Some(3000), Some(0.8)))
  }

  /** Each angle's prompt carries the profile text, that angle's instruction,
      the essay question and the selected prompt's word limit. */
  lemma DraftPromptContents(ctx: EssayContext, profile: string, i: nat, codec: JsonCodec, texts: PromptTexts)
    requires i < |Angles|
    ensures Contains(DraftPrompt(ctx, profile, i, codec, texts), profile)
    ensures Contains(DraftPrompt(ctx, profile, i, codec, texts), AngleLine(Angles[i], texts))
    ensures Contains(DraftPrompt(ctx, profile, i, codec, texts), StrictLimitLine(ctx.essayPrompt.wordLimit))
    ensures Contains(DraftPrompt(ctx, profile, i, codec, texts), ctx.essayPrompt.question)
  {
    var p := EssayPromptParams(profile, ctx.row.scholarship, ctx.essayPrompt.question, ctx.essayPrompt.wordLimit, ctx.analysis, Angles[i]);
    EssayPromptEmbedsStudent(p, codec, texts);
    EssayPromptEmbedsScholarship(p, codec, texts);
  }

  /** The three model calls, one per angle in order. */
  function DraftRequests(ctx: EssayContext, profile: string, codec: JsonCodec, texts: PromptTexts): (r: seq<ApiRequest>)
    ensures |r| == |Angles| && forall i :: 0 <= i < |Angles| ==> r[i] == DraftRequest(ctx, profile, i, codec, texts)
  {
    seq(|Angles|, i requires 0 <= i < |Angles| => DraftRequest(ctx, profile, i, codec, texts))
  }

  /** What the i-th reply gives: no draft for a failed call or an unparsable
      reply, otherwise draft number i+1 under the i-th angle's label. */
  function DraftOutcome(i: nat, reply: Option<Message>, codec: JsonCodec): (r: Option<EssayDraft>)
    requires i < |Angles|
    ensures r.Some? <==> reply.Some? && ParseJsonResponse(reply.value, codec.parseDraft).Ok?
    ensures r.Some? ==>
      var f := ParseJsonResponse(reply.value, codec.parseDraft).value;
      r.value == EssayDraft(i + 1, AngleLabel(Angles[i]), f.content, f.reasoning, f.highlightedExperiences, f.wordCount)
  {
    match reply
    case None => None
    case Some(m) =>
      match ParseJsonResponse(m, codec.parseDraft)
      case Err(_) => None
      case Ok(f) => Some(EssayDraft(i + 1, AngleLabel(Angles[i]), f.content, f.reasoning, f.highlightedExperiences, f.wordCount))
  }

  function DraftOutcomes(replies: seq<Option<Message>>, codec: JsonCodec): (r: seq<Option<EssayDraft>>)
    requires |replies| <= |Angles|
    ensures |r| == |replies| && forall i :: 0 <= i < |replies| ==> r[i] == DraftOutcome(i, replies[i], codec)
  {
    seq(|replies|, i requires 0 <= i < |replies| => DraftOutcome(i, replies[i], codec))
  }

  /** The successful response. */
  datatype EssayResponse = EssayResponse(drafts: seq<EssayDraft>, analysis: ScholarshipAnalysis, essayPrompt: EssayPrompt)

  /** No draft is a 500; any draft is a success carrying the analysis and the prompt. */
  function DraftsResponse(ctx: EssayContext, drafts: seq<EssayDraft>): (r: Result<EssayResponse, HttpError>)
    ensures r.Err? <==> drafts == []
    ensures r.Err? ==> r.error == HttpError(500, NoDrafts)
    ensures r.Ok? ==> r.value == EssayResponse(drafts, ctx.analysis, ctx.essayPrompt)
  {
    if |drafts| == 0 then Err(HttpError(500, NoDrafts)) else Ok(EssayResponse(drafts, ctx.analysis, ctx.essayPrompt))
  }

  /** The model calls in order, call i with the i-th angle's request, keeping
      the drafts that came back: a failed call or an unparsable reply is
      skipped and the loop goes on. The requests are pure values of the
      context, built here before the loop rather than inside it. */
  method DraftLoop(requests: seq<ApiRequest>, codec: JsonCodec, complete: Completion)
    returns (drafts: seq<EssayDraft>, calls: seq<Effect>)
    requires |requests| == |Angles|
    ensures calls == ModelCalls(requests)
    ensures drafts == Successes(DraftOutcomes(Replies(requests, complete), codec))
  {
    ghost var attempts := DraftOutcomes(Replies(requests, complete), codec);
    drafts := [];
    calls := [];
    var i := 0;
    while i < |requests|
      invariant 0 <= i <= |requests|
      invariant drafts == Successes(attempts[..i])
      invariant calls == ModelCalls(requests[..i])
    {
      var request := requests[i];
      calls := calls + [ModelCall(request)];
      var reply := complete(i, request);
      var outcome := DraftOutcome(i, reply, codec);
      if outcome.Some? {
        drafts := drafts + [outcome.value];
      }
      SuccessesSnoc(attempts[..i], attempts[i]);
      TakeSnoc(attempts, i);
      TakeSnoc(requests, i);
      ModelCallsSnoc(requests[..i], request);
      i := i + 1;
    }
    assert attempts[..i] == attempts;
    assert requests[..i] == requests;
  }

  /** `POST /api/generate-essay`. Validation first; then the profile text, and
      one model call per angle (calls 0, 1, 2 of the request), keeping the
      drafts that came back. */
  method GenerateEssays(body: Option<EssayRequestBody>, store: EssayStore, codec: JsonCodec, texts: PromptTexts, complete: Completion)
    returns (response: Result<EssayResponse, HttpError>, trace: seq<Effect>)
    ensures var c := CheckEssayRequest(body, store);
      c.result.Err? ==> response == Err(c.result.error) && trace == c.accesses
    ensures CheckEssayRequest(body, store).result.Err? ==> forall e :: e in trace ==> !e.ModelCall?
    ensures var c := CheckEssayRequest(body, store);
      c.result.Ok? ==>
        var requests := DraftRequests(c.result.value, ProfileText(c.result.value.student), codec, texts);
        && trace == c.accesses + ModelCalls(requests)
        && response == DraftsResponse(c.result.value, Successes(DraftOutcomes(Replies(requests, complete), codec)))
  {
    var checked := CheckEssayRequest(body, store);
    if checked.result.Err? {
      response := Err(checked.result.error);
      trace := checked.accesses;
      return;
    }
    var ctx := checked.result.value;
    var profile := FormatStudentProfile(ctx.student);
    var requests := DraftRequests(ctx, profile, codec, texts);
    var drafts, calls := DraftLoop(requests, codec, complete);
    trace := checked.accesses + calls;
    response := DraftsResponse(ctx, drafts);
  }

  /** The drafts of any replies: at most three; versions strictly increasing
      within 1..3; each draft is what reply `version`-1 gave and carries that
      angle's label; and every reply that gave a draft is present under its
      own number, so a failure never renumbers the later drafts. */
  lemma DraftVersions(replies: seq<Option<Message>>, codec: JsonCodec)
    requires |replies| == |Angles|
    ensures var drafts := Successes(DraftOutcomes(replies, codec));
      && |drafts| <= 3
      && (forall j :: 0 <= j < |drafts| ==>
            1 <= drafts[j].version <= 3
            && Some(drafts[j]) == DraftOutcome(drafts[j].version - 1, replies[drafts[j].version - 1], codec)
            && drafts[j].angle == AngleLabel(Angles[drafts[j].version - 1]))
      && (forall j, k :: 0 <= j < k < |drafts| ==> drafts[j].version < drafts[k].version)
      && (forall i :: 0 <= i < 3 && DraftOutcome(i, replies[i], codec).Some? ==>
            exists j :: 0 <= j < |drafts| && drafts[j].version == i + 1)
  {
    var attempts := DraftOutcomes(replies, codec);
    var drafts := Successes(attempts);
    var origins := Origins(attempts);
    OriginsSound(attempts);
    forall j | 0 <= j < |drafts|
      ensures drafts[j].version == origins[j] + 1
    {
      assert attempts[origins[j]] == Some(drafts[j]);
    }
    forall i | 0 <= i < 3 && DraftOutcome(i, replies[i], codec).Some?
      ensures exists j :: 0 <= j < |drafts| && drafts[j].version == i + 1
    {
      assert attempts[i].Some?;
      var j :| 0 <= j < |origins| && origins[j] == i;
      assert drafts[j].version == i + 1;
    }
  }

  /** The route fails with "Failed to generate any essay drafts" exactly when
      every reply fails; it never succeeds with no drafts. */
  lemma AllAnglesFailed(ctx: EssayContext, replies: seq<Option<Message>>, codec: JsonCodec)
    requires |replies| == |Angles|
    ensures var r := DraftsResponse(ctx, Successes(DraftOutcomes(replies, codec)));
      (r == Err(HttpError(500, NoDrafts)) <==> forall i :: 0 <= i < 3 ==> DraftOutcome(i, replies[i], codec).None?)
      && (r.Ok? ==> |r.value.drafts| > 0)
  {
    SuccessesEmpty(DraftOutcomes(replies, codec));
  }

  /** When only the second angle fails, the drafts are numbered 1 and 3. */
  lemma MiddleAngleFails(replies: seq<Option<Message>>, codec: JsonCodec)
    requires |replies| == |Angles|
    requires DraftOutcome(0, replies[0], codec).Some?
    requires DraftOutcome(1, replies[1], codec).None?
    requires DraftOutcome(2, replies[2], codec).Some?
    ensures var drafts := Successes(DraftOutcomes(replies, codec));
      |drafts| == 2 && drafts[0].version == 1 && drafts[1].version == 3
  {
    var a := DraftOutcomes(replies, codec);
    assert a == [a[0], a[1], a[2]];
    SuccessesOfThree(a[0], a[1], a[2]);
    var d0, d2 := a[0].value, a[2].value;
    assert Successes(a) == [d0] + [] + [d2];
    assert d0.version == 1 && d2.version == 3;
  }
}
