/**
 * The completeness score of the builder page: eight criteria, each awarding
 * points and, when it does not award its full points, one suggestion.
 */
module Scoring {
  import opened Wrappers
  import opened ResumeRecord

  datatype ScoreReport = ScoreReport(total: int, tips: seq<string>)

  datatype Criterion = HasName | HasTitle | SummaryLength | SkillCount | CertificationCount | HasEducation | DetailedWork | HasPhoto

  const TipName := "Add your full name."
  const TipTitle := "Include a designation/job title."
  const TipExpandSummary := "Expand your summary to at least 250 characters."
  const TipAddSummary := "Add a professional summary."
  const TipMoreSkills := "Include at least 5 professional skills for full score."
  const TipAddSkills := "Add at least 5 professional skills."
  const TipCertifications := "Mention at least 2 certifications."
  const TipEducation := "Add your education background."
  const TipWork := "Add at least one work experience with a detailed description (100+ characters)."
  const TipPhoto := "Upload a profile picture."

  function MaxPoints(c: Criterion): nat {
    match c
    case HasName => 10
    case HasTitle => 10
    case SummaryLength => 20
    case SkillCount => 15
    case CertificationCount => 10
    case HasEducation => 10
    case DetailedWork => 20
    case HasPhoto => 5
  }

  /** `work.some(w => w.description && w.description.length > 100)`, lengths of the raw markup. */
  predicate HasDetailedWork(work: seq<Item>) {
    exists i :: 0 <= i < |work| && |Field(work[i], "description")| > 100
  }

  /** 0 for no skills, 8 for one to four, 15 for five or more. */
  function SkillPoints(n: nat): nat {
    if n >= 5 then 15 else if n > 0 then 8 else 0
  }

  /** 10 for a non-empty summary, 10 more when its raw length is at least 250. */
  function SummaryPoints(summary: string): nat {
    if summary == "" then 0 else if |summary| >= 250 then 20 else 10
  }

  /** The points one criterion awards and the suggestion it adds, if any. */
  function Award(r: Resume, photo: bool, c: Criterion): (a: (nat, Option<string>))
    ensures a.0 <= MaxPoints(c)
    ensures a.0 == MaxPoints(c) <==> a.1 == None
  {
    match c
    case HasName => if r.name != "" then (10, None) else (0, Some(TipName))
    case HasTitle => if r.title != "" then (10, None) else (0, Some(TipTitle))
    case SummaryLength =>
      (SummaryPoints(r.summary),
       if r.summary == "" then Some(TipAddSummary) else if |r.summary| >= 250 then None else Some(TipExpandSummary))
    case SkillCount =>
      (SkillPoints(|r.skills|),
       if |r.skills| >= 5 then None else if |r.skills| > 0 then Some(TipMoreSkills) else Some(TipAddSkills))
    case CertificationCount => if |r.certifications| >= 2 then (10, None) else (0, Some(TipCertifications))
    case HasEducation => if |r.education| > 0 then (10, None) else (0, Some(TipEducation))
    case DetailedWork => if HasDetailedWork(r.work) then (20, None) else (0, Some(TipWork))
    case HasPhoto => if photo then (5, None) else (0, Some(TipPhoto))
  }

  function TipOf(r: Resume, photo: bool, c: Criterion): (t: seq<string>)
    ensures |t| <= 1
    ensures t == [] <==> Award(r, photo, c).0 == MaxPoints(c)
  {
    match Award(r, photo, c).1
    case Some(tip) => [tip]
    case None => []
  }

  /**
   * The score report: the sum of the eight criteria's points and their
   * suggestions in the page's order. The full 100 is reached exactly when
   * no suggestion is made.
   */
  function Score(r: Resume, photo: bool): (s: ScoreReport)
    ensures 0 <= s.total <= 100
    ensures s.total == 100 <==> s.tips == []
    ensures |s.tips| <= 8
  {
    ScoreReport(
      Award(r, photo, HasName).0 + Award(r, photo, HasTitle).0 + Award(r, photo, SummaryLength).0
      + Award(r, photo, SkillCount).0 + Award(r, photo, CertificationCount).0 + Award(r, photo, HasEducation).0
      + Award(r, photo, DetailedWork).0 + Award(r, photo, HasPhoto).0,
      TipOf(r, photo, HasName) + TipOf(r, photo, HasTitle) + TipOf(r, photo, SummaryLength)
      + TipOf(r, photo, SkillCount) + TipOf(r, photo, CertificationCount) + TipOf(r, photo, HasEducation)
      + TipOf(r, photo, DetailedWork) + TipOf(r, photo, HasPhoto))
  }

  /**
   * One block of `calculateScore`: the test of criterion `c`, adding its
   * points to `total` or pushing its suggestion onto `tips`.
   */
  method ScoreCriterion(r: Resume, profileImage: bool, c: Criterion, total: int, tips: seq<string>)
    returns (total': int, tips': seq<string>)
    ensures total' == total + Award(r, profileImage, c).0
    ensures tips' == tips + TipOf(r, profileImage, c)
  {
    total', tips' := total, tips;
    match c
    case HasName =>
      if r.name != "" { total' := total' + 10; }
      else { tips' := tips' + [TipName]; }
    case HasTitle =>
      if r.title != "" { total' := total' + 10; }
      else { tips' := tips' + [TipTitle]; }
    case SummaryLength =>
      if r.summary != "" {
        total' := total' + 10;
        if |r.summary| >= 250 { total' := total' + 10; }
        else { tips' := tips' + [TipExpandSummary]; }
      } else {
        tips' := tips' + [TipAddSummary];
      }
    case SkillCount =>
      var skillsCount := |r.skills|;
      if skillsCount >= 5 { total' := total' + 15; }
      else if skillsCount > 0 {
        total' := total' + 8;
        tips' := tips' + [TipMoreSkills];
      } else {
        tips' := tips' + [TipAddSkills];
      }
    case CertificationCount =>
      if |r.certifications| >= 2 { total' := total' + 10; }
      else { tips' := tips' + [TipCertifications]; }
    case HasEducation =>
      if |r.education| > 0 { total' := total' + 10; }
      else { tips' := tips' + [TipEducation]; }
    case DetailedWork =>
      var workExperienceValid := HasDetailedWork(r.work);
      if workExperienceValid { total' := total' + 20; }
      else { tips' := tips' + [TipWork]; }
    case HasPhoto =>
      if profileImage { total' := total' + 5; }
      else { tips' := tips' + [TipPhoto]; }
  }

  /**
   * `calculateScore`: start from 0 and no suggestions and run the eight
   * blocks in the page's order; `profileImage` is whether a profile picture
   * was uploaded.
   */
  method CalculateScore(r: Resume, profileImage: bool) returns (total: int, tips: seq<string>)
    ensures total == Score(r, profileImage).total
    ensures tips == Score(r, profileImage).tips
  {
    total, tips := 0, [];
    total, tips := ScoreCriterion(r, profileImage, HasName, total, tips);
    assert tips == TipOf(r, profileImage, HasName);
    total, tips := ScoreCriterion(r, profileImage, HasTitle, total, tips);
    total, tips := ScoreCriterion(r, profileImage, SummaryLength, total, tips);
    total, tips := ScoreCriterion(r, profileImage, SkillCount, total, tips);
    total, tips := ScoreCriterion(r, profileImage, CertificationCount, total, tips);
    total, tips := ScoreCriterion(r, profileImage, HasEducation, total, tips);
    total, tips := ScoreCriterion(r, profileImage, DetailedWork, total, tips);
    total, tips := ScoreCriterion(r, profileImage, HasPhoto, total, tips);
  }
}

module ScoringProperties {
  import opened Text
  import opened ResumeRecord
  import opened RecordEdits
  import opened Scoring

  /** The empty record without a photo scores 0 with all eight suggestions, in rubric order. */
  lemma EmptyRecordScore()
    ensures Score(EmptyResume, false) ==
      ScoreReport(0, [TipName, TipTitle, TipAddSummary, TipAddSkills, TipCertifications, TipEducation, TipWork, TipPhoto])
  {
  }

  /** The skills criterion: 0, then 8 for one to four skills, then 15 from five on. */
  lemma SkillSteps(n: nat)
    ensures SkillPoints(0) == 0
    ensures 1 <= n <= 4 ==> SkillPoints(n) == 8
    ensures n >= 5 ==> SkillPoints(n) == 15
    ensures SkillPoints(5) - SkillPoints(4) == 7
    ensures n >= 5 ==> SkillPoints(n + 1) == SkillPoints(n)
  {
  }

  /** Changing only the skills list changes the total only through the skills criterion. */
  lemma SkillsOnlyChange(r: Resume, r': Resume, photo: bool)
    requires r' == r.(skills := r'.skills)
    ensures Score(r', photo).total == Score(r, photo).total - SkillPoints(|r.skills|) + SkillPoints(|r'.skills|)
  {
  }

  /** Adding a fifth skill raises the score by 7. */
  lemma FifthSkillAddsSeven(r: Resume, photo: bool, input: string)
    requires |r.skills| == 4 && !AllSpace(input)
    ensures Score(AddTag(r, SkillTags, input), photo).total == Score(r, photo).total + 7
  {
    var r' := AddTag(r, SkillTags, input);
    assert r' == r.(skills := r'.skills) && |r'.skills| == 5;
    SkillsOnlyChange(r, r', photo);
  }

  /** Once five skills are listed, adding another leaves the score unchanged. */
  lemma SixthSkillAddsNothing(r: Resume, photo: bool, input: string)
    requires |r.skills| >= 5
    ensures Score(AddTag(r, SkillTags, input), photo).total == Score(r, photo).total
  {
    var r' := AddTag(r, SkillTags, input);
    assert r' == r.(skills := r'.skills) && |r'.skills| >= 5;
    SkillsOnlyChange(r, r', photo);
  }

  /** The summary criterion counts raw characters: 10 when present, 20 from 250 characters on. */
  lemma SummaryThresholds(r: Resume, photo: bool)
    ensures r.summary == "" ==> Award(r, photo, SummaryLength).0 == 0
    ensures r.summary != "" && |r.summary| < 250 ==> Award(r, photo, SummaryLength).0 == 10
    ensures |r.summary| >= 250 ==> Award(r, photo, SummaryLength).0 == 20
  {
  }

  /** The work criterion awards 20 exactly when some entry's description exceeds 100 characters. */
  lemma WorkCriterion(r: Resume, photo: bool)
    ensures Award(r, photo, DetailedWork).0 == 20 <==>
      exists i :: 0 <= i < |r.work| && |Field(r.work[i], "description")| > 100
    ensures Award(r, photo, DetailedWork).0 == 0 <==>
      forall i :: 0 <= i < |r.work| ==> |Field(r.work[i], "description")| <= 100
  {
  }
}
