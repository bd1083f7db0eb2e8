/**
 * `ATSScorer`: four category scores (skills, experience, education, keyword
 * density) combined by the configured weights, blended with a semantic
 * similarity, and mapped to a rating. Scores are exact reals; the two
 * similarity measures (TF-IDF cosine, spaCy document similarity) are inputs.
 */
module AtsScorer {
  import opened Wrappers
  import opened Text
  import opened Seqs
  import Config
  import opened KeywordExtractor
  import opened ResumeParser

  /** A cosine similarity of two non-negative TF-IDF vectors lies in [0, 1]. */
  type Fraction = r: real | 0.0 <= r <= 1.0 witness 0.0

  function Min(a: real, b: real): real {
    if a <= b then a else b
  }

  /** How many of `keywords` occur, lowercased, in the lowercased `text`: `sum(1 for kw in keywords if kw.lower() in text_lower)`. */
  function Matches(text: string, keywords: seq<string>): (n: nat)
    ensures n <= |keywords|
    ensures n == |keywords| <==> forall i :: 0 <= i < |keywords| ==> Contains(Lower(text), Lower(keywords[i]))
  {
    FilterKeepsAll(keywords, FoundIn(Lower(text)));
    |Filter(keywords, FoundIn(Lower(text)))|
  }

  /** The share of `keywords` found in `text`, as a percentage, or 0 when there are none. */
  function MatchPercent(text: string, keywords: seq<string>): (p: real)
    ensures 0.0 <= p <= 100.0
    ensures keywords == [] ==> p == 0.0
    ensures p == 100.0 <==> keywords != [] && Matches(text, keywords) == |keywords|
  {
    if keywords == [] then 0.0
    else
      Percentage(Matches(text, keywords), |keywords|);
      (Matches(text, keywords) as real / |keywords| as real) * 100.0
  }

  // ---------------------------------------------------------------- category scores

  /**
   * `_score_skills`: 0 without a skills section, 50 when the job names no
   * skills, and otherwise 70% of the technical match rate plus 30% of the
   * soft-skill match rate.
   */
  function ScoreSkills(skillsSection: string, job: JobKeywords): (r: real)
    ensures 0.0 <= r <= 100.0
    ensures skillsSection == [] ==> r == 0.0
    ensures skillsSection != [] && job.technicalSkills == [] && job.softSkills == [] ==> r == 50.0
    ensures skillsSection != [] && job.technicalSkills != [] && job.softSkills == [] ==> r <= 70.0
    ensures skillsSection != [] && job.technicalSkills == [] && job.softSkills != [] ==> r <= 30.0
  {
    if skillsSection == [] then 0.0
    else if |job.technicalSkills| + |job.softSkills| == 0 then 50.0
    else
      var techScore := MatchPercent(skillsSection, job.technicalSkills);
      var softScore := MatchPercent(skillsSection, job.softSkills);
      techScore * 0.7 + softScore * 0.3
  }

  /**
   * A full skills score needs both technical and soft skills in the job, every
   * one of them in the skills section.
   */
  lemma SkillsScoreFull(skillsSection: string, job: JobKeywords)
    ensures ScoreSkills(skillsSection, job) == 100.0 <==>
              skillsSection != [] && job.technicalSkills != [] && job.softSkills != []
              && Matches(skillsSection, job.technicalSkills) == |job.technicalSkills|
              && Matches(skillsSection, job.softSkills) == |job.softSkills|
  {
    if skillsSection != [] && |job.technicalSkills| + |job.softSkills| != 0 {
      var t := MatchPercent(skillsSection, job.technicalSkills);
      var s := MatchPercent(skillsSection, job.softSkills);
      assert t * 0.7 + s * 0.3 == 100.0 <==> t == 100.0 && s == 100.0;
    }
  }

  /** The two match rates of the skills score are the keyword densities of the skills section. */
  lemma SkillsScoreIsDensity(skillsSection: string, job: JobKeywords)
    requires skillsSection != [] && |job.technicalSkills| + |job.softSkills| > 0
    ensures ScoreSkills(skillsSection, job)
            == KeywordDensity(skillsSection, job.technicalSkills) * 0.7 + KeywordDensity(skillsSection, job.softSkills) * 0.3
  {
  }

  /**
   * `_score_experience`: 0 without an experience section; otherwise the TF-IDF
   * cosine similarity with the job description as a percentage, or 50 when the
   * vectoriser fails (`None`).
   */
  function ScoreExperience(experienceSection: string, similarity: Option<Fraction>): (r: real)
    ensures 0.0 <= r <= 100.0
    ensures experienceSection == [] ==> r == 0.0
    ensures experienceSection != [] && similarity.None? ==> r == 50.0
    ensures r == 100.0 <==> experienceSection != [] && similarity == Some(1.0)
  {
    if experienceSection == [] then 0.0
    else
      match similarity
      case Some(s) => s * 100.0
      case None => 50.0
  }

  /** The degree words of `_score_education`. */
  const DegreeWords: seq<string> := ["bachelor", "master", "phd", "doctorate", "associate"]

  predicate HasDegree(educationLower: string) {
    exists i :: 0 <= i < |DegreeWords| && Contains(educationLower, DegreeWords[i])
  }

  /**
   * `_score_education`: 30 without an education section, 70 when the job
   * names no education or certification requirement, and otherwise the share
   * of requirements found, raised by 20 (at most to 100) when a degree word
   * occurs.
   */
  function ScoreEducation(educationSection: string, job: JobKeywords): (r: real)
    ensures 0.0 <= r <= 100.0
    ensures educationSection == [] ==> r == 30.0
    ensures educationSection != [] && job.education == [] && job.certifications == [] ==> r == 70.0
  {
    if educationSection == [] then 30.0
    else
      var total := |job.education| + |job.certifications|;
      if total == 0 then 70.0
      else
        var found := Matches(educationSection, job.education) + Matches(educationSection, job.certifications);
        Percentage(found, total);
        var matchScore := (found as real / total as real) * 100.0;
        WithDegreeBonus(matchScore, HasDegree(Lower(educationSection)))
  }

  /** The degree bonus: 20 more points, at most 100. */
  function WithDegreeBonus(matchScore: real, hasDegree: bool): real {
    if hasDegree then Min(100.0, matchScore + 20.0) else matchScore
  }

  /** With requirements present, the score is the bonus applied to the found share. */
  lemma EducationScoreShare(educationSection: string, job: JobKeywords)
    requires educationSection != [] && |job.education| + |job.certifications| > 0
    ensures var found := Matches(educationSection, job.education) + Matches(educationSection, job.certifications);
            var total := |job.education| + |job.certifications|;
            ScoreEducation(educationSection, job)
            == WithDegreeBonus((found as real / total as real) * 100.0, HasDegree(Lower(educationSection)))
  {
  }

  /**
   * With requirements present: a degree word is worth at least 20 points,
   * meeting every requirement is worth 100, and without a degree word the
   * score is 0 exactly when no requirement is met.
   */
  lemma EducationScoreRequirements(educationSection: string, job: JobKeywords)
    requires educationSection != [] && |job.education| + |job.certifications| > 0
    ensures HasDegree(Lower(educationSection)) ==> ScoreEducation(educationSection, job) >= 20.0
    ensures Matches(educationSection, job.education) == |job.education|
            && Matches(educationSection, job.certifications) == |job.certifications|
            ==> ScoreEducation(educationSection, job) == 100.0
    ensures !HasDegree(Lower(educationSection)) ==>
              (ScoreEducation(educationSection, job) == 0.0 <==>
               Matches(educationSection, job.education) + Matches(educationSection, job.certifications) == 0)
  {
    var total := |job.education| + |job.certifications|;
    var found := Matches(educationSection, job.education) + Matches(educationSection, job.certifications);
    Percentage(found, total);
    EducationScoreShare(educationSection, job);
    BonusFacts((found as real / total as real) * 100.0, HasDegree(Lower(educationSection)));
  }

  lemma BonusFacts(matchScore: real, hasDegree: bool)
    requires 0.0 <= matchScore <= 100.0
    ensures hasDegree ==> WithDegreeBonus(matchScore, hasDegree) >= 20.0
    ensures matchScore == 100.0 ==> WithDegreeBonus(matchScore, hasDegree) == 100.0
    ensures !hasDegree ==> WithDegreeBonus(matchScore, hasDegree) == matchScore
  {
  }

  /** `_score_keywords`: 50 when the job has no keywords, otherwise the found share, capped at 100. */
  function ScoreKeywords(resumeText: string, job: JobKeywords): (r: real)
    ensures 0.0 <= r <= 100.0
    ensures job.allKeywords == [] ==> r == 50.0
  {
    if job.allKeywords == [] then 50.0
    else
      Percentage(Matches(resumeText, job.allKeywords), |job.allKeywords|);
      var density := (Matches(resumeText, job.allKeywords) as real / |job.allKeywords| as real) * 100.0;
      Min(100.0, density)
  }

  /**
   * The cap never takes effect: with keywords present the keyword score is the
   * keyword density the response reports, and it is 100 exactly when every
   * keyword is in the resume.
   */
  lemma KeywordScoreIsDensity(resumeText: string, job: JobKeywords)
    requires job.allKeywords != []
    ensures ScoreKeywords(resumeText, job) == KeywordDensity(resumeText, job.allKeywords)
    ensures ScoreKeywords(resumeText, job) == 100.0 <==>
              forall i :: 0 <= i < |job.allKeywords| ==> Contains(Lower(resumeText), Lower(job.allKeywords[i]))
  {
  }

  // ---------------------------------------------------------------- combination

  /** The weighted sum of the four category scores. */
  function Overall(skills: real, experience: real, education: real, keywords: real): real {
    skills * Config.SkillsWeight + experience * Config.ExperienceWeight
    + education * Config.EducationWeight + keywords * Config.KeywordsWeight
  }

  /** The overall score blended 70/30 with the semantic similarity. */
  function Blend(overall: real, semantic: real): real {
    overall * 0.7 + semantic * 0.3
  }

  /** Scores in [0, 100] combine to a final score in [0, 100]. */
  lemma FinalScoreRange(skills: real, experience: real, education: real, keywords: real, semantic: real)
    requires 0.0 <= skills <= 100.0 && 0.0 <= experience <= 100.0 && 0.0 <= education <= 100.0
    requires 0.0 <= keywords <= 100.0 && 0.0 <= semantic <= 100.0
    ensures 0.0 <= Overall(skills, experience, education, keywords) <= 100.0
    ensures 0.0 <= Blend(Overall(skills, experience, education, keywords), semantic) <= 100.0
  {
  }

  /** Since the weights sum to one, equal inputs give that same final score. */
  lemma FinalScoreOfEqualInputs(x: real)
    ensures Overall(x, x, x, x) == x
    ensures Blend(Overall(x, x, x, x), x) == x
  {
    Config.WeightsSumToOne();
  }

  /** Raising any input never lowers the final score. */
  lemma FinalScoreMonotone(s1: real, e1: real, d1: real, k1: real, m1: real,
                           s2: real, e2: real, d2: real, k2: real, m2: real)
    requires s1 <= s2 && e1 <= e2 && d1 <= d2 && k1 <= k2 && m1 <= m2
    ensures Blend(Overall(s1, e1, d1, k1), m1) <= Blend(Overall(s2, e2, d2, k2), m2)
  {
  }

  // ---------------------------------------------------------------- rating

  /** `_get_rating`. */
  function Rating(score: real): (r: string)
    ensures r == "Excellent" <==> score >= Config.ExcellentScore
    ensures r == "Good" <==> Config.GoodScore <= score < Config.ExcellentScore
    ensures r == "Fair" <==> Config.FairScore <= score < Config.GoodScore
    ensures r == "Needs Improvement" <==> score < Config.FairScore
  {
    if score >= Config.ExcellentScore then "Excellent"
    else if score >= Config.GoodScore then "Good"
    else if score >= Config.FairScore then "Fair"
    else "Needs Improvement"
  }

  /** The position of a rating from worst (0) to best (3). */
  function RatingRank(rating: string): nat {
    if rating == "Excellent" then 3
    else if rating == "Good" then 2
    else if rating == "Fair" then 1
    else 0
  }

  /** The rating is monotone: a higher score never gets a worse rating. */
  lemma RatingMonotone(a: real, b: real)
    requires a <= b
    ensures RatingRank(Rating(a)) <= RatingRank(Rating(b))
  {
    Config.ThresholdsDecrease();
  }

  // ---------------------------------------------------------------- calculate_score

  datatype CategoryScores = CategoryScores(skillsMatch: real, experienceMatch: real, educationMatch: real, keywordDensity: real)

  datatype AtsScore = AtsScore(overallScore: real, categoryScores: CategoryScores, semanticSimilarity: real, rating: string)

  /** `sections.get(key, '')`. */
  function SectionText(sections: map<Section, string>, s: Section): string {
    if s in sections then sections[s] else ""
  }

  /**
   * `calculate_score`: the four category scores of the resume's sections and
   * text, their weighted sum blended with the semantic similarity, and its
   * rating. `experienceSimilarity` and `semantic` are the similarity measures
   * computed outside the model.
   */
  function CalculateScore(resume: ParsedResume, job: JobKeywords, experienceSimilarity: Option<Fraction>,
                          semantic: real): (r: AtsScore)
    ensures r.rating == Rating(r.overallScore)
    ensures r.semanticSimilarity == semantic
    ensures 0.0 <= r.categoryScores.skillsMatch <= 100.0 && 0.0 <= r.categoryScores.experienceMatch <= 100.0
    ensures 0.0 <= r.categoryScores.educationMatch <= 100.0 && 0.0 <= r.categoryScores.keywordDensity <= 100.0
    ensures 0.0 <= semantic <= 100.0 ==> 0.0 <= r.overallScore <= 100.0
    ensures r.overallScore == Blend(Overall(r.categoryScores.skillsMatch, r.categoryScores.experienceMatch,
                                            r.categoryScores.educationMatch, r.categoryScores.keywordDensity), semantic)
  {
    var sections := resume.sections;
    var skills := ScoreSkills(SectionText(sections, Skills), job);
    var experience := ScoreExperience(SectionText(sections, Experience), experienceSimilarity);
    var education := ScoreEducation(SectionText(sections, Education), job);
    var keywords := ScoreKeywords(resume.rawText, job);
    var final := Blend(Overall(skills, experience, education, keywords), semantic);
    assert 0.0 <= semantic <= 100.0 ==> 0.0 <= final <= 100.0 by {
      if 0.0 <= semantic <= 100.0 {
        FinalScoreRange(skills, experience, education, keywords, semantic);
      }
    }
    AtsScore(final, CategoryScores(skills, experience, education, keywords), semantic, Rating(final))
  }

  /**
   * Every resume `parse_resume` accepts has empty skills, experience and
   * education sections, so its scores there are 0, 0 and 30 and its final
   * score is at most 0.7 * (0.15 * 30 + 0.15 * 100) + 0.3 * 100 = 43.65: it is
   * never rated "Good" or "Excellent".
   */
  lemma ParsedResumeScoreCeiling(filePath: string, extraction: Extraction, email: string -> Option<string>,
                                 phone: string -> Option<string>, linkedin: string -> Option<string>,
                                 job: JobKeywords, experienceSimilarity: Option<Fraction>, semantic: real)
    requires 0.0 <= semantic <= 100.0
    requires ParseResume(filePath, extraction, email, phone, linkedin).Success?
    ensures var score := CalculateScore(ParseResume(filePath, extraction, email, phone, linkedin).value,
                                        job, experienceSimilarity, semantic);
            score.categoryScores.skillsMatch == 0.0 && score.categoryScores.experienceMatch == 0.0
            && score.categoryScores.educationMatch == 30.0
            && score.overallScore <= 43.65
            && (score.rating == "Fair" || score.rating == "Needs Improvement")
  {
    var resume := ParseResume(filePath, extraction, email, phone, linkedin).value;
    ParsedSectionsEmpty(filePath, extraction, email, phone, linkedin);
    assert SectionText(resume.sections, Skills) == "";
    assert SectionText(resume.sections, Experience) == "";
    assert SectionText(resume.sections, Education) == "";
  }
}
