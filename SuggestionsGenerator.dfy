/**
 * `SuggestionsGenerator`: threshold rules that turn the scores and the missing
 * keywords into critical, important and recommended suggestions, formatting
 * tips, a summary, and the top three actions.
 */
module SuggestionsGenerator {
  import opened Wrappers
  import opened Text
  import opened Seqs
  import opened KeywordExtractor
  import opened ResumeParser
  import opened AtsScorer

  /** One suggestion record; `keywords` and `section` are keys only some records carry. */
  datatype Suggestion = Suggestion(title: string, description: string, action: string,
                                   keywords: Option<seq<string>>, section: Option<string>)

  datatype SummaryReport = SummaryReport(message: string, priority: string, totalMissingKeywords: nat,
                             criticalIssues: nat, importantIssues: nat, topActions: seq<string>)

  datatype Suggestions = Suggestions(critical: seq<Suggestion>, important: seq<Suggestion>,
                                     recommended: seq<Suggestion>, formatting: seq<Suggestion>, summary: SummaryReport)

  function ActionOf(item: Suggestion): string { item.action }

  // ---------------------------------------------------------------- the suggestion records

  const LowScoreItem: Suggestion := Suggestion(
    "Low ATS Score - Major Improvements Needed",
    "Your resume needs significant optimization to pass ATS screening.",
    "Focus on adding missing keywords and restructuring content to match job requirements.",
    None, None)

  function MissingTechItem(techMissing: seq<string>): Suggestion {
    Suggestion(
      "Add Missing Technical Skills",
      "Your resume is missing " + NatToString(|techMissing|) + " key technical skills.",
      "Add these skills to your Skills section: " + Join(", ", Take(techMissing, 5)),
      Some(techMissing), Some("skills"))
  }

  const ExperienceItem: Suggestion := Suggestion(
    "Strengthen Experience Section",
    "Your experience section doesn't align well with job requirements.",
    "Rewrite bullet points to include job-specific keywords and quantify achievements.",
    None, Some("experience"))

  function EducationItem(eduMissing: seq<string>): Suggestion {
    Suggestion(
      "Highlight Relevant Education",
      "Education requirements from job posting are not clearly visible.",
      "Ensure these qualifications are prominent: " + Join(", ", eduMissing),
      None, Some("education"))
  }

  const KeywordDensityItem: Suggestion := Suggestion(
    "Increase Keyword Density",
    "Your resume contains too few keywords from the job description.",
    "Naturally incorporate more job-specific terms throughout your resume.",
    None, Some("all"))

  function SoftSkillsItem(softMissing: seq<string>): Suggestion {
    Suggestion(
      "Add Soft Skills",
      "Include " + NatToString(|softMissing|) + " soft skills mentioned in job posting.",
      "Weave these into your experience descriptions: " + Join(", ", Take(softMissing, 3)),
      Some(softMissing), Some("experience"))
  }

  function CertificationsItem(certMissing: seq<string>): Suggestion {
    Suggestion(
      "Highlight Certifications",
      "Job requires specific certifications.",
      "If you have these, add them prominently: " + Join(", ", certMissing),
      Some(certMissing), Some("certifications"))
  }

  // ---------------------------------------------------------------- the three priority lists

  /** What `generate_suggestions` puts in the 'critical' list. */
  function CriticalItems(overallScore: real, scores: CategoryScores, missing: MissingKeywords): seq<Suggestion> {
    (if overallScore < 40.0 then [LowScoreItem] else [])
    + (if scores.skillsMatch < 60.0 && missing.technicalSkills != [] then [MissingTechItem(missing.technicalSkills)] else [])
  }

  /** What `generate_suggestions` puts in the 'important' list. */
  function ImportantItems(scores: CategoryScores, missing: MissingKeywords): seq<Suggestion> {
    (if scores.experienceMatch < 60.0 then [ExperienceItem] else [])
    + (if scores.educationMatch < 50.0 && missing.education != [] then [EducationItem(missing.education)] else [])
    + (if scores.keywordDensity < 50.0 then [KeywordDensityItem] else [])
  }

  /** What `generate_suggestions` puts in the 'recommended' list. */
  function RecommendedItems(missing: MissingKeywords, scores: CategoryScores, sections: map<Section, string>): seq<Suggestion> {
    (if missing.softSkills != [] then [SoftSkillsItem(missing.softSkills)] else [])
    + (if missing.certifications != [] then [CertificationsItem(missing.certifications)] else [])
    + ProjectSuggestions(sections, missing, scores)
  }

  /**
   * The low-score item leads the critical list exactly when the overall score
   * is below 40; the technical-skills item is present exactly when the skills
   * score is below 60 and technical skills are missing; there are at most
   * two critical items.
   */
  lemma CriticalItemsRules(overallScore: real, scores: CategoryScores, missing: MissingKeywords)
    ensures var c := CriticalItems(overallScore, scores, missing);
            |c| <= 2
            && (overallScore < 40.0 <==> c != [] && c[0] == LowScoreItem)
            && (MissingTechItem(missing.technicalSkills) in c <==>
                  scores.skillsMatch < 60.0 && missing.technicalSkills != [])
  {
  }

  /**
   * At most three important items, each present exactly when its threshold
   * rule fires.
   */
  lemma ImportantItemsRules(scores: CategoryScores, missing: MissingKeywords)
    ensures var m := ImportantItems(scores, missing);
            |m| <= 3
            && (ExperienceItem in m <==> scores.experienceMatch < 60.0)
            && (EducationItem(missing.education) in m <==> scores.educationMatch < 50.0 && missing.education != [])
            && (KeywordDensityItem in m <==> scores.keywordDensity < 50.0)
  {
  }

  /**
   * The recommended list starts with the soft-skills item exactly when soft
   * skills are missing, then the certifications item exactly when
   * certifications are missing, then at most one project item.
   */
  lemma RecommendedItemsOrder(missing: MissingKeywords, scores: CategoryScores, sections: map<Section, string>)
    ensures var r := RecommendedItems(missing, scores, sections);
            var k := (if missing.softSkills != [] then 1 else 0) + (if missing.certifications != [] then 1 else 0);
            k <= |r| <= k + 1
            && r[k..] == ProjectSuggestions(sections, missing, scores)
            && (missing.softSkills != [] ==> r[0] == SoftSkillsItem(missing.softSkills))
            && (missing.certifications != [] ==> r[k - 1] == CertificationsItem(missing.certifications))
            && (missing.softSkills == [] && missing.certifications == [] ==> r == ProjectSuggestions(sections, missing, scores))
  {
    ProjectSuggestionsAtMostOne(sections, missing, scores);
  }

  // ---------------------------------------------------------------- projects

  /** The five project templates of `_suggest_projects_by_skills`, in the order they are tested. */
  const WebSkills: seq<string> := ["react", "angular", "vue", "javascript", "node.js", "express", "django", "flask"]
  const DataSkills: seq<string> := ["python", "machine learning", "data analysis", "pandas", "numpy", "tensorflow", "pytorch"]
  const MobileSkills: seq<string> := ["android", "ios", "react native", "flutter", "swift", "kotlin"]
  const CloudSkills: seq<string> := ["aws", "azure", "gcp", "docker", "kubernetes", "ci/cd"]
  const DatabaseSkills: seq<string> := ["sql", "mongodb", "postgresql", "mysql", "redis"]

  datatype ProjectTemplate = ProjectTemplate(skills: seq<string>, idea: string)

  const ProjectTemplates: seq<ProjectTemplate> := [
    ProjectTemplate(WebSkills, "a full-stack web application"),
    ProjectTemplate(DataSkills, "a data analysis or ML project"),
    ProjectTemplate(MobileSkills, "a mobile app"),
    ProjectTemplate(CloudSkills, "a cloud-deployed application"),
    ProjectTemplate(DatabaseSkills, "a database-driven application")
  ]

  const FallbackProjectIdea: string := "projects demonstrating the required technologies"

  /** `any(skill in skills_lower for skill in template)`: list membership, not substring. */
  predicate AnyListed(template: seq<string>, skillsLower: seq<string>) {
    exists i :: 0 <= i < |template| && template[i] in skillsLower
  }

  predicate TemplateMatches(skillsLower: seq<string>, t: ProjectTemplate) {
    AnyListed(t.skills, skillsLower)
  }

  function MatchesSkills(skillsLower: seq<string>): ProjectTemplate -> bool {
    (t: ProjectTemplate) => TemplateMatches(skillsLower, t)
  }

  function IdeaOf(t: ProjectTemplate): string { t.idea }

  /** The ideas of the templates that match, in table order. */
  function MatchedIdeas(missingSkills: seq<string>): seq<string> {
    Map(Filter(ProjectTemplates, MatchesSkills(Map(missingSkills, Lower))), IdeaOf)
  }

  /** The phrase `_suggest_projects_by_skills` returns, stated on the template table. */
  function ProjectIdeas(missingSkills: seq<string>): string {
    var ideas := MatchedIdeas(missingSkills);
    if ideas == [] then FallbackProjectIdea else Join(", ", Take(ideas, 2))
  }

  function IdeaIf(skillsLower: seq<string>, t: ProjectTemplate): seq<string> {
    if TemplateMatches(skillsLower, t) then [t.idea] else []
  }

  /** Testing one more template adds its idea when it matches. */
  lemma IdeasSnoc(ts: seq<ProjectTemplate>, t: ProjectTemplate, skillsLower: seq<string>)
    ensures Map(Filter(ts + [t], MatchesSkills(skillsLower)), IdeaOf)
            == Map(Filter(ts, MatchesSkills(skillsLower)), IdeaOf) + IdeaIf(skillsLower, t)
  {
    var p := MatchesSkills(skillsLower);
    FilterSnoc(ts, t, p);
    MapConcat(Filter(ts, p), if p(t) then [t] else [], IdeaOf);
  }

  /** The table walk, template by template. */
  lemma MatchedIdeasByTemplate(missingSkills: seq<string>)
    ensures var lower := Map(missingSkills, Lower);
            MatchedIdeas(missingSkills)
            == IdeaIf(lower, ProjectTemplates[0]) + IdeaIf(lower, ProjectTemplates[1]) + IdeaIf(lower, ProjectTemplates[2])
               + IdeaIf(lower, ProjectTemplates[3]) + IdeaIf(lower, ProjectTemplates[4])
  {
    var lower := Map(missingSkills, Lower);
    var t := ProjectTemplates;
    assert t[..1] == t[..0] + [t[0]];
    assert t[..2] == t[..1] + [t[1]];
    assert t[..3] == t[..2] + [t[2]];
    assert t[..4] == t[..3] + [t[3]];
    assert t == t[..4] + [t[4]];
    IdeasSnoc(t[..0], t[0], lower);
    IdeasSnoc(t[..1], t[1], lower);
    IdeasSnoc(t[..2], t[2], lower);
    IdeasSnoc(t[..3], t[3], lower);
    IdeasSnoc(t[..4], t[4], lower);
  }

  /** `_suggest_projects_by_skills`: one test per template, appending its idea; at most two are joined. */
  method SuggestProjectsBySkills(missingSkills: seq<string>) returns (r: string)
    ensures r == ProjectIdeas(missingSkills)
  {
    var skillsLower := Map(missingSkills, Lower);
    ghost var t := ProjectTemplates;
    var suggestions: seq<string> := [];
    if AnyListed(WebSkills, skillsLower) {
      suggestions := suggestions + ["a full-stack web application"];
    }
    assert t[0] == ProjectTemplate(WebSkills, "a full-stack web application");
    assert suggestions == IdeaIf(skillsLower, t[0]);
    if AnyListed(DataSkills, skillsLower) {
      suggestions := suggestions + ["a data analysis or ML project"];
    }
    assert t[1] == ProjectTemplate(DataSkills, "a data analysis or ML project");
    assert suggestions == IdeaIf(skillsLower, t[0]) + IdeaIf(skillsLower, t[1]);
    if AnyListed(MobileSkills, skillsLower) {
      suggestions := suggestions + ["a mobile app"];
    }
    assert t[2] == ProjectTemplate(MobileSkills, "a mobile app");
    assert suggestions == IdeaIf(skillsLower, t[0]) + IdeaIf(skillsLower, t[1]) + IdeaIf(skillsLower, t[2]);
    if AnyListed(CloudSkills, skillsLower) {
      suggestions := suggestions + ["a cloud-deployed application"];
    }
    assert t[3] == ProjectTemplate(CloudSkills, "a cloud-deployed application");
    assert suggestions == IdeaIf(skillsLower, t[0]) + IdeaIf(skillsLower, t[1]) + IdeaIf(skillsLower, t[2])
                          + IdeaIf(skillsLower, t[3]);
    if AnyListed(DatabaseSkills, skillsLower) {
      suggestions := suggestions + ["a database-driven application"];
    }
    assert t[4] == ProjectTemplate(DatabaseSkills, "a database-driven application");
    MatchedIdeasByTemplate(missingSkills);
    assert suggestions == MatchedIdeas(missingSkills);
    if suggestions != [] {
      r := Join(", ", Take(suggestions, 2));
    } else {
      r := FallbackProjectIdea;
    }
  }

  /** The project phrase is never empty, and it names at most two of the five ideas. */
  lemma ProjectIdeasNonEmpty(missingSkills: seq<string>)
    ensures ProjectIdeas(missingSkills) != ""
    ensures |Take(MatchedIdeas(missingSkills), 2)| <= 2
    ensures MatchedIdeas(missingSkills) == [] <==> ProjectIdeas(missingSkills) == FallbackProjectIdea
  {
    var ideas := MatchedIdeas(missingSkills);
    if ideas != [] {
      var shown := Take(ideas, 2);
      assert shown[0] == ideas[0];
      assert ideas[0] in Map(ProjectTemplates, IdeaOf) by {
        var kept := Filter(ProjectTemplates, MatchesSkills(Map(missingSkills, Lower)));
        FilterMember(ProjectTemplates, MatchesSkills(Map(missingSkills, Lower)), kept[0]);
      }
      JoinStartsWith(shown);
      assert ProjectIdeas(missingSkills) != FallbackProjectIdea by {
        if |shown| == 2 {
          assert shown[1] == ideas[1];
          assert ideas[1] in Map(ProjectTemplates, IdeaOf) by {
            var kept := Filter(ProjectTemplates, MatchesSkills(Map(missingSkills, Lower)));
            FilterMember(ProjectTemplates, MatchesSkills(Map(missingSkills, Lower)), kept[1]);
          }
        }
      }
    }
  }

  /** A join of non-empty parts is non-empty and starts with the first part. */
  lemma JoinStartsWith(parts: seq<string>)
    requires parts != [] && parts[0] != ""
    ensures Join(", ", parts) != "" && StartsWith(Join(", ", parts), parts[0])
  {
  }

  /** Whether the 'other' section mentions projects: `'project' in projects_section.lower()`. */
  predicate HasProjects(sections: map<Section, string>) {
    Contains(Lower(SectionText(sections, Other)), "project")
  }

  const StrengthenProjectsItem: Suggestion := Suggestion(
    "Strengthen Projects Section",
    "Projects demonstrate practical application of skills.",
    "Add 2-3 projects that align with the job requirements, highlighting technologies used and outcomes achieved.",
    None, Some("projects"))

  function AddProjectsItem(techMissing: seq<string>, ideas: string): Suggestion {
    Suggestion(
      "Add Relevant Projects",
      "Your resume would benefit from projects showcasing: " + Join(", ", Take(techMissing, 3)),
      "Consider adding projects like: " + ideas,
      Some(techMissing), Some("projects"))
  }

  function EnhanceProjectsItem(techMissing: seq<string>): Suggestion {
    Suggestion(
      "Enhance Project Descriptions",
      "Your projects don't highlight the required technical skills.",
      "Update project descriptions to emphasize: " + Join(", ", Take(techMissing, 5)),
      Some(techMissing), Some("projects"))
  }

  /** `_generate_project_suggestions`, branch for branch as written. */
  function ProjectSuggestions(sections: map<Section, string>, missing: MissingKeywords, scores: CategoryScores): seq<Suggestion> {
    var tech := missing.technicalSkills;
    if !HasProjects(sections) || scores.skillsMatch < 70.0 then
      if tech != [] then
        var ideas := ProjectIdeas(tech);
        if ideas != "" then [AddProjectsItem(tech, ideas)] else []
      else [StrengthenProjectsItem]
    else if HasProjects(sections) && scores.skillsMatch < 60.0 then
      [EnhanceProjectsItem(tech)]
    else []
  }

  /**
   * Exactly one project item unless the resume mentions projects and the
   * skills score is at least 70, in which case none.
   */
  lemma ProjectSuggestionsAtMostOne(sections: map<Section, string>, missing: MissingKeywords, scores: CategoryScores)
    ensures |ProjectSuggestions(sections, missing, scores)| <= 1
    ensures ProjectSuggestions(sections, missing, scores) == [] <==> HasProjects(sections) && scores.skillsMatch >= 70.0
  {
    if missing.technicalSkills != [] {
      ProjectIdeasNonEmpty(missing.technicalSkills);
    }
  }

  /**
   * The "Enhance Project Descriptions" branch can never run: reaching it needs
   * a skills score of at least 70 (first test false) and below 60.
   */
  lemma EnhanceProjectsUnreachable(sections: map<Section, string>, missing: MissingKeywords, scores: CategoryScores)
    ensures forall i :: 0 <= i < |ProjectSuggestions(sections, missing, scores)| ==>
              ProjectSuggestions(sections, missing, scores)[i].title != "Enhance Project Descriptions"
  {
    if missing.technicalSkills != [] {
      ProjectIdeasNonEmpty(missing.technicalSkills);
    }
  }

  // ---------------------------------------------------------------- formatting tips

  /** The sections `_generate_formatting_tips` checks, in order. */
  const EssentialSections: seq<Section> := [Experience, Education, Skills]

  function SectionName(s: Section): string {
    match s
    case Summary => "summary"
    case Experience => "experience"
    case Education => "education"
    case Skills => "skills"
    case Certifications => "certifications"
    case Other => "other"
  }

  /** Python's `str.title()` of a one-word lowercase section name. */
  function SectionTitle(s: Section): string {
    var name := SectionName(s);
    [UpperChar(name[0])] + name[1..]
  }

  /** A section counts as missing when it is absent or shorter than 20 characters. */
  predicate IsWeakSection(sections: map<Section, string>, s: Section) {
    |SectionText(sections, s)| < 20
  }

  function WeakIn(sections: map<Section, string>): Section -> bool {
    s => IsWeakSection(sections, s)
  }

  function AddSectionTip(s: Section): Suggestion {
    Suggestion(
      "Add " + SectionTitle(s) + " Section",
      "Your resume appears to be missing a clear " + SectionName(s) + " section.",
      "Create a dedicated " + SectionTitle(s) + " section with clear headers.",
      None, None)
  }

  /** The four general tips that always close the list. */
  const GeneralTips: seq<Suggestion> := [
    Suggestion("Use Standard Section Headers", "ATS systems look for standard section names.",
               "Use headers like \"Work Experience\", \"Education\", \"Skills\", \"Certifications\".", None, None),
    Suggestion("Avoid Graphics and Tables", "Complex formatting can confuse ATS parsers.",
               "Use simple bullet points and clear text formatting.", None, None),
    Suggestion("Use Standard Fonts", "Stick to ATS-friendly fonts.",
               "Use Arial, Calibri, or Times New Roman in 10-12pt size.", None, None),
    Suggestion("Include Contact Information", "Make it easy for recruiters to reach you.",
               "Put phone, email, and LinkedIn at the top of your resume.", None, None)
  ]

  /** `_generate_formatting_tips`: one tip per weak essential section, then the four general tips. */
  method FormattingTips(sections: map<Section, string>) returns (tips: seq<Suggestion>)
    ensures tips == FormattingTipsOf(sections)
  {
    tips := [];
    var k := 0;
    while k < |EssentialSections|
      invariant 0 <= k <= |EssentialSections|
      invariant tips == Map(Filter(EssentialSections[..k], WeakIn(sections)), AddSectionTip)
    {
      var s := EssentialSections[k];
      assert EssentialSections[..k + 1] == EssentialSections[..k] + [s];
      FilterSnoc(EssentialSections[..k], s, WeakIn(sections));
      if IsWeakSection(sections, s) {
        tips := tips + [AddSectionTip(s)];
      }
      k := k + 1;
    }
    assert EssentialSections[..k] == EssentialSections;
    tips := tips + GeneralTips;
  }

  /** The tips of `_generate_formatting_tips`, stated on the section table. */
  function FormattingTipsOf(sections: map<Section, string>): seq<Suggestion> {
    Map(Filter(EssentialSections, WeakIn(sections)), AddSectionTip) + GeneralTips
  }

  /** Different sections get different tips: their names, hence their titles, differ in length. */
  lemma AddSectionTipInjective(a: Section, b: Section)
    requires AddSectionTip(a) == AddSectionTip(b)
    ensures a == b
  {
    assert |AddSectionTip(a).title| == 12 + |SectionName(a)|;
    assert |AddSectionTip(b).title| == 12 + |SectionName(b)|;
  }

  /** Between four and seven tips, the last four always the general ones. */
  lemma FormattingTipsCount(sections: map<Section, string>)
    ensures 4 <= |FormattingTipsOf(sections)| <= 7
    ensures FormattingTipsOf(sections)[|FormattingTipsOf(sections)| - 4..] == GeneralTips
  {
  }

  /**
   * The "Add ... Section" tips, which precede the general ones, include the
   * tip of an essential section exactly when that section is weak.
   */
  lemma FormattingTipForSection(sections: map<Section, string>, s: Section)
    requires s in EssentialSections
    ensures var n := |FormattingTipsOf(sections)| - |GeneralTips|;
            AddSectionTip(s) in FormattingTipsOf(sections)[..n] <==> IsWeakSection(sections, s)
  {
    var kept := Filter(EssentialSections, WeakIn(sections));
    var shown := Map(kept, AddSectionTip);
    assert FormattingTipsOf(sections)[..|shown|] == shown;
    FilterMember(EssentialSections, WeakIn(sections), s);
    if AddSectionTip(s) in shown {
      var i :| 0 <= i < |shown| && shown[i] == AddSectionTip(s);
      AddSectionTipInjective(kept[i], s);
      FilterMember(EssentialSections, WeakIn(sections), kept[i]);
    }
    if IsWeakSection(sections, s) {
      var j :| 0 <= j < |kept| && kept[j] == s;
      assert shown[j] == AddSectionTip(s);
    }
  }

  // ---------------------------------------------------------------- summary and top actions

  /** The top actions: the first two critical, then the first two important, then recommended, at most three. */
  function TopActionsOf(critical: seq<Suggestion>, important: seq<Suggestion>, recommended: seq<Suggestion>): (r: seq<string>)
    ensures |r| <= 3
  {
    Take(Map(Take(critical, 2), ActionOf) + Map(Take(important, 2), ActionOf) + Map(recommended, ActionOf), 3)
  }

  /** At most three. */
  function Cap3(n: nat): nat {
    if n < 3 then n else 3
  }

  /** `_get_top_actions`: three loops, each appending while fewer than three actions are chosen. */
  method TopActions(critical: seq<Suggestion>, important: seq<Suggestion>, recommended: seq<Suggestion>)
    returns (actions: seq<string>)
    ensures actions == TopActionsOf(critical, important, recommended)
  {
    ghost var crit := Map(Take(critical, 2), ActionOf);
    ghost var imp := Map(Take(important, 2), ActionOf);
    ghost var rec := Map(recommended, ActionOf);
    actions := [];
    var firstCritical := Take(critical, 2);
    for i := 0 to |firstCritical|
      invariant actions == crit[..i]
    {
      actions := actions + [firstCritical[i].action];
      assert crit[..i + 1] == crit[..i] + [crit[i]];
    }
    assert actions == crit;
    actions := AppendWhileShort(actions, Take(important, 2));
    actions := AppendWhileShort(actions, recommended);
    TakeOfTake(crit + imp, rec, 3);
    actions := Take(actions, 3);
  }

  /** One of the capped loops of `_get_top_actions`: append each action while fewer than three are chosen. */
  method AppendWhileShort(start: seq<string>, items: seq<Suggestion>) returns (actions: seq<string>)
    requires |start| <= 3
    ensures actions == Take(start + Map(items, ActionOf), 3)
  {
    ghost var all := start + Map(items, ActionOf);
    actions := start;
    assert actions == all[..Cap3(|start|)];
    for k := 0 to |items|
      invariant actions == all[..Cap3(|start| + k)]
    {
      if |actions| < 3 {
        assert all[|start| + k] == items[k].action;
        actions := actions + [items[k].action];
        assert all[..|start| + k + 1] == all[..|start| + k] + [all[|start| + k]];
      }
    }
  }

  /**
   * Critical actions come first: the top actions start with the first one or
   * two critical actions, and their number is the capped total on offer.
   */
  lemma TopActionsCriticalFirst(critical: seq<Suggestion>, important: seq<Suggestion>, recommended: seq<Suggestion>)
    ensures var r := TopActionsOf(critical, important, recommended);
            |r| == Cap3(|Take(critical, 2)| + |Take(important, 2)| + |recommended|)
            && r[..|Take(critical, 2)|] == Map(Take(critical, 2), ActionOf)
  {
    var crit := Map(Take(critical, 2), ActionOf);
    var all := crit + Map(Take(important, 2), ActionOf) + Map(recommended, ActionOf);
    assert TopActionsOf(critical, important, recommended) == Take(all, 3);
    assert Take(all, 3)[..|crit|] == all[..|crit|];
  }

  /** The summary message bands: at least 80, at least 60, otherwise. */
  function SummaryBand(score: real): (band: (string, string))
    ensures score >= 80.0 ==> band.1 == "low"
    ensures 60.0 <= score < 80.0 ==> band.1 == "medium"
    ensures score < 60.0 ==> band.1 == "high"
  {
    if score >= 80.0 then
      ("Your resume is well-optimized for ATS! Just a few minor tweaks recommended.", "low")
    else if score >= 60.0 then
      ("Your resume is good but has room for improvement. Focus on the important suggestions.", "medium")
    else
      ("Your resume needs significant optimization to pass ATS screening. Address critical issues first.", "high")
  }

  /** The number of missing keywords over all five categories. */
  function TotalMissing(missing: MissingKeywords): nat {
    |missing.technicalSkills| + |missing.softSkills| + |missing.education| + |missing.certifications| + |missing.other|
  }

  /** The summary record `_generate_summary` builds from the score, the gaps and the three lists. */
  function SummaryOf(score: real, missing: MissingKeywords, critical: seq<Suggestion>,
                     important: seq<Suggestion>, recommended: seq<Suggestion>): SummaryReport
  {
    var band := SummaryBand(score);
    SummaryReport(band.0, band.1, TotalMissing(missing), |critical|, |important|,
                  TopActionsOf(critical, important, recommended))
  }

  /** `_generate_summary`. */
  method GenerateSummary(score: real, missing: MissingKeywords, critical: seq<Suggestion>,
                         important: seq<Suggestion>, recommended: seq<Suggestion>) returns (summary: SummaryReport)
    ensures summary.totalMissingKeywords == TotalMissing(missing)
    ensures summary.criticalIssues == |critical| && summary.importantIssues == |important|
    ensures (summary.message, summary.priority) == SummaryBand(score)
    ensures summary.topActions == TopActionsOf(critical, important, recommended)
    ensures summary == SummaryOf(score, missing, critical, important, recommended)
  {
    var band := SummaryBand(score);
    var actions := TopActions(critical, important, recommended);
    summary := SummaryReport(band.0, band.1, TotalMissing(missing), |critical|, |important|, actions);
  }

  /** The critical-suggestion block of `generate_suggestions`. */
  method CriticalSuggestions(overallScore: real, scores: CategoryScores, missing: MissingKeywords)
    returns (critical: seq<Suggestion>)
    ensures critical == CriticalItems(overallScore, scores, missing)
  {
    critical := [];
    if overallScore < 40.0 {
      critical := critical + [LowScoreItem];
    }
    if scores.skillsMatch < 60.0 {
      var techMissing := missing.technicalSkills;
      if techMissing != [] {
        critical := critical + [MissingTechItem(techMissing)];
      }
    }
  }

  /** The experience, education and keyword-density blocks of `generate_suggestions`. */
  method ImportantSuggestions(scores: CategoryScores, missing: MissingKeywords) returns (important: seq<Suggestion>)
    ensures important == ImportantItems(scores, missing)
  {
    important := [];
    if scores.experienceMatch < 60.0 {
      important := important + [ExperienceItem];
    }
    if scores.educationMatch < 50.0 {
      var eduMissing := missing.education;
      if eduMissing != [] {
        important := important + [EducationItem(eduMissing)];
      }
    }
    if scores.keywordDensity < 50.0 {
      important := important + [KeywordDensityItem];
    }
  }

  /** The soft-skill, certification and project blocks of `generate_suggestions`. */
  method RecommendedSuggestions(missing: MissingKeywords, scores: CategoryScores, sections: map<Section, string>)
    returns (recommended: seq<Suggestion>)
    ensures recommended == RecommendedItems(missing, scores, sections)
  {
    ghost var soft := if missing.softSkills != [] then [SoftSkillsItem(missing.softSkills)] else [];
    ghost var cert := if missing.certifications != [] then [CertificationsItem(missing.certifications)] else [];
    recommended := [];
    var softMissing := missing.softSkills;
    if softMissing != [] {
      recommended := recommended + [SoftSkillsItem(softMissing)];
    }
    assert recommended == soft;
    var certMissing := missing.certifications;
    if certMissing != [] {
      recommended := recommended + [CertificationsItem(certMissing)];
    }
    assert recommended == soft + cert;
    var projects := ProjectSuggestions(sections, missing, scores);
    if projects != [] {
      recommended := recommended + projects;
    }
    assert recommended == soft + cert + projects;
  }

  /** `generate_suggestions`: the three lists filled rule by rule, then the tips and the summary. */
  method GenerateSuggestions(missing: MissingKeywords, overallScore: real, scores: CategoryScores,
                             sections: map<Section, string>) returns (s: Suggestions)
    ensures s.critical == CriticalItems(overallScore, scores, missing)
    ensures s.important == ImportantItems(scores, missing)
    ensures s.recommended == RecommendedItems(missing, scores, sections)
    ensures s.formatting == FormattingTipsOf(sections)
    ensures s.summary.totalMissingKeywords == TotalMissing(missing)
    ensures s.summary.criticalIssues == |s.critical| <= 2 && s.summary.importantIssues == |s.important| <= 3
    ensures (s.summary.message, s.summary.priority) == SummaryBand(overallScore)
    ensures s.summary.topActions == TopActionsOf(s.critical, s.important, s.recommended)
    ensures s.summary == SummaryOf(overallScore, missing, s.critical, s.important, s.recommended)
  {
    var critical := CriticalSuggestions(overallScore, scores, missing);
    var important := ImportantSuggestions(scores, missing);
    var recommended := RecommendedSuggestions(missing, scores, sections);
    CriticalItemsRules(overallScore, scores, missing);
    ImportantItemsRules(scores, missing);
    var formatting := FormattingTips(sections);
    var summary := GenerateSummary(overallScore, missing, critical, important, recommended);
    s := Suggestions(critical, important, recommended, formatting, summary);
  }

  /** With the three essential sections empty, all three "Add ... Section" tips appear: seven tips in all. */
  lemma EmptySectionsGetAllTips(sections: map<Section, string>)
    requires forall s :: s in sections && s != Other ==> sections[s] == ""
    ensures FormattingTipsOf(sections)
            == [AddSectionTip(Experience), AddSectionTip(Education), AddSectionTip(Skills)] + GeneralTips
  {
    var e := EssentialSections;
    assert forall i :: 0 <= i < |e| ==> e[i] != Other;
    assert forall i :: 0 <= i < |e| ==> WeakIn(sections)(e[i]);
    FilterKeepsAll(e, WeakIn(sections));
    var tips := Map(e, AddSectionTip);
    assert tips[0] == AddSectionTip(Experience) && tips[1] == AddSectionTip(Education) && tips[2] == AddSectionTip(Skills);
    assert tips == [AddSectionTip(Experience), AddSectionTip(Education), AddSectionTip(Skills)];
  }

  /**
   * A parsed resume has no experience, education or skills text, so it always
   * gets all three "Add ... Section" tips.
   */
  lemma ParsedResumeGetsAllSectionTips(filePath: string, extraction: Extraction, email: string -> Option<string>,
                                       phone: string -> Option<string>, linkedin: string -> Option<string>)
    requires ParseResume(filePath, extraction, email, phone, linkedin).Success?
    ensures FormattingTipsOf(ParseResume(filePath, extraction, email, phone, linkedin).value.sections)
            == [AddSectionTip(Experience), AddSectionTip(Education), AddSectionTip(Skills)] + GeneralTips
  {
    ParsedSectionsEmpty(filePath, extraction, email, phone, linkedin);
    EmptySectionsGetAllTips(ParseResume(filePath, extraction, email, phone, linkedin).value.sections);
  }
}
