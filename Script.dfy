/**
 * The plain JavaScript front end (backend/script.js): its two module-level
 * variables `selectedFile` and `analysisResults` and the analyze button's
 * disabled flag, the handlers that update them, which AI suggestion
 * sections it renders, and the text report `exportResults` builds.
 *
 * The upload checks, the guard, the merged suggestion list, the keyword
 * tags and the colour bands are the same rules as the React page's and are
 * taken from the ResumeChecker module. JavaScript's printing of a score
 * (`${value}`) is the parameter `show`, the report's time stamp the
 * parameter `generated`.
 */
module Script {
  import opened Wrappers
  import opened Text
  import opened Seqs
  import opened KeywordExtractor
  import opened AtsScorer
  import opened SuggestionsGenerator
  import opened LlmSuggestionGenerator
  import opened Api
  import opened ResumeChecker

  // ---------------------------------------------------------------- page state

  class Page {
    var selectedFile: Option<UploadFile>
    var jobDescription: string
    var analyzeDisabled: bool
    var analysisResults: Option<Analysis>
    var error: Option<string>

    /** The button is disabled exactly when the form is not valid. */
    predicate Valid()
      reads this
    {
      analyzeDisabled == !FormValid(selectedFile, jobDescription)
    }

    /** The page as loaded: nothing chosen, an empty description, the button disabled. */
    constructor ()
      ensures Valid() && analyzeDisabled
      ensures selectedFile == None && jobDescription == "" && analysisResults == None && error == None
    {
      selectedFile := None;
      jobDescription := "";
      analyzeDisabled := true;
      analysisResults := None;
      error := None;
    }

    /** `checkFormValidity`. */
    method CheckFormValidity()
      modifies this
      ensures Valid()
      ensures selectedFile == old(selectedFile) && jobDescription == old(jobDescription)
      ensures analysisResults == old(analysisResults) && error == old(error)
    {
      var isValid := selectedFile.Some? && JsLength(JsTrim(jobDescription)) > 50;
      analyzeDisabled := !isValid;
    }

    /** `handleFile`: only a file that passes both checks becomes `selectedFile`. */
    method HandleFile(file: UploadFile)
      requires Valid()
      modifies this
      ensures Valid()
      ensures UploadError(file).Some? ==> selectedFile == old(selectedFile) && error == UploadError(file)
      ensures UploadError(file).None? ==> selectedFile == Some(file) && error == old(error)
      ensures jobDescription == old(jobDescription) && analysisResults == old(analysisResults)
    {
      var problem := UploadError(file);
      if problem.Some? {
        error := problem;
        return;
      }
      selectedFile := Some(file);
      CheckFormValidity();
    }

    /** `removeFile`: forget the file, which disables the button. */
    method RemoveFile()
      modifies this
      ensures Valid() && selectedFile == None && analyzeDisabled
      ensures jobDescription == old(jobDescription) && analysisResults == old(analysisResults) && error == old(error)
    {
      selectedFile := None;
      CheckFormValidity();
    }

    /** The description's `input` event. */
    method InputDescription(text: string)
      modifies this
      ensures Valid() && jobDescription == text
      ensures selectedFile == old(selectedFile) && analysisResults == old(analysisResults) && error == old(error)
    {
      jobDescription := text;
      CheckFormValidity();
    }

    /** `analyzeResume` up to the request: the same guard as the React page. */
    method StartAnalysis() returns (sent: Option<(UploadFile, string)>)
      modifies this
      ensures AnalyzeGuard(old(selectedFile), old(jobDescription)).Some? ==>
        sent == None && error == AnalyzeGuard(old(selectedFile), old(jobDescription))
      ensures AnalyzeGuard(old(selectedFile), old(jobDescription)).None? ==>
        sent == Some((old(selectedFile).value, old(jobDescription))) && error == old(error)
      ensures selectedFile == old(selectedFile) && jobDescription == old(jobDescription)
      ensures analyzeDisabled == old(analyzeDisabled) && analysisResults == old(analysisResults)
    {
      var problem := AnalyzeGuard(selectedFile, jobDescription);
      if problem.Some? {
        error := problem;
        sent := None;
        return;
      }
      sent := Some((selectedFile.value, jobDescription));
    }

    /** The rest of `analyzeResume`: keep the analysis of a 200 answer, show the error of any other. */
    method FinishAnalysis(resp: Response)
      modifies this
      ensures StatusCode(resp) == 200 ==> analysisResults == Some(ResponseOutcome(resp).value) && error == old(error)
      ensures StatusCode(resp) != 200 ==> analysisResults == old(analysisResults) && error == Some(ResponseOutcome(resp).error)
      ensures selectedFile == old(selectedFile) && jobDescription == old(jobDescription)
      ensures analyzeDisabled == old(analyzeDisabled)
    {
      var outcome := ResponseOutcome(resp);
      if outcome.Success? {
        analysisResults := Some(outcome.value);
      } else {
        error := Some(outcome.error);
      }
    }

    /** `exportResults`: nothing before an analysis, its report after one. */
    method ExportResults(generated: string, show: real -> string) returns (report: Option<string>)
      ensures analysisResults.None? ==> report == None
      ensures analysisResults.Some? ==> report == Some(ReportOf(analysisResults.value, generated, show))
    {
      if analysisResults.None? {
        return None;
      }
      var text := BuildReport(analysisResults.value, generated, show);
      report := Some(text);
    }
  }

  // ---------------------------------------------------------------- AI suggestions

  /**
   * `key.replace('_', ' ').replace(/\b\w/g, upper)`: the first underscore
   * becomes a space, then every word character that starts a word is
   * upper-cased.
   */
  function CategoryTitle(key: string): (r: string)
    ensures |r| == |ReplaceFirst(key, '_', " ")|
  {
    WordStartsUpper(ReplaceFirst(key, '_', " "))
  }

  /** `s.replace(/\b\w/g, upper)`: each word character with no word character before it is upper-cased. */
  function WordStartsUpper(s: string): (r: string)
    ensures |r| == |s|
  {
    seq(|s|, i requires 0 <= i < |s| =>
      if IsWordChar(s[i]) && (i == 0 || !IsWordChar(s[i - 1])) then UpperChar(s[i]) else s[i])
  }

  /** Replacing the first underscore of a two-part key joins the parts with a space. */
  lemma ReplaceFirstSplit(first: string, rest: string)
    requires '_' !in first
    ensures ReplaceFirst(first + "_" + rest, '_', " ") == first + " " + rest
  {
    var s := first + "_" + rest;
    assert s[|first|] == '_';
    var k := FirstIndex(s, '_');
    assert s[..k] == first && s[k + 1..] == rest;
  }

  predicate LowerWord(w: string) {
    w != [] && forall i :: 0 <= i < |w| ==> IsLowerLetter(w[i])
  }

  /** A one-word key is capitalised. */
  lemma OneWordTitle(w: string)
    requires LowerWord(w)
    ensures CategoryTitle(w) == [UpperChar(w[0])] + w[1..]
  {
    assert '_' !in w by {
      forall i | 0 <= i < |w| ensures w[i] != '_' {
        assert IsLowerLetter(w[i]);
      }
    }
  }

  /** A two-word key `a_b` reads `A B`: both words capitalised, joined by a space. */
  lemma TwoWordTitle(first: string, rest: string)
    requires LowerWord(first) && LowerWord(rest)
    ensures CategoryTitle(first + "_" + rest) == [UpperChar(first[0])] + first[1..] + " " + [UpperChar(rest[0])] + rest[1..]
  {
    assert '_' !in first by {
      forall i | 0 <= i < |first| ensures first[i] != '_' {
        assert IsLowerLetter(first[i]);
      }
    }
    ReplaceFirstSplit(first, rest);
    TwoWordsUpper(first, rest);
  }

  /** Upper-casing word starts in `a b` capitalises both words. */
  lemma TwoWordsUpper(first: string, rest: string)
    requires LowerWord(first) && LowerWord(rest)
    ensures WordStartsUpper(first + " " + rest) == [UpperChar(first[0])] + first[1..] + " " + [UpperChar(rest[0])] + rest[1..]
  {
    var s := first + " " + rest;
    var r := WordStartsUpper(s);
    var expected := [UpperChar(first[0])] + first[1..] + " " + [UpperChar(rest[0])] + rest[1..];
    forall i | 0 <= i < |r| ensures r[i] == expected[i] {
      if i < |first| {
        assert s[i] == first[i];
        if 0 < i {
          assert s[i - 1] == first[i - 1];
        }
      } else if i == |first| {
      } else {
        assert s[i] == rest[i - |first| - 1];
        if i > |first| + 1 {
          assert s[i - 1] == rest[i - |first| - 2];
        }
      }
    }
  }

  /** Every keyword of the keyword groups, group by group. */
  function GroupedItems(groups: seq<KeywordGroup>): (r: seq<string>)
    ensures groups == [] ==> r == []
  {
    if groups == [] then [] else groups[0].items + GroupedItems(groups[1..])
  }

  /** The `section_specific` entries with advice, one section each, titled from their key. */
  function SpecificSections(groups: seq<KeywordGroup>): (r: seq<LlmSection>)
    ensures forall x :: x in r ==> x.items != [] && x.kind.SectionSpecificSection?
  {
    if groups == [] then []
    else SectionIf(groups[0].items != [], SectionSpecificSection(CategoryTitle(groups[0].category)), groups[0].items) +
         SpecificSections(groups[1..])
  }

  // ---------------------------------------------------------------- key order on the wire

  /**
   * Flask's `jsonify` writes every dictionary with its keys sorted (its
   * default `sort_keys`), and the page's `Object.entries` visits the parsed
   * object in that order, whatever order the server built it in.
   */
  function WireOrder(groups: seq<KeywordGroup>): seq<KeywordGroup> {
    SortByName(groups, GroupKey)
  }

  function GroupKey(g: KeywordGroup): string {
    g.category
  }

  function EntryKey<T>(e: (string, T)): string {
    e.0
  }

  /** An optional entry placed before entries with greater keys keeps the keys strictly increasing. */
  lemma GroupIfBefore(category: string, items: seq<string>, rest: seq<KeywordGroup>)
    requires StrictlySortedByName(rest, GroupKey)
    requires forall g :: g in rest ==> LexLe(category, g.category) && category != g.category
    ensures StrictlySortedByName(GroupIf(category, items) + rest, GroupKey)
    ensures forall g :: g in GroupIf(category, items) + rest ==> g.category == category || g in rest
  {
    var r := GroupIf(category, items) + rest;
    if items != [] {
      forall i, j | 0 <= i < j < |r|
        ensures LexLe(GroupKey(r[i]), GroupKey(r[j])) && GroupKey(r[i]) != GroupKey(r[j])
      {
        assert r[j] == rest[j - 1] && r[j] in rest;
        if i > 0 {
          assert r[i] == rest[i - 1];
        }
      }
    } else {
      assert r == rest;
    }
  }

  /**
   * The keyword lists reach the page in key order: certifications,
   * education, soft skills, technical skills, each only when present.
   */
  lemma KeywordGroupsOnTheWire(missing: MissingKeywords)
    ensures WireOrder(MissingKeywordsListOf(missing))
         == GroupIf("certifications", Take(missing.certifications, 5))
          + (GroupIf("education", Take(missing.education, 3))
          + (GroupIf("soft_skills", Take(missing.softSkills, 5))
          + GroupIf("technical_skills", Take(missing.technicalSkills, 10))))
  {
    var t := GroupIf("technical_skills", Take(missing.technicalSkills, 10));
    var st := GroupIf("soft_skills", Take(missing.softSkills, 5)) + t;
    var est := GroupIf("education", Take(missing.education, 3)) + st;
    var cest := GroupIf("certifications", Take(missing.certifications, 5)) + est;
    GroupIfBefore("technical_skills", Take(missing.technicalSkills, 10), []);
    assert t == GroupIf("technical_skills", Take(missing.technicalSkills, 10)) + [];
    GroupIfBefore("soft_skills", Take(missing.softSkills, 5), t);
    GroupIfBefore("education", Take(missing.education, 3), st);
    GroupIfBefore("certifications", Take(missing.certifications, 5), est);
    SortKeepsStrictlySorted(MissingKeywordsListOf(missing), cest, GroupKey);
  }

  /**
   * The section advice reaches the page in key order: certifications, soft
   * skills, technical skills, each only when present.
   */
  lemma SectionAdviceOnTheWire(missing: MissingKeywords)
    ensures WireOrder(SectionSpecific(missing))
         == GroupIf("certifications", Map(Take(missing.certifications, 3), ObtainLine))
          + (GroupIf("soft_skills", Map(Take(missing.softSkills, 3), DemonstrateLine))
          + GroupIf("technical_skills", Map(Take(missing.technicalSkills, 5), AddSkillLine)))
  {
    var t := GroupIf("technical_skills", Map(Take(missing.technicalSkills, 5), AddSkillLine));
    var st := GroupIf("soft_skills", Map(Take(missing.softSkills, 3), DemonstrateLine)) + t;
    var cst := GroupIf("certifications", Map(Take(missing.certifications, 3), ObtainLine)) + st;
    GroupIfBefore("technical_skills", Map(Take(missing.technicalSkills, 5), AddSkillLine), []);
    assert t == GroupIf("technical_skills", Map(Take(missing.technicalSkills, 5), AddSkillLine)) + [];
    GroupIfBefore("soft_skills", Map(Take(missing.softSkills, 3), DemonstrateLine), t);
    GroupIfBefore("certifications", Map(Take(missing.certifications, 3), ObtainLine), st);
    SortKeepsStrictlySorted(SectionSpecific(missing), cst, GroupKey);
  }

  /** No section comes from the advice exactly when every group of it is empty. */
  lemma {:induction false} SpecificSectionsEmptyIff(groups: seq<KeywordGroup>)
    ensures SpecificSections(groups) == [] <==> forall g :: g in groups ==> g.items == []
    decreases |groups|
  {
    if groups != [] {
      SpecificSectionsEmptyIff(groups[1..]);
      assert groups == [groups[0]] + groups[1..];
    }
  }

  /**
   * `displayLLMSuggestions`: the keyword list, skills to add, a summary that
   * is not blank, bullets, skills sentences, the older summary text only
   * when there is no summary, then the per-category advice; the keyword
   * groups and the advice come in the order the page receives them.
   */
  function PageSections(s: LlmSuggestions): seq<LlmSection> {
    if s.Fallback? then []
    else
      SectionIf(s.missingKeywordsList != [], KeywordsList, GroupedItems(WireOrder(s.missingKeywordsList))) +
      SectionIf(s.skillsToAdd != [], SkillsToAddSection, s.skillsToAdd) +
      SectionIf(JsTrim(s.professionalSummary) != "", ProfessionalSummarySection, [s.professionalSummary]) +
      SectionIf(s.experienceBullets != [], ExperienceBulletsSection, s.experienceBullets) +
      SectionIf(s.skillsIntegration != [], SkillsIntegrationSection, s.skillsIntegration) +
      SectionIf(JsTrim(s.summaryEnhancement) != "" && s.professionalSummary == "",
                SummaryEnhancementSection, [s.summaryEnhancement]) +
      SpecificSections(WireOrder(s.sectionSpecific))
  }

  /**
   * The older summary text appears only when there is no summary, so the two
   * summaries never appear together; and project ideas are not shown here.
   */
  lemma SummaryEnhancementOnlyWithoutSummary(s: LlmSuggestions)
    ensures forall x :: x in PageSections(s) && x.kind == SummaryEnhancementSection ==> s.professionalSummary == ""
    ensures forall x :: x in PageSections(s) ==> x.kind != ProjectIdeasSection
    ensures !((exists x :: x in PageSections(s) && x.kind == SummaryEnhancementSection) &&
              (exists x :: x in PageSections(s) && x.kind == ProfessionalSummarySection))
  {
    if s.Generated? {
      var a := SectionIf(s.missingKeywordsList != [], KeywordsList, GroupedItems(WireOrder(s.missingKeywordsList)));
      var b := SectionIf(s.skillsToAdd != [], SkillsToAddSection, s.skillsToAdd);
      var c := SectionIf(JsTrim(s.professionalSummary) != "", ProfessionalSummarySection, [s.professionalSummary]);
      var d := SectionIf(s.experienceBullets != [], ExperienceBulletsSection, s.experienceBullets);
      var e := SectionIf(s.skillsIntegration != [], SkillsIntegrationSection, s.skillsIntegration);
      var f := SectionIf(JsTrim(s.summaryEnhancement) != "" && s.professionalSummary == "",
                         SummaryEnhancementSection, [s.summaryEnhancement]);
      var g := SpecificSections(WireOrder(s.sectionSpecific));
      assert PageSections(s) == a + b + c + d + e + f + g;
      forall x | x in PageSections(s)
        ensures x.kind != ProjectIdeasSection
        ensures x.kind == SummaryEnhancementSection ==> x in f
        ensures x.kind == ProfessionalSummarySection ==> x in c
      {
        assert x in a || x in b || x in c || x in d || x in e || x in f || x in g;
      }
      if f != [] {
        assert JsTrim("") == "";
        assert c == [];
      }
    }
  }

  /**
   * The "being generated" message: the card has no section, which for a
   * real answer means every list is empty and both summaries are blank.
   */
  lemma PendingMessageIff(s: LlmSuggestions)
    requires s.Generated?
    ensures PageSections(s) == [] <==>
      s.missingKeywordsList == [] && s.skillsToAdd == [] && JsTrim(s.professionalSummary) == "" &&
      s.experienceBullets == [] && s.skillsIntegration == [] &&
      !(JsTrim(s.summaryEnhancement) != "" && s.professionalSummary == "") &&
      forall g :: g in s.sectionSpecific ==> g.items == []
  {
    SortByNameFacts(s.sectionSpecific, GroupKey);
    SpecificSectionsEmptyIff(WireOrder(s.sectionSpecific));
    assert forall g :: g in WireOrder(s.sectionSpecific) <==> g in s.sectionSpecific by {
      forall g ensures g in WireOrder(s.sectionSpecific) <==> g in s.sectionSpecific {
        assert g in WireOrder(s.sectionSpecific) <==> g in multiset(WireOrder(s.sectionSpecific));
        assert g in s.sectionSpecific <==> g in multiset(s.sectionSpecific);
      }
    }
  }

  /** The sections `displayLLMSuggestions` builds for the server's field: an empty object has none. */
  function FieldPageSections(field: LlmField): seq<LlmSection> {
    if field.LlmProduced? then PageSections(field.suggestions) else []
  }

  /**
   * The gate before `displayLLMSuggestions` is the React page's gate: the
   * card is filled exactly when the generator is switched off, or it did not
   * raise and the local service answered.
   */
  lemma PageCardShownIff(enabled: bool, raised: bool, generated: LlmSuggestions)
    ensures LlmCardShown(LlmFieldOf(enabled, raised, generated)) <==> !enabled || (!raised && generated.Generated?)
    ensures LlmCardShown(LlmFieldOf(enabled, raised, generated)) && !enabled ==>
      FieldPageSections(LlmFieldOf(enabled, raised, generated)) == []
    ensures LlmCardShown(LlmFieldOf(enabled, raised, generated)) && enabled ==>
      FieldPageSections(LlmFieldOf(enabled, raised, generated)) == PageSections(generated)
  {
    LlmCardShownIff(enabled, raised, generated);
  }

  /**
   * With the generator switched off the server sends `{}`: the card appears
   * and, holding no section, shows the "being generated" message.
   */
  lemma DisabledGeneratorShowsPending(raised: bool, generated: LlmSuggestions)
    ensures LlmCardShown(LlmFieldOf(false, raised, generated))
    ensures FieldPageSections(LlmFieldOf(false, raised, generated)) == []
  {
  }

  // ---------------------------------------------------------------- the exported report

  const ReportTitle := "=== ATS RESUME ANALYSIS REPORT ===\n\n"
  const BreakdownHeading := "--- CATEGORY BREAKDOWN ---\n"
  const MissingHeading := "\n--- MISSING KEYWORDS ---\n"
  const ActionsHeading := "\n--- TOP SUGGESTIONS ---\n"

  /** `score.category_scores` in the order `calculate_score` builds it. */
  function BuiltScoreEntries(c: CategoryScores): seq<(string, real)> {
    [("skills_match", c.skillsMatch), ("experience_match", c.experienceMatch),
     ("education_match", c.educationMatch), ("keyword_density", c.keywordDensity)]
  }

  /** `score.category_scores` as the page reads it: `jsonify` sorts the keys. */
  function ScoreEntries(c: CategoryScores): seq<(string, real)> {
    SortByName(BuiltScoreEntries(c), EntryKey)
  }

  /** `keywords.missing` in the order `find_missing_keywords` builds it. */
  function BuiltMissingEntries(m: MissingKeywords): seq<(string, seq<string>)> {
    [("technical_skills", m.technicalSkills), ("soft_skills", m.softSkills),
     ("education", m.education), ("certifications", m.certifications), ("other", m.other)]
  }

  /** `keywords.missing` as the page reads it: `jsonify` sorts the keys. */
  function MissingEntries(m: MissingKeywords): seq<(string, seq<string>)> {
    SortByName(BuiltMissingEntries(m), EntryKey)
  }

  /** The breakdown reads education, experience, keyword density, then skills. */
  lemma ScoreEntriesOrder(c: CategoryScores)
    ensures ScoreEntries(c)
         == [("education_match", c.educationMatch), ("experience_match", c.experienceMatch),
             ("keyword_density", c.keywordDensity), ("skills_match", c.skillsMatch)]
  {
    var sk, ex, ed, kd := ("skills_match", c.skillsMatch), ("experience_match", c.experienceMatch),
                          ("education_match", c.educationMatch), ("keyword_density", c.keywordDensity);
    assert BuiltScoreEntries(c) == [sk, ex, ed, kd];
    assert InsertByName(ed, [kd], EntryKey) == [ed, kd];
    assert SortByName([ed, kd], EntryKey) == [ed, kd] by {
      assert [ed, kd][1..] == [kd] && SortByName([kd], EntryKey) == [kd];
    }
    assert LexLe("experience_match", "keyword_density") && !LexLe("xperience_match", "ducation_match");
    assert InsertByName(ex, [ed, kd], EntryKey) == [ed, ex, kd] by {
      assert [ed, kd][1..] == [kd];
    }
    assert SortByName([ex, ed, kd], EntryKey) == [ed, ex, kd] by {
      assert [ex, ed, kd][1..] == [ed, kd];
    }
    assert InsertByName(sk, [kd], EntryKey) == [kd, sk] by {
      assert [kd][1..] == [];
    }
    assert InsertByName(sk, [ex, kd], EntryKey) == [ex, kd, sk] by {
      assert [ex, kd][1..] == [kd];
    }
    assert InsertByName(sk, [ed, ex, kd], EntryKey) == [ed, ex, kd, sk] by {
      assert [ed, ex, kd][1..] == [ex, kd];
    }
    assert [sk, ex, ed, kd][1..] == [ex, ed, kd];
  }

  /** The missing blocks read certifications, education, other, soft skills, then technical skills. */
  lemma MissingEntriesOrder(m: MissingKeywords)
    ensures MissingEntries(m)
         == [("certifications", m.certifications), ("education", m.education), ("other", m.other),
             ("soft_skills", m.softSkills), ("technical_skills", m.technicalSkills)]
  {
    var t, s, e, c, o := ("technical_skills", m.technicalSkills), ("soft_skills", m.softSkills),
                         ("education", m.education), ("certifications", m.certifications), ("other", m.other);
    assert BuiltMissingEntries(m) == [t, s, e, c, o];
    assert SortByName([c, o], EntryKey) == [c, o] by {
      assert [c, o][1..] == [o] && SortByName([o], EntryKey) == [o];
    }
    assert SortByName([e, c, o], EntryKey) == [c, e, o] by {
      assert [e, c, o][1..] == [c, o] && [c, o][1..] == [o];
      assert InsertByName(e, [o], EntryKey) == [e, o];
      assert InsertByName(e, [c, o], EntryKey) == [c, e, o];
    }
    assert SortByName([s, e, c, o], EntryKey) == [c, e, o, s] by {
      assert [s, e, c, o][1..] == [e, c, o];
      assert [c, e, o][1..] == [e, o] && [e, o][1..] == [o] && [o][1..] == [];
      assert InsertByName(s, [o], EntryKey) == [o, s];
      assert InsertByName(s, [e, o], EntryKey) == [e, o, s];
    }
    assert SortByName([t, s, e, c, o], EntryKey) == [c, e, o, s, t] by {
      assert [t, s, e, c, o][1..] == [s, e, c, o];
      assert [c, e, o, s][1..] == [e, o, s] && [e, o, s][1..] == [o, s] && [o, s][1..] == [s] && [s][1..] == [];
      assert InsertByName(t, [s], EntryKey) == [s, t];
      assert InsertByName(t, [o, s], EntryKey) == [o, s, t];
      assert InsertByName(t, [e, o, s], EntryKey) == [e, o, s, t];
    }
  }

  /** One breakdown line: the key with its first underscore made a space, upper-cased. */
  function ScoreLine(key: string, value: real, show: real -> string): string {
    Upper(ReplaceFirst(key, '_', " ")) + ": " + show(value) + "%\n"
  }

  function Breakdown(entries: seq<(string, real)>, show: real -> string): string
    decreases |entries|
  {
    if entries == [] then ""
    else
      var last := entries[|entries| - 1];
      Breakdown(entries[..|entries| - 1], show) + ScoreLine(last.0, last.1, show)
  }

  function BulletLine(keyword: string): string {
    "  • " + keyword + "\n"
  }

  function Bullets(keywords: seq<string>): string
    decreases |keywords|
  {
    if keywords == [] then ""
    else Bullets(keywords[..|keywords| - 1]) + BulletLine(keywords[|keywords| - 1])
  }

  /** One category's heading (upper-cased, underscores kept) and bullets. */
  function KeywordHeading(category: string): string {
    "\n" + Upper(category) + ":\n"
  }

  function KeywordBlock(category: string, keywords: seq<string>): string {
    if keywords == [] then "" else KeywordHeading(category) + Bullets(keywords)
  }

  function MissingPart(entries: seq<(string, seq<string>)>): string
    decreases |entries|
  {
    if entries == [] then ""
    else
      var last := entries[|entries| - 1];
      MissingPart(entries[..|entries| - 1]) + KeywordBlock(last.0, last.1)
  }

  /** The line for the action at position `n` of the list, counted from 1. */
  function ActionLine(n: nat, action: string): string {
    NatToString(n) + ". " + action + "\n"
  }

  function ActionLines(actions: seq<string>): string
    decreases |actions|
  {
    if actions == [] then ""
    else ActionLines(actions[..|actions| - 1]) + ActionLine(|actions|, actions[|actions| - 1])
  }

  /** The whole report text. */
  function ReportOf(a: Analysis, generated: string, show: real -> string): string {
    ReportHead(a, generated, show) + BreakdownHeading + Breakdown(ScoreEntries(a.score.categoryScores), show) +
    MissingHeading + MissingPart(MissingEntries(a.keywords.missing)) +
    ActionsHeading + ActionLines(a.suggestions.summary.topActions)
  }

  /** The three lines before the breakdown. */
  function ReportHead(a: Analysis, generated: string, show: real -> string): string {
    ReportTitle + "Generated: " + generated + "\n\n" +
    "OVERALL SCORE: " + show(a.score.overallScore) + "/100 (" + a.score.rating + ")\n\n"
  }

  /** The report as `exportResults` appends to it, entry by entry. */
  method BuildReport(a: Analysis, generated: string, show: real -> string) returns (report: string)
    ensures report == ReportOf(a, generated, show)
  {
    report := ReportTitle;
    report := report + "Generated: " + generated + "\n\n";
    report := report + "OVERALL SCORE: " + show(a.score.overallScore) + "/100 (" + a.score.rating + ")\n\n";
    assert report == ReportHead(a, generated, show);
    report := report + BreakdownHeading;
    report := AppendBreakdown(report, ScoreEntries(a.score.categoryScores), show);
    report := report + MissingHeading;
    report := AppendMissing(report, MissingEntries(a.keywords.missing));
    report := report + ActionsHeading;
    report := AppendActions(report, a.suggestions.summary.topActions);
  }

  /** The category-breakdown loop. */
  method AppendBreakdown(start: string, entries: seq<(string, real)>, show: real -> string) returns (report: string)
    ensures report == start + Breakdown(entries, show)
  {
    report := start;
    var i := 0;
    while i < |entries|
      invariant 0 <= i <= |entries|
      invariant report == start + Breakdown(entries[..i], show)
    {
      ghost var done := Breakdown(entries[..i], show);
      var line := ScoreLine(entries[i].0, entries[i].1, show);
      report := report + line;
      ConcatAssoc(start, done, line);
      BreakdownStep(entries, i, show);
      i := i + 1;
    }
    assert entries[..i] == entries;
  }

  /** The missing-keywords loop: a heading and bullets for each non-empty category. */
  method AppendMissing(start: string, entries: seq<(string, seq<string>)>) returns (report: string)
    ensures report == start + MissingPart(entries)
  {
    report := start;
    var i := 0;
    while i < |entries|
      invariant 0 <= i <= |entries|
      invariant report == start + MissingPart(entries[..i])
    {
      report := AppendEntry(start, report, entries, i);
      i := i + 1;
    }
    assert entries[..i] == entries;
  }

  /** One category of the missing-keywords loop: skipped when empty. */
  method AppendBlock(start: string, category: string, keywords: seq<string>) returns (report: string)
    ensures report == start + KeywordBlock(category, keywords)
  {
    report := start;
    if |keywords| > 0 {
      report := report + KeywordHeading(category);
      report := AppendBullets(report, keywords);
    }
  }

  /** One pass of the missing-keywords loop. */
  method AppendEntry(start: string, sofar: string, entries: seq<(string, seq<string>)>, i: nat) returns (report: string)
    requires i < |entries| && sofar == start + MissingPart(entries[..i])
    ensures report == start + MissingPart(entries[..i + 1])
  {
    ghost var done := MissingPart(entries[..i]);
    ghost var block := KeywordBlock(entries[i].0, entries[i].1);
    report := AppendBlock(sofar, entries[i].0, entries[i].1);
    assert report == (start + done) + block;
    ConcatAssoc(start, done, block);
    MissingPartStep(entries, i);
  }

  lemma BreakdownStep(entries: seq<(string, real)>, i: nat, show: real -> string)
    requires i < |entries|
    ensures Breakdown(entries[..i + 1], show) == Breakdown(entries[..i], show) + ScoreLine(entries[i].0, entries[i].1, show)
  {
    assert entries[..i + 1][..i] == entries[..i];
  }

  lemma MissingPartStep(entries: seq<(string, seq<string>)>, i: nat)
    requires i < |entries|
    ensures MissingPart(entries[..i + 1]) == MissingPart(entries[..i]) + KeywordBlock(entries[i].0, entries[i].1)
  {
    assert entries[..i + 1][..i] == entries[..i];
  }

  /** The inner `keywords.forEach`: one bullet line per keyword. */
  method AppendBullets(start: string, keywords: seq<string>) returns (report: string)
    ensures report == start + Bullets(keywords)
  {
    report := start;
    var k := 0;
    while k < |keywords|
      invariant 0 <= k <= |keywords|
      invariant report == start + Bullets(keywords[..k])
    {
      report := report + BulletLine(keywords[k]);
      assert keywords[..k + 1][..k] == keywords[..k];
      k := k + 1;
    }
    assert keywords[..k] == keywords;
  }

  /** The top-actions loop: `${i + 1}. ${action}`. */
  method AppendActions(start: string, actions: seq<string>) returns (report: string)
    ensures report == start + ActionLines(actions)
  {
    report := start;
    var i := 0;
    while i < |actions|
      invariant 0 <= i <= |actions|
      invariant report == start + ActionLines(actions[..i])
    {
      report := report + ActionLine(i + 1, actions[i]);
      assert actions[..i + 1][..i] == actions[..i];
      i := i + 1;
    }
    assert actions[..i] == actions;
  }

  /** Dropping trailing actions leaves a prefix of the numbered list. */
  lemma {:induction false} ActionLinesPrefix(actions: seq<string>, n: nat)
    requires n <= |actions|
    ensures StartsWith(ActionLines(actions), ActionLines(actions[..n]))
    decreases |actions|
  {
    if n < |actions| {
      var init := actions[..|actions| - 1];
      assert init[..n] == actions[..n];
      ActionLinesPrefix(init, n);
      var a := ActionLines(init);
      var b := ActionLines(actions[..n]);
      assert ActionLines(actions) == a + ActionLine(|actions|, actions[|actions| - 1]);
      assert ActionLines(actions)[..|b|] == a[..|b|];
    } else {
      assert actions[..n] == actions;
    }
  }

  /**
   * The actions are numbered from 1 in list order: after the lines of the
   * first `i` actions comes the line numbered `i + 1` for action `i`.
   */
  lemma ActionsNumberedFromOne(actions: seq<string>, i: nat)
    requires i < |actions|
    ensures StartsWith(ActionLines(actions), ActionLines(actions[..i]) + ActionLine(i + 1, actions[i]))
  {
    ActionLinesPrefix(actions, i + 1);
    assert actions[..i + 1][..i] == actions[..i];
  }

  /** A category with no missing keywords adds nothing; the section is empty exactly when all five are. */
  lemma {:induction false} MissingPartEmptyIff(entries: seq<(string, seq<string>)>)
    ensures MissingPart(entries) == "" <==> forall i :: 0 <= i < |entries| ==> entries[i].1 == []
    decreases |entries|
  {
    if entries != [] {
      var init := entries[..|entries| - 1];
      var last := entries[|entries| - 1];
      MissingPartEmptyIff(init);
      KeywordBlockEmptyIff(last.0, last.1);
      var done := MissingPart(init);
      var block := KeywordBlock(last.0, last.1);
      assert MissingPart(entries) == done + block;
      assert |done + block| == |done| + |block|;
      assert forall i :: 0 <= i < |init| ==> init[i] == entries[i];
    }
  }

  /** A category adds nothing exactly when it has no keywords. */
  lemma KeywordBlockEmptyIff(category: string, keywords: seq<string>)
    ensures KeywordBlock(category, keywords) == "" <==> keywords == []
  {
    if keywords != [] {
      assert KeywordHeading(category)[0] == '\n';
    }
  }

  /** The report lists no missing keywords exactly when the server found none missing. */
  lemma ReportMissingEmptyIff(m: MissingKeywords)
    ensures MissingPart(MissingEntries(m)) == "" <==>
      m.technicalSkills == [] && m.softSkills == [] && m.education == [] && m.certifications == [] && m.other == []
  {
    MissingPartEmptyIff(MissingEntries(m));
    MissingEntriesOrder(m);
    var e := MissingEntries(m);
    assert e[0].1 == m.certifications && e[1].1 == m.education && e[2].1 == m.other;
    assert e[3].1 == m.softSkills && e[4].1 == m.technicalSkills;
  }

  /** Breakdown keys lose only their first underscore. */
  lemma BreakdownKeyOf(first: string, rest: string)
    requires '_' !in first
    ensures Upper(ReplaceFirst(first + "_" + rest, '_', " ")) == Upper(first) + " " + Upper(rest)
  {
    ReplaceFirstSplit(first, rest);
    assert Upper(first + " " + rest) == Upper(first) + " " + Upper(rest);
  }

  /** Missing-keyword headings keep their underscores. */
  lemma KeywordHeadingOf(first: string, rest: string)
    ensures KeywordHeading(first + "_" + rest) == "\n" + Upper(first) + "_" + Upper(rest) + ":\n"
  {
    assert Upper(first + "_" + rest) == Upper(first) + "_" + Upper(rest);
  }
}
