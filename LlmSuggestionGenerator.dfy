/**
 * The language-model suggestion generator (backend/llm_suggestion_generator.py).
 *
 * The generator remembers, once, whether the local Ollama service is enabled
 * and reachable, and then fills a fixed set of suggestion fields. The model's
 * replies are not computed here: each prompt's reply is an input, either the
 * text the service returned or the failure it raised. What is modelled is
 * what the source does around those replies: which prompts are skipped, how
 * a reply is parsed into lines, how many lines are kept, and what is
 * returned when the service cannot be used.
 */
module LlmSuggestionGenerator {
  import opened Wrappers
  import opened Text
  import opened Seqs
  import Config
  import opened KeywordExtractor
  import opened ResumeParser

  /** One prompt's outcome: the reply text, or the error the call raised. */
  type Reply = Result<string, string>

  /** The replies to the six prompts, in the order the generator issues them. */
  datatype Replies = Replies(
    skillsToAdd: Reply,
    professionalSummary: Reply,
    experienceBullets: Reply,
    skillsIntegration: Reply,
    summaryEnhancement: Reply,
    projectIdeas: Reply)

  /** One entry of a dictionary from a category name to a list of lines. */
  datatype KeywordGroup = KeywordGroup(category: string, items: seq<string>)

  /** What `generate_suggestions` returns: every field, or the fallback set. */
  datatype LlmSuggestions =
    | Generated(
        missingKeywordsList: seq<KeywordGroup>,
        skillsToAdd: seq<string>,
        professionalSummary: string,
        experienceBullets: seq<string>,
        skillsIntegration: seq<string>,
        summaryEnhancement: string,
        projectIdeas: seq<string>,
        sectionSpecific: seq<KeywordGroup>)
    | Fallback(
        experienceBullets: seq<string>,
        skillsIntegration: seq<string>,
        summaryEnhancement: string,
        sectionSpecific: seq<KeywordGroup>,
        message: string)

  /** The `llm_unavailable` flag: present, and true, only on the fallback. */
  predicate LlmUnavailable(r: LlmSuggestions) {
    r.Fallback?
  }

  const FallbackMessage := "AI suggestions unavailable. Please ensure Ollama is running with llama3.2 model."

  /** A dictionary lookup with `[]` as the default, as `dict.get(key, [])`. */
  function GroupItems(groups: seq<KeywordGroup>, category: string): seq<string>
    decreases |groups|
  {
    if groups == [] then []
    else if groups[0].category == category then groups[0].items
    else GroupItems(groups[1..], category)
  }

  /** The entry for `category` when `items` is not empty, as `if items: result[category] = items`. */
  function GroupIf(category: string, items: seq<string>): (r: seq<KeywordGroup>)
    ensures |r| <= 1
  {
    if items != [] then [KeywordGroup(category, items)] else []
  }

  function Categories(groups: seq<KeywordGroup>): seq<string> {
    Map(groups, (g: KeywordGroup) => g.category)
  }

  // ---------------------------------------------------------------- availability

  /** `_check_ollama_availability`: a disabled generator never asks the service. */
  function CheckAvailability(enabled: bool, listSucceeds: bool): (available: bool)
    ensures available <==> enabled && listSucceeds
  {
    if !enabled then false else listSucceeds
  }

  // ---------------------------------------------------------------- missing keyword lists

  /** Looking a key up past an entry that may or may not have been added. */
  lemma GroupIfLookup(category: string, items: seq<string>, rest: seq<KeywordGroup>, key: string)
    ensures GroupItems(GroupIf(category, items) + rest, key)
         == if items != [] && category == key then items else GroupItems(rest, key)
  {
    if items != [] {
      assert (GroupIf(category, items) + rest)[1..] == rest;
    } else {
      assert GroupIf(category, items) + rest == rest;
    }
  }

  /** The dictionary `_generate_missing_keywords_list` builds. */
  function MissingKeywordsListOf(missing: MissingKeywords): seq<KeywordGroup> {
    GroupIf("technical_skills", Take(missing.technicalSkills, 10))
    + (GroupIf("soft_skills", Take(missing.softSkills, 5))
    + (GroupIf("certifications", Take(missing.certifications, 5))
    + GroupIf("education", Take(missing.education, 3))))
  }

  /** `_generate_missing_keywords_list`: each category is added only when it has entries. */
  method MissingKeywordsList(missing: MissingKeywords) returns (result: seq<KeywordGroup>)
    ensures result == MissingKeywordsListOf(missing)
  {
    result := [];
    var tech := Take(missing.technicalSkills, 10);
    var soft := Take(missing.softSkills, 5);
    var certs := Take(missing.certifications, 5);
    var edu := Take(missing.education, 3);
    if tech != [] {
      result := result + [KeywordGroup("technical_skills", tech)];
    }
    if soft != [] {
      result := result + [KeywordGroup("soft_skills", soft)];
    }
    if certs != [] {
      result := result + [KeywordGroup("certifications", certs)];
    }
    if edu != [] {
      result := result + [KeywordGroup("education", edu)];
    }
  }

  /** Looking up each of the four categories in the list. */
  lemma {:induction false} MissingKeywordsLookup(missing: MissingKeywords, key: string)
    ensures GroupItems(MissingKeywordsListOf(missing), key)
         == if key == "technical_skills" then Take(missing.technicalSkills, 10)
            else if key == "soft_skills" then Take(missing.softSkills, 5)
            else if key == "certifications" then Take(missing.certifications, 5)
            else if key == "education" then Take(missing.education, 3)
            else []
  {
    var d := GroupIf("education", Take(missing.education, 3));
    var c := GroupIf("certifications", Take(missing.certifications, 5));
    var b := GroupIf("soft_skills", Take(missing.softSkills, 5));
    GroupIfLookup("technical_skills", Take(missing.technicalSkills, 10), b + (c + d), key);
    GroupIfLookup("soft_skills", Take(missing.softSkills, 5), c + d, key);
    GroupIfLookup("certifications", Take(missing.certifications, 5), d, key);
    GroupIfLookup("education", Take(missing.education, 3), [], key);
    assert d + [] == d;
  }

  /** Each category of the list holds the first 10, 5, 5 or 3 missing keywords of its kind. */
  lemma MissingKeywordsListContents(missing: MissingKeywords)
    ensures GroupItems(MissingKeywordsListOf(missing), "technical_skills") == Take(missing.technicalSkills, 10)
    ensures GroupItems(MissingKeywordsListOf(missing), "soft_skills") == Take(missing.softSkills, 5)
    ensures GroupItems(MissingKeywordsListOf(missing), "certifications") == Take(missing.certifications, 5)
    ensures GroupItems(MissingKeywordsListOf(missing), "education") == Take(missing.education, 3)
  {
    MissingKeywordsLookup(missing, "technical_skills");
    MissingKeywordsLookup(missing, "soft_skills");
    MissingKeywordsLookup(missing, "certifications");
    MissingKeywordsLookup(missing, "education");
  }

  /** Every entry placed by `GroupIf` is non-empty. */
  lemma GroupIfNonEmpty(category: string, items: seq<string>, rest: seq<KeywordGroup>)
    requires forall i :: 0 <= i < |rest| ==> rest[i].items != []
    ensures forall i :: 0 <= i < |GroupIf(category, items) + rest| ==> (GroupIf(category, items) + rest)[i].items != []
  {
  }

  /**
   * No entry of the list is empty, and the list itself is empty exactly when
   * nothing of those four kinds is missing.
   */
  lemma MissingKeywordsListShape(missing: MissingKeywords)
    ensures forall i :: 0 <= i < |MissingKeywordsListOf(missing)| ==> MissingKeywordsListOf(missing)[i].items != []
    ensures MissingKeywordsListOf(missing) == [] <==>
      missing.technicalSkills == [] && missing.softSkills == [] &&
      missing.certifications == [] && missing.education == []
  {
    var d := GroupIf("education", Take(missing.education, 3));
    var c := GroupIf("certifications", Take(missing.certifications, 5));
    var b := GroupIf("soft_skills", Take(missing.softSkills, 5));
    GroupIfNonEmpty("education", Take(missing.education, 3), []);
    assert d + [] == d;
    GroupIfNonEmpty("certifications", Take(missing.certifications, 5), d);
    GroupIfNonEmpty("soft_skills", Take(missing.softSkills, 5), c + d);
    GroupIfNonEmpty("technical_skills", Take(missing.technicalSkills, 10), b + (c + d));
  }

  // ---------------------------------------------------------------- section-specific advice

  function AddSkillLine(skill: string): string {
    "Add '" + skill + "' to your Technical Skills section"
  }

  function ObtainLine(cert: string): string {
    "Consider obtaining: " + cert
  }

  function DemonstrateLine(skill: string): string {
    "Demonstrate '" + skill + "' through specific examples in your experience"
  }

  /** `_generate_section_specific`: template lines that need no reply from the service. */
  function SectionSpecific(missing: MissingKeywords): seq<KeywordGroup> {
    GroupIf("technical_skills", Map(Take(missing.technicalSkills, 5), AddSkillLine))
    + (GroupIf("certifications", Map(Take(missing.certifications, 3), ObtainLine))
    + GroupIf("soft_skills", Map(Take(missing.softSkills, 3), DemonstrateLine)))
  }

  /** Looking up each of the three categories of advice. */
  lemma {:induction false} SectionSpecificLookup(missing: MissingKeywords, key: string)
    ensures GroupItems(SectionSpecific(missing), key)
         == if key == "technical_skills" then Map(Take(missing.technicalSkills, 5), AddSkillLine)
            else if key == "certifications" then Map(Take(missing.certifications, 3), ObtainLine)
            else if key == "soft_skills" then Map(Take(missing.softSkills, 3), DemonstrateLine)
            else []
  {
    var c := GroupIf("certifications", Map(Take(missing.certifications, 3), ObtainLine));
    var d := GroupIf("soft_skills", Map(Take(missing.softSkills, 3), DemonstrateLine));
    GroupIfLookup("technical_skills", Map(Take(missing.technicalSkills, 5), AddSkillLine), c + d, key);
    GroupIfLookup("certifications", Map(Take(missing.certifications, 3), ObtainLine), d, key);
    GroupIfLookup("soft_skills", Map(Take(missing.softSkills, 3), DemonstrateLine), [], key);
    assert d + [] == d;
  }

  /**
   * One line per missing keyword, for up to 5 technical skills, 3 certifications
   * and 3 soft skills, each line naming its keyword.
   */
  lemma SectionSpecificContents(missing: MissingKeywords)
    ensures GroupItems(SectionSpecific(missing), "technical_skills") == Map(Take(missing.technicalSkills, 5), AddSkillLine)
    ensures GroupItems(SectionSpecific(missing), "certifications") == Map(Take(missing.certifications, 3), ObtainLine)
    ensures GroupItems(SectionSpecific(missing), "soft_skills") == Map(Take(missing.softSkills, 3), DemonstrateLine)
    ensures |GroupItems(SectionSpecific(missing), "technical_skills")| <= 5
    ensures |GroupItems(SectionSpecific(missing), "certifications")| <= 3
    ensures |GroupItems(SectionSpecific(missing), "soft_skills")| <= 3
  {
    SectionSpecificLookup(missing, "technical_skills");
    SectionSpecificLookup(missing, "certifications");
    SectionSpecificLookup(missing, "soft_skills");
  }

  /** An entry placed by `GroupIf` under another category keeps `key` out. */
  lemma GroupIfAvoids(category: string, items: seq<string>, rest: seq<KeywordGroup>, key: string)
    requires category != key
    requires forall i :: 0 <= i < |rest| ==> rest[i].category != key && rest[i].items != []
    ensures forall i :: 0 <= i < |GroupIf(category, items) + rest| ==>
      (GroupIf(category, items) + rest)[i].category != key && (GroupIf(category, items) + rest)[i].items != []
  {
  }

  /** No advice is keyed by education, and no entry is empty. */
  lemma SectionSpecificShape(missing: MissingKeywords)
    ensures forall i :: 0 <= i < |SectionSpecific(missing)| ==> SectionSpecific(missing)[i].category != "education"
    ensures forall i :: 0 <= i < |SectionSpecific(missing)| ==> SectionSpecific(missing)[i].items != []
  {
    var c := GroupIf("certifications", Map(Take(missing.certifications, 3), ObtainLine));
    var d := GroupIf("soft_skills", Map(Take(missing.softSkills, 3), DemonstrateLine));
    GroupIfAvoids("soft_skills", Map(Take(missing.softSkills, 3), DemonstrateLine), [], "education");
    assert d + [] == d;
    GroupIfAvoids("certifications", Map(Take(missing.certifications, 3), ObtainLine), d, "education");
    GroupIfAvoids("technical_skills", Map(Take(missing.technicalSkills, 5), AddSkillLine), c + d, "education");
  }

  // ---------------------------------------------------------------- reading replies

  predicate IsDashOrSpace(c: char) { c == '-' || c == ' ' }

  /** `line.strip().startswith('-')`. */
  predicate IsDashLine(line: string) {
    StartsWith(Strip(line), "-")
  }

  /** `line.strip('- ').strip()`. */
  function CleanDash(line: string): string {
    Strip(Trim(line, IsDashOrSpace))
  }

  /** The bullet lines of a reply: each dash-led line, with its dashes and spaces cut off. */
  function DashLines(reply: string): seq<string> {
    Map(Filter(SplitOn(Strip(reply), '\n'), IsDashLine), CleanDash)
  }

  /** Every bullet kept is stripped, and there are no more bullets than lines. */
  lemma DashLinesShape(reply: string)
    ensures forall i :: 0 <= i < |DashLines(reply)| ==> Strip(DashLines(reply)[i]) == DashLines(reply)[i]
    ensures |DashLines(reply)| <= |SplitOn(Strip(reply), '\n')|
  {
    forall i | 0 <= i < |DashLines(reply)|
      ensures Strip(DashLines(reply)[i]) == DashLines(reply)[i]
    {
      StripIdempotent(Trim(Filter(SplitOn(Strip(reply), '\n'), IsDashLine)[i], IsDashOrSpace));
    }
  }

  /** A sentence of the skills-integration reply: stripped, non-empty and longer than 20 characters. */
  predicate IsLongSentence(s: string) {
    s != [] && |s| > 20
  }

  /** `[s.strip() for s in text.split('\n') if s.strip() and len(s.strip()) > 20]`. */
  function LongSentences(reply: string): seq<string> {
    Filter(Map(SplitOn(Strip(reply), '\n'), Strip), IsLongSentence)
  }

  // ---------------------------------------------------------------- the six prompts

  /** The keywords the skills prompt lists: 8 technical and 4 soft skills. */
  function SkillsToAddInput(missing: MissingKeywords): seq<string> {
    Take(missing.technicalSkills, 8) + Take(missing.softSkills, 4)
  }

  /**
   * `_generate_skills_to_add`: up to 10 bullets of the reply, or the first 10
   * prompted keywords when the reply has no bullet or the call failed; no
   * prompt, and nothing to add, when no skill is missing.
   */
  function SkillsToAdd(missing: MissingKeywords, reply: Reply): (r: seq<string>)
    ensures |r| <= 10
    ensures r == [] <==> SkillsToAddInput(missing) == []
    ensures reply.Failure? ==> r == Take(SkillsToAddInput(missing), 10)
  {
    var allMissing := SkillsToAddInput(missing);
    if allMissing == [] then []
    else match reply
      case Success(text) =>
        var skills := DashLines(text);
        if skills != [] then Take(skills, 10) else Take(allMissing, 10)
      case Failure(_) => Take(allMissing, 10)
  }

  /** A reply without bullets gives back the prompted keywords. */
  lemma SkillsToAddWithoutBullets(missing: MissingKeywords, text: string)
    requires DashLines(text) == []
    ensures SkillsToAdd(missing, Success(text)) == Take(SkillsToAddInput(missing), 10)
  {
  }

  /**
   * `_generate_professional_summary`: the stripped reply; empty when no technical
   * skill is missing (no prompt is sent) or the call failed.
   */
  function ProfessionalSummary(missing: MissingKeywords, reply: Reply): (r: string)
    ensures missing.technicalSkills == [] ==> r == ""
    ensures reply.Failure? ==> r == ""
    ensures Strip(r) == r
  {
    if Take(missing.technicalSkills, 5) == [] then ""
    else match reply
      case Success(text) => StripIdempotent(text); Strip(text)
      case Failure(_) => ""
  }

  /** `_generate_experience_bullets`: up to four stripped bullets of the reply. */
  function ExperienceBullets(missing: MissingKeywords, reply: Reply): (r: seq<string>)
    ensures |r| <= 4
    ensures missing.technicalSkills == [] || reply.Failure? ==> r == []
  {
    if Take(missing.technicalSkills, 5) == [] then []
    else match reply
      case Success(text) => Take(DashLines(text), 4)
      case Failure(_) => []
  }

  /** The keywords the skills-integration prompt names: 3 technical and 2 soft skills. */
  function SkillsTextInput(missing: MissingKeywords): seq<string> {
    Take(missing.technicalSkills, 3) + Take(missing.softSkills, 2)
  }

  /**
   * `_generate_skills_text`: up to three sentences of the reply, each stripped
   * and longer than 20 characters.
   */
  function SkillsText(missing: MissingKeywords, reply: Reply): (r: seq<string>)
    ensures |r| <= 3
    ensures SkillsTextInput(missing) == [] || reply.Failure? ==> r == []
  {
    if SkillsTextInput(missing) == [] then []
    else match reply
      case Success(text) => Take(LongSentences(text), 3)
      case Failure(_) => []
  }

  /** Every sentence kept is stripped and longer than 20 characters. */
  lemma SkillsTextSentences(missing: MissingKeywords, reply: Reply)
    ensures forall i :: 0 <= i < |SkillsText(missing, reply)| ==>
      |SkillsText(missing, reply)[i]| > 20 && Strip(SkillsText(missing, reply)[i]) == SkillsText(missing, reply)[i]
  {
    if reply.Success? && SkillsTextInput(missing) != [] {
      var lines := Map(SplitOn(Strip(reply.value), '\n'), Strip);
      var kept := Filter(lines, IsLongSentence);
      forall i | 0 <= i < |SkillsText(missing, reply)|
        ensures |SkillsText(missing, reply)[i]| > 20 && Strip(SkillsText(missing, reply)[i]) == SkillsText(missing, reply)[i]
      {
        TakePrefix(kept, 3);
        var s := kept[i];
        FilterMember(lines, IsLongSentence, s);
        var j :| 0 <= j < |lines| && lines[j] == s;
        StripIdempotent(SplitOn(Strip(reply.value), '\n')[j]);
      }
    }
  }

  /** `_generate_summary_text`: the stripped reply, empty without a technical skill or on failure. */
  function SummaryText(missing: MissingKeywords, reply: Reply): (r: string)
    ensures missing.technicalSkills == [] || reply.Failure? ==> r == ""
    ensures Strip(r) == r
  {
    if Take(missing.technicalSkills, 4) == [] then ""
    else match reply
      case Success(text) => StripIdempotent(text); Strip(text)
      case Failure(_) => ""
  }

  /** `_generate_project_ideas`: up to four bullets of the reply. */
  function ProjectIdeas(missing: MissingKeywords, reply: Reply): (r: seq<string>)
    ensures |r| <= 4
    ensures missing.technicalSkills == [] || reply.Failure? ==> r == []
  {
    if Take(missing.technicalSkills, 6) == [] then []
    else match reply
      case Success(text) => Take(DashLines(text), 4)
      case Failure(_) => []
  }

  /** Bullets of a reply come out stripped, whichever prompt asked for them. */
  lemma BulletsStripped(missing: MissingKeywords, reply: Reply)
    ensures forall i :: 0 <= i < |ExperienceBullets(missing, reply)| ==>
      Strip(ExperienceBullets(missing, reply)[i]) == ExperienceBullets(missing, reply)[i]
    ensures forall i :: 0 <= i < |ProjectIdeas(missing, reply)| ==>
      Strip(ProjectIdeas(missing, reply)[i]) == ProjectIdeas(missing, reply)[i]
  {
    if reply.Success? {
      DashLinesShape(reply.value);
      TakePrefix(DashLines(reply.value), 4);
    }
  }

  // ---------------------------------------------------------------- the fallback

  /** `_get_fallback_suggestions`: empty generated fields, the template advice and a notice. */
  function FallbackSuggestions(missing: MissingKeywords): (r: LlmSuggestions)
    ensures LlmUnavailable(r)
    ensures r.experienceBullets == [] && r.skillsIntegration == [] && r.summaryEnhancement == ""
    ensures r.message == FallbackMessage
  {
    Fallback([], [], "", SectionSpecific(missing), FallbackMessage)
  }

  /** Every field the service would have produced, from its replies. */
  function GeneratedSuggestions(missing: MissingKeywords, replies: Replies): (r: LlmSuggestions)
    ensures !LlmUnavailable(r)
  {
    Generated(
      MissingKeywordsListOf(missing),
      SkillsToAdd(missing, replies.skillsToAdd),
      ProfessionalSummary(missing, replies.professionalSummary),
      ExperienceBullets(missing, replies.experienceBullets),
      SkillsText(missing, replies.skillsIntegration),
      SummaryText(missing, replies.summaryEnhancement),
      ProjectIdeas(missing, replies.projectIdeas),
      SectionSpecific(missing))
  }

  /** What the generator returns, given whether the service was available at construction. */
  function SuggestionsFor(available: bool, missing: MissingKeywords, replies: Replies): (r: LlmSuggestions)
    ensures LlmUnavailable(r) <==> !available
  {
    if available then GeneratedSuggestions(missing, replies) else FallbackSuggestions(missing)
  }

  /**
   * The template advice does not depend on the service: a generated result
   * and the fallback carry the same section-specific lines.
   */
  lemma SectionSpecificIndependentOfService(missing: MissingKeywords, replies: Replies)
    ensures GeneratedSuggestions(missing, replies).sectionSpecific == FallbackSuggestions(missing).sectionSpecific
  {
  }

  /** When every call fails, only the template fields and the prompted keywords remain. */
  lemma AllRepliesFailed(missing: MissingKeywords, replies: Replies)
    requires replies.skillsToAdd.Failure? && replies.professionalSummary.Failure?
    requires replies.experienceBullets.Failure? && replies.skillsIntegration.Failure?
    requires replies.summaryEnhancement.Failure? && replies.projectIdeas.Failure?
    ensures GeneratedSuggestions(missing, replies).skillsToAdd == Take(SkillsToAddInput(missing), 10)
    ensures GeneratedSuggestions(missing, replies).professionalSummary == ""
    ensures GeneratedSuggestions(missing, replies).experienceBullets == []
    ensures GeneratedSuggestions(missing, replies).skillsIntegration == []
    ensures GeneratedSuggestions(missing, replies).summaryEnhancement == ""
    ensures GeneratedSuggestions(missing, replies).projectIdeas == []
  {
  }

  // ---------------------------------------------------------------- the generator object

  class LlmSuggestionGenerator {
    var enabled: bool
    var ollamaAvailable: bool

    /** `__init__`: reads the configuration and probes the service once. */
    constructor (listSucceeds: bool)
      ensures enabled == Config.OllamaEnabled
      ensures ollamaAvailable == (Config.OllamaEnabled && listSucceeds)
    {
      enabled := Config.OllamaEnabled;
      ollamaAvailable := CheckAvailability(Config.OllamaEnabled, listSucceeds);
    }

    /**
     * `generate_suggestions`: the fallback when the service was not available
     * at construction, otherwise every generated field. The job description,
     * the sections and the current score only shape the prompts.
     */
    method GenerateSuggestions(jobDescription: string, missing: MissingKeywords,
                               sections: map<Section, string>, currentScore: real,
                               replies: Replies) returns (r: LlmSuggestions)
      ensures r == SuggestionsFor(ollamaAvailable, missing, replies)
      ensures !ollamaAvailable ==> r == FallbackSuggestions(missing)
      ensures LlmUnavailable(r) <==> !ollamaAvailable
    {
      if !ollamaAvailable {
        return FallbackSuggestions(missing);
      }
      var keywordsList := MissingKeywordsList(missing);
      r := Generated(
        keywordsList,
        SkillsToAdd(missing, replies.skillsToAdd),
        ProfessionalSummary(missing, replies.professionalSummary),
        ExperienceBullets(missing, replies.experienceBullets),
        SkillsText(missing, replies.skillsIntegration),
        SummaryText(missing, replies.summaryEnhancement),
        ProjectIdeas(missing, replies.projectIdeas),
        SectionSpecific(missing));
    }
  }

  /** A generator built while the service is disabled or down always falls back. */
  method UnavailableGeneratorFallsBack(listSucceeds: bool, missing: MissingKeywords, replies: Replies)
    returns (r: LlmSuggestions)
    requires !listSucceeds
    ensures r == FallbackSuggestions(missing)
  {
    var generator := new LlmSuggestionGenerator(listSucceeds);
    r := generator.GenerateSuggestions("", missing, map[], 0.0, replies);
  }
}
