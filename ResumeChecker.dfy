/**
 * The React resume checker page (src/components/ResumeChecker.jsx): the
 * upload checks, the form and analyze guards, how the server's answer is
 * taken in, and the pure display rules of its result cards (the score
 * colour band, the missing-keyword tags, the merged suggestion list and
 * which AI suggestion sections appear).
 *
 * The browser's `File` is reduced to its name, MIME type and size; the
 * request itself, timers and rendering are not part of this model.
 */
module ResumeChecker {
  import opened Wrappers
  import opened Text
  import opened Seqs
  import opened KeywordExtractor
  import opened AtsScorer
  import opened SuggestionsGenerator
  import opened LlmSuggestionGenerator
  import opened Api

  // ---------------------------------------------------------------- upload and form checks

  /** The MIME types the upload accepts: PDF, DOCX and DOC. */
  const ValidTypes: seq<string> := [
    "application/pdf",
    "application/vnd.openxmlformats-officedocument.wordprocessingml.document",
    "application/msword"]

  /** `5 * 1024 * 1024` bytes. */
  const MaxUploadBytes: nat := 5 * 1024 * 1024

  const InvalidTypeMessage := "Invalid file type. Please upload a PDF or DOCX file."
  const TooLargeMessage := "File too large. Maximum size is 5MB."
  const MissingInputMessage := "Please upload a resume and enter a job description."
  const AnalysisFailedMessage := "Analysis failed"

  /** The part of a browser `File` the page looks at. */
  datatype UploadFile = UploadFile(name: string, mimeType: string, size: nat)

  /** `handleFile`'s two checks, type first: the error it shows, or None when the file is taken. */
  function UploadError(file: UploadFile): (r: Option<string>)
    ensures r.None? <==> file.mimeType in ValidTypes && file.size <= MaxUploadBytes
    ensures file.mimeType !in ValidTypes ==> r == Some(InvalidTypeMessage)
    ensures file.mimeType in ValidTypes && file.size > MaxUploadBytes ==> r == Some(TooLargeMessage)
  {
    if file.mimeType !in ValidTypes then Some(InvalidTypeMessage)
    else if file.size > MaxUploadBytes then Some(TooLargeMessage)
    else None
  }

  /** The size limit is inclusive: exactly 5 MiB is taken, one byte more is refused. */
  lemma UploadSizeBoundary(name: string)
    ensures UploadError(UploadFile(name, ValidTypes[0], 5242880)) == None
    ensures UploadError(UploadFile(name, ValidTypes[0], 5242881)) == Some(TooLargeMessage)
  {
  }

  /**
   * `isFormValid`: a file is chosen and the trimmed description is longer
   * than 50 UTF-16 code units (JavaScript's `length`).
   */
  predicate FormValid(file: Option<UploadFile>, jobDescription: string) {
    file.Some? && JsLength(JsTrim(jobDescription)) > 50
  }

  /** The guard at the top of `analyzeResume`: the error shown instead of sending, if any. */
  function AnalyzeGuard(file: Option<UploadFile>, jobDescription: string): (r: Option<string>)
    ensures r.None? <==> file.Some? && JsTrim(jobDescription) != ""
    ensures r.Some? ==> r == Some(MissingInputMessage)
  {
    if file.None? || JsTrim(jobDescription) == "" then Some(MissingInputMessage) else None
  }

  /** A form the button accepts always gets past the guard. */
  lemma ValidFormPassesGuard(file: Option<UploadFile>, jobDescription: string)
    requires FormValid(file, jobDescription)
    ensures AnalyzeGuard(file, jobDescription) == None
  {
  }

  /**
   * The guard is looser than the button: a one-character description passes
   * the guard although the form is not valid.
   */
  lemma GuardLooserThanForm(file: UploadFile)
    ensures AnalyzeGuard(Some(file), "x") == None && !FormValid(Some(file), "x")
  {
    assert !IsJsSpace('x');
    assert JsTrim("x") == "x";
  }

  /**
   * What a finished request leaves: the analysis for a 200 answer; otherwise
   * the answer's `error` text, or "Analysis failed" when it is empty.
   */
  function ResponseOutcome(resp: Response): (r: Result<Analysis, string>)
    ensures r.Success? <==> StatusCode(resp) == 200
    ensures r.Failure? ==> r.error != ""
  {
    match resp
    case Analyzed(a) => Success(a)
    case BadRequest(e) => Failure(if e != "" then e else AnalysisFailedMessage)
    case ServerError(e) => Failure(if e != "" then e else AnalysisFailedMessage)
  }

  /** The component's state. */
  class ResumeChecker {
    var selectedFile: Option<UploadFile>
    var jobDescription: string
    var loading: bool
    var results: Option<Analysis>
    var error: Option<string>

    constructor ()
      ensures selectedFile == None && jobDescription == "" && !loading && results == None && error == None
    {
      selectedFile := None;
      jobDescription := "";
      loading := false;
      results := None;
      error := None;
    }

    /** The analyze button is enabled: the form is valid and no request is running. */
    predicate CanAnalyze()
      reads this
    {
      FormValid(selectedFile, jobDescription) && !loading
    }

    /** `handleFile`: a refused file only shows its error; an accepted one becomes the selection. */
    method HandleFile(file: UploadFile)
      modifies this
      ensures UploadError(file).Some? ==> selectedFile == old(selectedFile) && error == UploadError(file)
      ensures UploadError(file).None? ==> selectedFile == Some(file) && error == old(error)
      ensures jobDescription == old(jobDescription) && loading == old(loading) && results == old(results)
    {
      var problem := UploadError(file);
      if problem.Some? {
        error := problem;
        return;
      }
      selectedFile := Some(file);
    }

    /** `removeFile`. */
    method RemoveFile()
      modifies this
      ensures selectedFile == None
      ensures jobDescription == old(jobDescription) && loading == old(loading)
      ensures results == old(results) && error == old(error)
    {
      selectedFile := None;
    }

    /** Typing into the description box. */
    method SetJobDescription(text: string)
      modifies this
      ensures jobDescription == text
      ensures selectedFile == old(selectedFile) && loading == old(loading)
      ensures results == old(results) && error == old(error)
    {
      jobDescription := text;
    }

    /**
     * `analyzeResume` up to the request: with the guard failing, show its
     * error and send nothing; otherwise start loading and send the file with
     * the description as typed.
     */
    method StartAnalysis() returns (sent: Option<(UploadFile, string)>)
      modifies this
      ensures AnalyzeGuard(old(selectedFile), old(jobDescription)).Some? ==>
        sent == None && error == AnalyzeGuard(old(selectedFile), old(jobDescription)) && loading == old(loading)
      ensures AnalyzeGuard(old(selectedFile), old(jobDescription)).None? ==>
        sent == Some((old(selectedFile).value, old(jobDescription))) && loading && error == old(error)
      ensures selectedFile == old(selectedFile) && jobDescription == old(jobDescription) && results == old(results)
    {
      var problem := AnalyzeGuard(selectedFile, jobDescription);
      if problem.Some? {
        error := problem;
        sent := None;
        return;
      }
      loading := true;
      sent := Some((selectedFile.value, jobDescription));
    }

    /** The rest of `analyzeResume`: keep the analysis or show the failure, and stop loading. */
    method FinishAnalysis(resp: Response)
      modifies this
      ensures !loading
      ensures StatusCode(resp) == 200 ==> results == Some(ResponseOutcome(resp).value) && error == old(error)
      ensures StatusCode(resp) != 200 ==> results == old(results) && error == Some(ResponseOutcome(resp).error)
      ensures selectedFile == old(selectedFile) && jobDescription == old(jobDescription)
    {
      var outcome := ResponseOutcome(resp);
      if outcome.Success? {
        results := Some(outcome.value);
      } else {
        error := Some(outcome.error);
      }
      loading := false;
    }
  }

  // ---------------------------------------------------------------- score card

  /** The gauge's two gradient colours. */
  datatype Gradient = Gradient(start: string, end: string)

  const BestGradient := Gradient("#11998e", "#38ef7d")
  const GoodGradient := Gradient("#f093fb", "#4facfe")
  const FairGradient := Gradient("#f2994a", "#f2c94c")
  const PoorGradient := Gradient("#eb3349", "#f45c43")

  /** `ScoreCard`'s colour bands: at least 80, at least 60, at least 40, below. */
  function ScoreGradient(score: real): Gradient {
    if score >= 80.0 then BestGradient
    else if score >= 60.0 then GoodGradient
    else if score >= 40.0 then FairGradient
    else PoorGradient
  }

  function GradientRank(g: Gradient): nat {
    if g == BestGradient then 3
    else if g == GoodGradient then 2
    else if g == FairGradient then 1
    else 0
  }

  /** On one and the same value the colour bands rank as the ratings do. */
  lemma GradientMatchesRating(score: real)
    ensures GradientRank(ScoreGradient(score)) == RatingRank(Rating(score))
  {
  }

  // ---------------------------------------------------------------- missing keywords card

  /** The tag that stands for the keywords past the first ten. */
  function MoreTag(hidden: nat): string {
    "+" + NatToString(hidden) + " more"
  }

  /** The tags of one category: the first ten keywords, then "+N more" for the rest. */
  function KeywordTags(keywords: seq<string>): (r: seq<string>)
    ensures |r| <= 11
  {
    Take(keywords, 10) + (if |keywords| > 10 then [MoreTag(|keywords| - 10)] else [])
  }

  /**
   * At most ten keywords are shown, in order; a further tag appears exactly
   * when some are hidden, and the number it prints reads back as how many.
   */
  lemma KeywordTagsFacts(keywords: seq<string>)
    ensures |keywords| <= 10 ==> KeywordTags(keywords) == keywords
    ensures |keywords| > 10 ==> |KeywordTags(keywords)| == 11 && KeywordTags(keywords)[..10] == keywords[..10]
    ensures |keywords| > 10 ==>
      var tag := KeywordTags(keywords)[10];
      |tag| > 6 && tag[0] == '+' && EndsWith(tag, " more") &&
      (forall i :: 1 <= i < |tag| - 5 ==> IsDigit(tag[i])) &&
      DigitsValue(tag[1..|tag| - 5]) + 10 == |keywords|
  {
    if |keywords| > 10 {
      var n := |keywords| - 10;
      var tag := MoreTag(n);
      assert KeywordTags(keywords)[10] == tag;
      assert tag[1..|tag| - 5] == NatToString(n);
      NatToStringRoundTrip(n);
    }
  }

  /** One category box of the card. */
  datatype CategoryView = CategoryView(title: string, priority: string, count: nat, tags: seq<string>)

  /** A box for a category that has missing keywords, none otherwise. */
  function ViewIf(title: string, priority: string, keywords: seq<string>): (r: seq<CategoryView>)
    ensures |r| <= 1 && (r == [] <==> keywords == [])
    ensures forall v :: v in r ==> v.count > 0 && |v.tags| <= 11
  {
    if keywords == [] then [] else [CategoryView(title, priority, |keywords|, KeywordTags(keywords))]
  }

  /** The boxes in the card's order: technical skills, soft skills, certifications, education. */
  function MissingKeywordsView(missing: MissingKeywords): seq<CategoryView> {
    ViewIf("Technical Skills", "high", missing.technicalSkills) +
    (ViewIf("Soft Skills", "medium", missing.softSkills) +
    (ViewIf("Certifications", "high", missing.certifications) +
    ViewIf("Education", "medium", missing.education)))
  }

  /** `hasKeywords`: one of the four shown categories is non-empty. */
  predicate HasKeywords(missing: MissingKeywords) {
    missing.technicalSkills != [] || missing.softSkills != [] ||
    missing.certifications != [] || missing.education != []
  }

  /**
   * The "Great!" message shows exactly when there is no box; every box
   * counts a non-empty category and carries its tags; the `other` list is
   * never shown.
   */
  lemma MissingKeywordsViewFacts(missing: MissingKeywords, other: seq<string>)
    ensures MissingKeywordsView(missing) == [] <==> !HasKeywords(missing)
    ensures forall v :: v in MissingKeywordsView(missing) ==> v.count > 0 && |v.tags| <= 11
    ensures MissingKeywordsView(missing.(other := other)) == MissingKeywordsView(missing)
  {

  }

  // ---------------------------------------------------------------- suggestions card

  datatype Kind = Critical | Important | Recommended

  /** One row of the list: the suggestion and the priority it is shown with. */
  datatype ShownSuggestion = ShownSuggestion(item: Suggestion, kind: Kind)

  function Tagged(kind: Kind): Suggestion -> ShownSuggestion {
    s => ShownSuggestion(s, kind)
  }

  function ItemOf(s: ShownSuggestion): Suggestion { s.item }

  /** `allSuggestions`: every critical, then every important, then the first five recommended. */
  function AllSuggestions(s: Suggestions): seq<ShownSuggestion> {
    Map(s.critical, Tagged(Critical)) + Map(s.important, Tagged(Important)) +
    Map(Take(s.recommended, 5), Tagged(Recommended))
  }

  /**
   * The rows are the three lists in priority order, recommended ones cut to
   * five, each row marked with the list it came from; formatting tips are
   * never listed.
   */
  lemma AllSuggestionsFacts(s: Suggestions)
    ensures Map(AllSuggestions(s), ItemOf) == s.critical + s.important + Take(s.recommended, 5)
    ensures |AllSuggestions(s)| <= |s.critical| + |s.important| + 5
    ensures forall i :: 0 <= i < |AllSuggestions(s)| ==>
      (AllSuggestions(s)[i].kind == Critical <==> i < |s.critical|) &&
      (AllSuggestions(s)[i].kind == Recommended <==> |s.critical| + |s.important| <= i)
  {
    var r := AllSuggestions(s);
    var items := s.critical + s.important + Take(s.recommended, 5);
    assert |Map(r, ItemOf)| == |items|;
    forall i | 0 <= i < |r| ensures Map(r, ItemOf)[i] == items[i] {
      if i < |s.critical| {
      } else if i < |s.critical| + |s.important| {
      } else {
      }
    }
  }

  // ---------------------------------------------------------------- AI suggestions card

  /**
   * `llm_suggestions && !llm_suggestions.llm_unavailable`: the card appears.
   * The empty object sent when the generator is switched off is truthy and
   * has no `llm_unavailable`, so it passes.
   */
  predicate LlmCardShown(field: LlmField) {
    match field
    case LlmOmitted => true
    case LlmProduced(s) => !LlmUnavailable(s)
    case LlmFailed(unavailable, _) => !unavailable
  }

  /**
   * For the fields the server sends, the card appears exactly when the
   * generator is switched off, or it did not raise and the local service
   * answered.
   */
  lemma LlmCardShownIff(enabled: bool, raised: bool, generated: LlmSuggestions)
    ensures LlmCardShown(LlmFieldOf(enabled, raised, generated)) <==> !enabled || (!raised && generated.Generated?)
  {
  }

  /** The sections the AI suggestions cards can show. */
  datatype LlmSectionKind =
    | KeywordsList
    | SkillsToAddSection
    | ProfessionalSummarySection
    | ExperienceBulletsSection
    | SkillsIntegrationSection
    | SummaryEnhancementSection
    | ProjectIdeasSection
    | SectionSpecificSection(key: string)

  /** A section and the lines it offers to copy. */
  datatype LlmSection = LlmSection(kind: LlmSectionKind, items: seq<string>)

  function SectionIf(present: bool, kind: LlmSectionKind, items: seq<string>): (r: seq<LlmSection>)
    ensures |r| <= 1 && (r != [] <==> present)
    ensures forall x :: x in r ==> x.kind == kind && x.items == items
  {
    if present then [LlmSection(kind, items)] else []
  }

  /** `LLMSuggestions`: skills, summary, bullets and project ideas, each only when non-empty. */
  function CardSections(s: LlmSuggestions): seq<LlmSection> {
    if s.Fallback? then []
    else
      SectionIf(s.skillsToAdd != [], SkillsToAddSection, s.skillsToAdd) +
      (SectionIf(s.professionalSummary != "", ProfessionalSummarySection, [s.professionalSummary]) +
      (SectionIf(s.experienceBullets != [], ExperienceBulletsSection, s.experienceBullets) +
      SectionIf(s.projectIdeas != [], ProjectIdeasSection, s.projectIdeas)))
  }

  /** The sections of the card for the server's field: an empty object or a failure has none. */
  function FieldCardSections(field: LlmField): seq<LlmSection> {
    if field.LlmProduced? then CardSections(field.suggestions) else []
  }

  /**
   * With the generator switched off the card still appears, titled and
   * described, with no section in it.
   */
  lemma DisabledGeneratorShowsEmptyCard(raised: bool, generated: LlmSuggestions)
    ensures LlmCardShown(LlmFieldOf(false, raised, generated))
    ensures FieldCardSections(LlmFieldOf(false, raised, generated)) == []
  {
  }

  /** Every section offers something, and this page never shows skills sentences or section advice. */
  lemma CardSectionsFacts(s: LlmSuggestions)
    ensures forall x :: x in CardSections(s) ==> x.items != []
    ensures forall x :: x in CardSections(s) && x.kind == ProfessionalSummarySection ==>
      x.items == [s.professionalSummary] && s.professionalSummary != ""
    ensures forall x :: x in CardSections(s) ==>
      x.kind in {SkillsToAddSection, ProfessionalSummarySection, ExperienceBulletsSection, ProjectIdeasSection}
  {
  }
}
