/**
 * The analysis endpoint (backend/app.py): the upload checks, which run in a
 * fixed order and stop at the first failure, then the analysis pipeline and
 * the response it assembles.
 *
 * Flask, the file system and the language-specific libraries are outside the
 * model. Their results are inputs, gathered in `Services`.
 */
module Api {
  import opened Wrappers
  import opened Text
  import opened Seqs
  import Config
  import opened KeywordExtractor
  import opened ResumeParser
  import opened AtsScorer
  import opened SuggestionsGenerator
  import opened LlmSuggestionGenerator

  // ---------------------------------------------------------------- allowed_file

  /** The text after the last '.', as `filename.rsplit('.', 1)[1]`. */
  function AfterLastDot(s: string): (r: string)
    requires '.' in s
    ensures '.' !in r
    decreases |s|
  {
    if s[|s| - 1] == '.' then []
    else
      assert s == s[..|s| - 1] + [s[|s| - 1]];
      AfterLastDot(s[..|s| - 1]) + [s[|s| - 1]]
  }

  /** What `AfterLastDot` returns is the part of the name after some '.'. */
  lemma {:induction false} AfterLastDotSplits(s: string)
    requires '.' in s
    ensures |AfterLastDot(s)| < |s|
    ensures s == s[..|s| - |AfterLastDot(s)| - 1] + "." + AfterLastDot(s)
    decreases |s|
  {
    if s[|s| - 1] != '.' {
      var init := s[..|s| - 1];
      assert s == init + [s[|s| - 1]];
      AfterLastDotSplits(init);
    }
  }

  /** Any name split at a '.' followed by a dot-free extension yields that extension. */
  lemma {:induction false} AfterLastDotOf(stem: string, ext: string)
    requires '.' !in ext
    ensures AfterLastDot(stem + "." + ext) == ext
    decreases |ext|
  {
    var s := stem + "." + ext;
    if ext != [] {
      var init := ext[..|ext| - 1];
      assert s[..|s| - 1] == stem + "." + init;
      AfterLastDotOf(stem, init);
      assert ext == init + [ext[|ext| - 1]];
    }
  }

  /** `allowed_file`: a '.' and, after the last one, an allowed extension in any letter case. */
  predicate AllowedFile(filename: string) {
    '.' in filename && Lower(AfterLastDot(filename)) in Config.AllowedExtensions
  }

  /** A name is allowed exactly when it is some stem, a '.', and a dot-free allowed extension. */
  lemma AllowedFileIff(stem: string, ext: string)
    requires '.' !in ext
    ensures AllowedFile(stem + "." + ext) <==> Lower(ext) in Config.AllowedExtensions
  {
    assert '.' in stem + "." + ext by {
      assert (stem + "." + ext)[|stem|] == '.';
    }
    AfterLastDotOf(stem, ext);
  }

  /** A name without a '.' is never allowed, whatever it ends with. */
  lemma NoDotNotAllowed(filename: string)
    requires '.' !in filename
    ensures !AllowedFile(filename)
  {
  }

  // ---------------------------------------------------------------- the request checks

  /** The uploaded part named `resume`. */
  datatype FilePart = FilePart(filename: string)

  /** The request: the optional file part, and the form field `job_description`, "" when absent. */
  datatype Request = Request(resume: Option<FilePart>, jobDescription: string)

  const NoResumeError := "No resume file provided"
  const NoFileSelectedError := "No file selected"
  const NoJobDescriptionError := "No job description provided"
  const InvalidFormatError := "Invalid file format. Only PDF and DOCX allowed"

  /** The first failed check of `analyze_resume`, if any; each one answers with status 400. */
  function ValidationError(req: Request): Option<string> {
    if req.resume.None? then Some(NoResumeError)
    else if req.resume.value.filename == "" then Some(NoFileSelectedError)
    else if req.jobDescription == "" then Some(NoJobDescriptionError)
    else if !AllowedFile(req.resume.value.filename) then Some(InvalidFormatError)
    else None
  }

  /**
   * Each error is reported exactly when the checks before it pass and its own
   * fails; a request passes when all four hold. The description only has to
   * be non-empty.
   */
  lemma ValidationOrder(req: Request)
    ensures ValidationError(req) == Some(NoResumeError) <==> req.resume.None?
    ensures ValidationError(req) == Some(NoFileSelectedError) <==>
      req.resume.Some? && req.resume.value.filename == ""
    ensures ValidationError(req) == Some(NoJobDescriptionError) <==>
      req.resume.Some? && req.resume.value.filename != "" && req.jobDescription == ""
    ensures ValidationError(req) == Some(InvalidFormatError) <==>
      req.resume.Some? && req.resume.value.filename != "" && req.jobDescription != "" &&
      !AllowedFile(req.resume.value.filename)
    ensures ValidationError(req) == None <==>
      req.resume.Some? && req.jobDescription != "" && AllowedFile(req.resume.value.filename)
  {
  }

  /**
   * A ".doc" upload passes every check, although `parse_resume` only reads
   * ".pdf" and ".docx" names (`ResumeParser.DocRejected`).
   */
  lemma DocPassesChecks(stem: string, jobDescription: string)
    requires jobDescription != ""
    ensures ValidationError(Request(Some(FilePart(stem + ".doc")), jobDescription)) == None
  {
    assert Lower("doc") == "doc";
    assert stem + ".doc" == stem + "." + "doc";
    AllowedFileIff(stem, "doc");
  }

  /**
   * The extension check lower-cases, the parser does not: an upper-case
   * ".PDF" upload passes every check (`ResumeParser.UpperPdfRejected`).
   */
  lemma UpperPdfPassesChecks(stem: string, jobDescription: string)
    requires jobDescription != ""
    ensures ValidationError(Request(Some(FilePart(stem + ".PDF")), jobDescription)) == None
  {
    assert Lower("PDF") == "pdf";
    assert stem + ".PDF" == stem + "." + "PDF";
    AllowedFileIff(stem, "PDF");
  }

  // ---------------------------------------------------------------- the response

  /** `resume_sections`: whether each of four sections has text, and the word count. */
  datatype SectionFlags = SectionFlags(hasSummary: bool, hasExperience: bool, hasEducation: bool,
                                       hasSkills: bool, wordCount: nat)

  /** `bool(sections.get(name))` for each flag. */
  function SectionFlagsOf(resume: ParsedResume): (f: SectionFlags)
    ensures f.hasSummary <==> SectionText(resume.sections, Summary) != ""
    ensures f.hasExperience <==> SectionText(resume.sections, Experience) != ""
    ensures f.hasEducation <==> SectionText(resume.sections, Education) != ""
    ensures f.hasSkills <==> SectionText(resume.sections, Skills) != ""
    ensures f.wordCount == resume.totalWords
  {
    SectionFlags(SectionText(resume.sections, Summary) != "", SectionText(resume.sections, Experience) != "",
                 SectionText(resume.sections, Education) != "", SectionText(resume.sections, Skills) != "",
                 resume.totalWords)
  }

  /** The `llm_suggestions` field: `{}` when disabled, the generator's record, or the failure notice. */
  datatype LlmField =
    | LlmOmitted
    | LlmProduced(suggestions: LlmSuggestions)
    | LlmFailed(llmUnavailable: bool, message: string)

  const LlmFailedMessage := "AI suggestions temporarily unavailable"

  /** How an escaping generator error is absorbed into the response. */
  function LlmFieldOf(enabled: bool, raised: bool, generated: LlmSuggestions): LlmField {
    if !enabled then LlmOmitted
    else if raised then LlmFailed(true, LlmFailedMessage)
    else LlmProduced(generated)
  }

  datatype KeywordReport = KeywordReport(found: JobKeywords, missing: MissingKeywords, density: real)

  datatype Analysis = Analysis(
    score: AtsScore,
    keywords: KeywordReport,
    suggestions: Suggestions,
    llmSuggestions: LlmField,
    resumeSections: SectionFlags,
    contactInfo: map<string, string>)

  /** The three kinds of answer: a 400 with its error, a 200 with the analysis, a 500 with the exception text. */
  datatype Response =
    | BadRequest(error: string)
    | Analyzed(analysis: Analysis)
    | ServerError(error: string)

  function StatusCode(r: Response): (code: nat)
    ensures code == 200 <==> r.Analyzed?
  {
    match r
    case BadRequest(_) => 400
    case Analyzed(_) => 200
    case ServerError(_) => 500
  }

  /** The `success` field: true on the analysis, false on a server error, absent on a 400. */
  function SuccessFlag(r: Response): Option<bool> {
    match r
    case BadRequest(_) => None
    case Analyzed(_) => Some(true)
    case ServerError(_) => Some(false)
  }

  /**
   * The outcome of everything the model does not compute: the name
   * `secure_filename` produces, the document library's text, the contact
   * and education patterns, the language model's analysis of the job
   * description, the two similarity measures, the generator's replies, and
   * whether a generator call raised an error past its own handlers.
   */
  datatype Services = Services(
    secureFilename: string -> string,
    extraction: Extraction,
    email: string -> Option<string>,
    phone: string -> Option<string>,
    linkedin: string -> Option<string>,
    nlp: Option<NlpDoc>,
    contextMatches: (string, string) -> seq<string>,
    certificationMatches: string -> seq<string>,
    experienceSimilarity: Option<Fraction>,
    semantic: real,
    replies: Replies,
    llmRaises: bool)

  /** `os.path.join(Config.UPLOAD_FOLDER, filename)`. */
  function SavedPath(filename: string): string {
    Config.UploadFolder + "/" + filename
  }

  /** The parse of the saved upload. */
  function ParsedUpload(req: Request, env: Services): Result<ParsedResume, string>
    requires req.resume.Some?
  {
    ParseResume(SavedPath(env.secureFilename(req.resume.value.filename)), env.extraction,
                env.email, env.phone, env.linkedin)
  }

  /**
   * What a successful answer holds: the job keywords found in the description,
   * the ones the resume lacks, the score, the density and the suggestions,
   * all from the parsed resume; the language-model part is the only one that
   * depends on the generator.
   */
  ghost predicate Describes(a: Analysis, resume: ParsedResume, jobDescription: string, env: Services,
                            available: bool)
  {
    && KeywordsDescribe(a.keywords, resume, jobDescription, env)
    && ScoresDescribe(a, resume, env)
    && a.llmSuggestions == LlmFieldOf(Config.OllamaEnabled, env.llmRaises,
                                      SuggestionsFor(available, a.keywords.missing, env.replies))
    && a.resumeSections == SectionFlagsOf(resume)
    && a.contactInfo == resume.contactInfo
  }

  /** The keywords found in the description and the ones the resume lacks. */
  ghost predicate KeywordsDescribe(k: KeywordReport, resume: ParsedResume, jobDescription: string, env: Services) {
    && k.found.technicalSkills == Filter(TechSkills, OccursIn(Lower(jobDescription)))
    && k.found.softSkills == Filter(SoftSkills, OccursIn(Lower(jobDescription)))
    && k.found.requiredExperience == ExperienceEntries(Lower(jobDescription))
    && k.found.education == EducationMatches(EducationKeywords, Lower(jobDescription), env.contextMatches)
    && k.found.certifications == env.certificationMatches(jobDescription)
    && k.found.allKeywords == AllKeywords(k.found.technicalSkills + k.found.softSkills
                                          + Phrases(env.nlp, Lower(jobDescription)) + EntityTexts(env.nlp))
    && k.missing.technicalSkills == Filter(k.found.technicalSkills, AbsentFrom(Lower(resume.rawText)))
    && k.missing.softSkills == Filter(k.found.softSkills, AbsentFrom(Lower(resume.rawText)))
    && k.missing.education == Filter(k.found.education, AbsentFrom(Lower(resume.rawText)))
    && k.missing.certifications == Filter(k.found.certifications, AbsentFrom(Lower(resume.rawText)))
    && k.missing.other == Filter(k.found.allKeywords,
                                 OtherAbsent(Lower(resume.rawText), k.missing.technicalSkills, k.missing.softSkills))
    && k.density == KeywordDensity(resume.rawText, k.found.allKeywords)
  }

  /** The score and the rule-based suggestions drawn from it, with their summary. */
  ghost predicate ScoresDescribe(a: Analysis, resume: ParsedResume, env: Services) {
    RulesDescribe(a.score, a.suggestions, a.keywords, resume, env)
  }

  /** The score of the resume against the found keywords, and the suggestions for that score and the gaps. */
  ghost predicate RulesDescribe(score: AtsScore, s: Suggestions, k: KeywordReport, resume: ParsedResume, env: Services) {
    && score == CalculateScore(resume, k.found, env.experienceSimilarity, env.semantic)
    && s.critical == CriticalItems(score.overallScore, score.categoryScores, k.missing)
    && s.important == ImportantItems(score.categoryScores, k.missing)
    && s.recommended == RecommendedItems(k.missing, score.categoryScores, resume.sections)
    && s.formatting == FormattingTipsOf(resume.sections)
    && s.summary == SummaryOf(score.overallScore, k.missing, s.critical, s.important, s.recommended)
  }

  /** The guarded call of the generator, with an escaping error turned into a notice. */
  method LlmPart(jobDescription: string, missing: MissingKeywords, sections: map<Section, string>,
                 overallScore: real, env: Services, generator: LlmSuggestionGenerator) returns (llm: LlmField)
    ensures llm == LlmFieldOf(Config.OllamaEnabled, env.llmRaises,
                              SuggestionsFor(generator.ollamaAvailable, missing, env.replies))
  {
    llm := LlmOmitted;
    if Config.OllamaEnabled {
      if env.llmRaises {
        llm := LlmFailed(true, LlmFailedMessage);
      } else {
        var generated := generator.GenerateSuggestions(jobDescription, missing, sections, overallScore, env.replies);
        llm := LlmProduced(generated);
      }
    }
  }

  /** The keyword steps of `analyze_resume`: extraction, the gaps and the density. */
  method KeywordPart(jobDescription: string, resume: ParsedResume, env: Services) returns (k: KeywordReport)
    ensures KeywordsDescribe(k, resume, jobDescription, env)
  {
    var job := ExtractKeywords(jobDescription, env.nlp, env.contextMatches, env.certificationMatches);
    var missing := FindMissingKeywords(resume.rawText, job);
    k := KeywordReport(job, missing, KeywordDensity(resume.rawText, job.allKeywords));
  }

  /** The scoring and rule-based suggestion steps of `analyze_resume`. */
  method RulePart(resume: ParsedResume, k: KeywordReport, env: Services) returns (score: AtsScore, s: Suggestions)
    ensures RulesDescribe(score, s, k, resume, env)
  {
    score := CalculateScore(resume, k.found, env.experienceSimilarity, env.semantic);
    s := GenerateSuggestions(k.missing, score.overallScore, score.categoryScores, resume.sections);
  }

  /** The body of the inner `try` of `analyze_resume`, after the resume was parsed. */
  method AssembleAnalysis(jobDescription: string, resume: ParsedResume, env: Services,
                          generator: LlmSuggestionGenerator) returns (a: Analysis)
    ensures KeywordsDescribe(a.keywords, resume, jobDescription, env)
    ensures ScoresDescribe(a, resume, env)
    ensures a.llmSuggestions == LlmFieldOf(Config.OllamaEnabled, env.llmRaises,
                                           SuggestionsFor(generator.ollamaAvailable, a.keywords.missing, env.replies))
    ensures a.resumeSections == SectionFlagsOf(resume) && a.contactInfo == resume.contactInfo
  {
    var contact := resume.contactInfo;
    assert contact == resume.contactInfo;
    var keywords := KeywordPart(jobDescription, resume, env);
    var score, suggestions := RulePart(resume, keywords, env);
    var llm := LlmPart(jobDescription, keywords.missing, resume.sections, score.overallScore, env, generator);
    a := Analysis(score, keywords, suggestions, llm, SectionFlagsOf(resume), contact);
  }

  /**
   * `analyze_resume`: a failed check answers 400; a parse failure answers 500
   * with its message; otherwise the answer is the analysis of the parsed resume.
   */
  method AnalyzeResume(req: Request, env: Services, generator: LlmSuggestionGenerator) returns (resp: Response)
    ensures ValidationError(req).Some? ==> resp == BadRequest(ValidationError(req).value)
    ensures ValidationError(req).None? && ParsedUpload(req, env).Failure? ==>
      resp == ServerError(ParsedUpload(req, env).error)
    ensures resp.Analyzed? <==> ValidationError(req).None? && ParsedUpload(req, env).Success?
    ensures resp.Analyzed? ==>
      ValidationError(req).None? && ParsedUpload(req, env).Success? &&
      Describes(resp.analysis, ParsedUpload(req, env).value, req.jobDescription, env, generator.ollamaAvailable)
  {
    var invalid := ValidationError(req);
    if invalid.Some? {
      return BadRequest(invalid.value);
    }
    var parsed := ParsedUpload(req, env);
    if parsed.Failure? {
      return ServerError(parsed.error);
    }
    var analysis := AssembleAnalysis(req.jobDescription, parsed.value, env, generator);
    resp := Analyzed(analysis);
  }

  /**
   * The resume parser never fills the summary, experience, education or
   * skills sections, so every successful answer reports all four as absent.
   */
  lemma ParsedResumeHasNoSectionFlags(req: Request, env: Services)
    requires req.resume.Some?
    requires ParsedUpload(req, env).Success?
    ensures var f := SectionFlagsOf(ParsedUpload(req, env).value);
            !f.hasSummary && !f.hasExperience && !f.hasEducation && !f.hasSkills
  {
    var path := SavedPath(env.secureFilename(req.resume.value.filename));
    ParsedSectionsEmpty(path, env.extraction, env.email, env.phone, env.linkedin);
  }
}
