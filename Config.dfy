/** The back end's fixed configuration: upload limits, scoring weights, rating thresholds, keyword limits. */
module Config {

  /** Directory uploads are saved to before parsing. */
  const UploadFolder: string := "uploads"

  /** File extensions the upload endpoint accepts. */
  const AllowedExtensions: set<string> := {"pdf", "docx", "doc"}

  /** Largest accepted upload, in bytes (5 MiB). */
  const MaxFileSize: nat := 5 * 1024 * 1024

  /** Weights of the four category scores in the overall score. */
  const SkillsWeight: real := 0.40
  const ExperienceWeight: real := 0.30
  const EducationWeight: real := 0.15
  const KeywordsWeight: real := 0.15

  /** Rating thresholds. */
  const ExcellentScore: real := 80.0
  const GoodScore: real := 60.0
  const FairScore: real := 40.0

  /** Keyword length floor and cap on the reported keyword list. */
  const MinKeywordLength: nat := 2
  const MaxKeywords: nat := 50

  /** The LLM layer is switched on. */
  const OllamaEnabled: bool := true

  /** The four weights sum to exactly one, so the overall score is a convex combination. */
  lemma WeightsSumToOne()
    ensures SkillsWeight + ExperienceWeight + EducationWeight + KeywordsWeight == 1.0
    ensures SkillsWeight > 0.0 && ExperienceWeight > 0.0 && EducationWeight > 0.0 && KeywordsWeight > 0.0
  {
  }

  /** The rating thresholds are strictly decreasing, so the bands do not overlap. */
  lemma ThresholdsDecrease()
    ensures ExcellentScore > GoodScore > FairScore > 0.0
  {
  }

  lemma UploadLimits()
    ensures AllowedExtensions == {"pdf", "docx", "doc"}
    ensures MaxFileSize == 5242880
    ensures MinKeywordLength == 2 && MaxKeywords == 50
  {
  }
}
