/**
 * Keyword extraction from a job description and gap finding against a resume.
 *
 * Every match is lowercase substring containment. The source keeps both
 * vocabularies in Python sets and de-duplicates `all_keywords` through a set,
 * whose iteration order is not fixed; the model uses declaration order and
 * first-occurrence order respectively.
 */
module KeywordExtractor {
  import opened Wrappers
  import opened Text
  import opened Seqs
  import Config

  // ---------------------------------------------------------------- vocabularies

  /** The technical vocabulary, in the source's line groups. */
  const TechSkills: seq<string> :=
    Languages + Frameworks + DataStores + CloudAndTooling + MachineLearning + DataLibraries + Practices

  const Languages: seq<string> := ["python", "java", "javascript", "c++", "c#", "ruby", "php", "swift", "kotlin"]
  const Frameworks: seq<string> := ["react", "angular", "vue", "node.js", "django", "flask", "spring", "express"]
  const DataStores: seq<string> := ["sql", "mysql", "postgresql", "mongodb", "redis", "elasticsearch"]
  const CloudAndTooling: seq<string> := ["aws", "azure", "gcp", "docker", "kubernetes", "jenkins", "git", "ci/cd"]
  const MachineLearning: seq<string> := ["machine learning", "deep learning", "ai", "nlp", "computer vision"]
  const DataLibraries: seq<string> := ["tensorflow", "pytorch", "scikit-learn", "pandas", "numpy"]
  const Practices: seq<string> := ["agile", "scrum", "jira", "rest api", "graphql", "microservices"]

  const SoftSkills: seq<string> := [
    "leadership", "communication", "teamwork", "problem solving", "analytical",
    "creative", "adaptable", "organized", "detail-oriented", "collaborative",
    "time management", "critical thinking", "decision making", "presentation"
  ]

  const EducationKeywords: seq<string> := ["bachelor", "master", "phd", "degree", "diploma", "certification"]

  /** Entity labels whose text joins the keyword list. */
  const EntityLabels: set<string> := {"ORG", "PRODUCT", "SKILL", "GPE"}

  // ---------------------------------------------------------------- data

  datatype Entity = Entity(text: string, category: string)

  /** The NLP model's reading of the lowercased job description. */
  datatype NlpDoc = NlpDoc(nounChunks: seq<string>, entities: seq<Entity>)

  /** The dictionary `extract_keywords` returns. */
  datatype JobKeywords = JobKeywords(
    technicalSkills: seq<string>,
    softSkills: seq<string>,
    requiredExperience: seq<string>,
    education: seq<string>,
    certifications: seq<string>,
    allKeywords: seq<string>)

  /** The dictionary `find_missing_keywords` returns. */
  datatype MissingKeywords = MissingKeywords(
    technicalSkills: seq<string>,
    softSkills: seq<string>,
    education: seq<string>,
    certifications: seq<string>,
    other: seq<string>)

  // ---------------------------------------------------------------- vocabulary matching

  /** Holds of the strings that occur in `text`. */
  function OccursIn(text: string): string -> bool {
    s => Contains(text, s)
  }

  /** The vocabulary entries that occur in the lowercased description, in vocabulary order. */
  method MatchVocabulary(vocabulary: seq<string>, descriptionLower: string) returns (found: seq<string>)
    ensures found == Filter(vocabulary, OccursIn(descriptionLower))
  {
    found := [];
    var i := 0;
    while i < |vocabulary|
      invariant 0 <= i <= |vocabulary|
      invariant found == Filter(vocabulary[..i], OccursIn(descriptionLower))
    {
      FilterSnoc(vocabulary[..i], vocabulary[i], OccursIn(descriptionLower));
      assert vocabulary[..i + 1] == vocabulary[..i] + [vocabulary[i]];
      if Contains(descriptionLower, vocabulary[i]) {
        found := found + [vocabulary[i]];
      }
      i := i + 1;
    }
    assert vocabulary[..i] == vocabulary;
  }

  /** A skill is reported exactly when it is in the vocabulary and occurs in the lowercased description. */
  lemma VocabularyMatchIff(vocabulary: seq<string>, jobDescription: string, skill: string)
    ensures skill in Filter(vocabulary, OccursIn(Lower(jobDescription)))
            <==> skill in vocabulary && Contains(Lower(jobDescription), skill)
  {
    FilterMember(vocabulary, OccursIn(Lower(jobDescription)), skill);
  }

  /** Matching is by substring, not by word: every description that mentions "javascript"
      also reports "java", and every one that mentions "maintain" reports "ai". */
  lemma SubstringMatching(jobDescription: string)
    ensures Contains(Lower(jobDescription), "javascript") ==> "java" in Filter(TechSkills, OccursIn(Lower(jobDescription)))
    ensures Contains(Lower(jobDescription), "maintain") ==> "ai" in Filter(TechSkills, OccursIn(Lower(jobDescription)))
  {
    var t := Lower(jobDescription);
    assert "java" in Languages && "ai" in MachineLearning;
    if Contains(t, "javascript") {
      var i := ContainsWitness(t, "javascript");
      assert t[i..i + 4] == "javascript"[..4];
      ContainsAt(t, "java", i);
      FilterMember(TechSkills, OccursIn(t), "java");
    }
    if Contains(t, "maintain") {
      var i := ContainsWitness(t, "maintain");
      assert t[i + 1..i + 3] == t[i..i + 8][1..3];
      assert "maintain"[1..3] == "ai";
      ContainsAt(t, "ai", i + 1);
      FilterMember(TechSkills, OccursIn(t), "ai");
    }
  }

  // ---------------------------------------------------------------- fallback phrases

  /** Length of the leading run of `\w` characters. */
  function WordCharRun(s: string): (k: nat)
    ensures 0 < |s| && IsWordChar(s[0]) ==> 0 < k
    ensures k <= |s|
    ensures forall i :: 0 <= i < k ==> IsWordChar(s[i])
  {
    if s == [] || !IsWordChar(s[0]) then 0 else 1 + WordCharRun(s[1..])
  }

  predicate AllLowerLetters(w: string) {
    forall i :: 0 <= i < |w| ==> IsLowerLetter(w[i])
  }

  /**
   * The matches of `\b[a-z]{3,}\b`: the maximal runs of word characters made
   * only of the letters a-z and at least three long.
   */
  function LetterWords(s: string): (r: seq<string>)
    ensures forall i :: 0 <= i < |r| ==> |r[i]| >= 3 && AllLowerLetters(r[i])
    decreases |s|
  {
    if s == [] then []
    else if !IsWordChar(s[0]) then LetterWords(s[1..])
    else
      var k := WordCharRun(s);
      (if k >= 3 && AllLowerLetters(s[..k]) then [s[..k]] else []) + LetterWords(s[k..])
  }

  /** Each consecutive pair of words, joined by a space. */
  function WordPairs(words: seq<string>): (r: seq<string>)
    ensures |words| == 0 ==> |r| == 0
    ensures |words| > 0 ==> |r| == |words| - 1
    ensures forall i :: 0 <= i < |r| ==> r[i] == words[i] + " " + words[i + 1]
  {
    if |words| == 0 then []
    else seq(|words| - 1, i requires 0 <= i < |words| - 1 => words[i] + " " + words[i + 1])
  }

  /** Holds of strings longer than `n`. */
  function LongerThan(n: nat): string -> bool {
    s => |s| > n
  }

  /** The phrase loop of the fallback path: each consecutive pair, kept when longer than the minimum length. */
  method Bigrams(words: seq<string>) returns (phrases: seq<string>)
    ensures phrases == Filter(WordPairs(words), LongerThan(Config.MinKeywordLength))
  {
    phrases := [];
    var pairs := WordPairs(words);
    var i := 0;
    while i + 1 < |words|
      invariant |words| == 0 || i <= |words| - 1
      invariant |words| == 0 ==> i == 0
      invariant phrases == Filter(pairs[..i], LongerThan(Config.MinKeywordLength))
    {
      var phrase := words[i] + " " + words[i + 1];
      FilterSnoc(pairs[..i], pairs[i], LongerThan(Config.MinKeywordLength));
      assert pairs[..i + 1] == pairs[..i] + [phrase];
      if |phrase| > Config.MinKeywordLength {
        phrases := phrases + [phrase];
      }
      i := i + 1;
    }
    assert pairs[..i] == pairs;
  }

  /** On the extracted words the length filter drops nothing: n words give max(0, n-1) phrases, each longer than the minimum. */
  lemma FallbackPhrases(descriptionLower: string)
    ensures var words := LetterWords(descriptionLower);
            var phrases := Filter(WordPairs(words), LongerThan(Config.MinKeywordLength));
            && phrases == WordPairs(words)
            && |phrases| == (if |words| == 0 then 0 else |words| - 1)
            && forall i :: 0 <= i < |phrases| ==> |phrases[i]| > Config.MinKeywordLength
  {
    var words := LetterWords(descriptionLower);
    var pairs := WordPairs(words);
    assert forall i :: 0 <= i < |pairs| ==> LongerThan(Config.MinKeywordLength)(pairs[i]);
    FilterKeepsAll(pairs, LongerThan(Config.MinKeywordLength));
  }

  // ---------------------------------------------------------------- years of experience

  /** Length of the leading run of decimal digits. */
  function DigitRun(s: string): (k: nat)
    ensures k <= |s|
    ensures forall i :: 0 <= i < k ==> IsDigit(s[i])
  {
    if s == [] || !IsDigit(s[0]) then 0 else 1 + DigitRun(s[1..])
  }

  /** A match of the years pattern: where its digit run ends and where the match ends. */
  datatype YearMatch = YearMatch(digitsEnd: nat, matchEnd: nat)

  /**
   * The match of `(\d+)\+?\s*years?` starting at `from`, if any: a digit run,
   * an optional '+', optional whitespace, "year", an optional 's'. Backtracking
   * cannot produce any other match: each part is followed by a character the
   * previous part does not accept.
   */
  function YearMatchAt(s: string, from: nat): (m: Option<YearMatch>)
    requires from < |s|
    ensures m.Some? ==> from < m.value.digitsEnd < m.value.matchEnd <= |s|
    ensures m.Some? ==> forall j :: from <= j < m.value.digitsEnd ==> IsDigit(s[j])
    ensures m.Some? ==> Contains(s, "year")
  {
    var digitsEnd := from + DigitRun(s[from..]);
    if digitsEnd == from then None
    else
      var plusEnd := if digitsEnd < |s| && s[digitsEnd] == '+' then digitsEnd + 1 else digitsEnd;
      var spaceEnd := |s| - |TrimStart(s[plusEnd..], IsPySpace)|;
      if StartsWith(s[spaceEnd..], "year") then
        StartsWithAt(s, "year", spaceEnd);
        Some(YearMatch(digitsEnd, if spaceEnd + 4 < |s| && s[spaceEnd + 4] == 's' then spaceEnd + 5 else spaceEnd + 4))
      else None
  }

  /** The capture groups of the years pattern, scanning left to right from `from` and resuming after each match. */
  function YearCounts(s: string, from: nat): (r: seq<string>)
    ensures forall i :: 0 <= i < |r| ==> r[i] != [] && forall j :: 0 <= j < |r[i]| ==> IsDigit(r[i][j])
    decreases |s| - from
  {
    if from >= |s| then []
    else
      match YearMatchAt(s, from)
      case Some(m) => [s[from..m.digitsEnd]] + YearCounts(s, m.matchEnd)
      case None => YearCounts(s, from + 1)
  }

  function YearsEntry(count: string): string {
    count + " years"
  }

  /** `required_experience`: one "N years" entry per match, in order. */
  function ExperienceEntries(descriptionLower: string): (r: seq<string>)
    ensures |r| == |YearCounts(descriptionLower, 0)|
  {
    Map(YearCounts(descriptionLower, 0), YearsEntry)
  }

  /** Every entry is a non-empty run of digits followed by " years". */
  lemma ExperienceEntriesShape(descriptionLower: string, i: nat)
    requires i < |ExperienceEntries(descriptionLower)|
    ensures var e := ExperienceEntries(descriptionLower)[i];
            var d := YearCounts(descriptionLower, 0)[i];
            && e == d + " years" && d != [] && forall j :: 0 <= j < |d| ==> IsDigit(d[j])
  {
  }

  /** A description in which "year" does not occur yields no experience entry. */
  lemma {:induction false} YearCountsNeedYear(s: string, from: nat)
    requires !Contains(s, "year")
    ensures YearCounts(s, from) == []
    decreases |s| - from
  {
    if from < |s| {
      YearCountsNeedYear(s, from + 1);
    }
  }

  // ---------------------------------------------------------------- education

  /**
   * The education entries: for each education keyword that occurs in the
   * lowercased description, in keyword order, the matches of the context
   * pattern around it. `contextMatches(keyword, text)` stands for the
   * `findall` of that pattern.
   */
  function EducationMatches(keywords: seq<string>, descriptionLower: string,
                            contextMatches: (string, string) -> seq<string>): seq<string>
    decreases |keywords|
  {
    if keywords == [] then []
    else
      var last := keywords[|keywords| - 1];
      EducationMatches(keywords[..|keywords| - 1], descriptionLower, contextMatches)
      + (if Contains(descriptionLower, last) then contextMatches(last, descriptionLower) else [])
  }

  /** The context pattern is only consulted for keywords that occur: with none present there are no entries. */
  lemma {:induction false} EducationNeedsKeyword(keywords: seq<string>, descriptionLower: string,
                                              contextMatches: (string, string) -> seq<string>)
    requires forall k :: k in keywords ==> !Contains(descriptionLower, k)
    ensures EducationMatches(keywords, descriptionLower, contextMatches) == []
    decreases |keywords|
  {
    if keywords != [] {
      EducationNeedsKeyword(keywords[..|keywords| - 1], descriptionLower, contextMatches);
    }
  }

  // ---------------------------------------------------------------- the combined list

  /** Noun chunks of at most three words and longer than the minimum length. */
  function ShortPhrase(): string -> bool {
    c => |Words(c)| <= 3 && |c| > Config.MinKeywordLength
  }

  function HasEntityLabel(): Entity -> bool {
    (e: Entity) => e.category in EntityLabels
  }

  function EntityText(e: Entity): string { e.text }

  /** The phrase candidates: the model's short noun chunks, or the fallback bigrams when no model is loaded. */
  function Phrases(nlp: Option<NlpDoc>, descriptionLower: string): seq<string> {
    match nlp
    case Some(doc) => Filter(doc.nounChunks, ShortPhrase())
    case None => Filter(WordPairs(LetterWords(descriptionLower)), LongerThan(Config.MinKeywordLength))
  }

  /** The entity candidates: texts of entities with a selected label; none without a model. */
  function EntityTexts(nlp: Option<NlpDoc>): seq<string> {
    match nlp
    case Some(doc) => Map(Filter(doc.entities, HasEntityLabel()), EntityText)
    case None => []
  }

  /** Holds of strings whose stripped form is longer than two characters. */
  function StripsLong(): string -> bool {
    s => |s| > 2
  }

  /** Strip every candidate, keep those longer than two, de-duplicate, keep the first fifty. */
  function AllKeywords(candidates: seq<string>): (r: seq<string>)
    ensures |r| <= Config.MaxKeywords
  {
    Take(Dedup(Filter(Map(candidates, Strip), StripsLong())), Config.MaxKeywords)
  }

  /** `all_keywords` is duplicate-free and holds at most fifty entries. */
  lemma AllKeywordsDistinct(candidates: seq<string>)
    ensures NoDup(AllKeywords(candidates))
    ensures |AllKeywords(candidates)| <= 50
  {
    var d := Dedup(Filter(Map(candidates, Strip), StripsLong()));
    NoDupPrefix(d, |AllKeywords(candidates)|);
  }

  /** Every `all_keywords` entry is the strip of a candidate, is stripped, and is longer than two characters. */
  lemma AllKeywordsEntries(candidates: seq<string>, i: nat)
    requires i < |AllKeywords(candidates)|
    ensures var kw := AllKeywords(candidates)[i];
            |kw| > 2 && Strip(kw) == kw && kw in Map(candidates, Strip)
  {
    var stripped := Map(candidates, Strip);
    var d := Dedup(Filter(stripped, StripsLong()));
    var kw := AllKeywords(candidates)[i];
    assert kw == d[i];
    FilterMember(stripped, StripsLong(), kw);
    var j :| 0 <= j < |stripped| && stripped[j] == kw;
    StripIdempotent(candidates[j]);
  }

  /** Nothing is lost below the cap: when at most fifty distinct keywords qualify, each qualifying candidate is kept. */
  lemma AllKeywordsComplete(candidates: seq<string>, c: string)
    requires |Dedup(Filter(Map(candidates, Strip), StripsLong()))| <= Config.MaxKeywords
    requires c in candidates && |Strip(c)| > 2
    ensures Strip(c) in AllKeywords(candidates)
  {
    var stripped := Map(candidates, Strip);
    var j :| 0 <= j < |candidates| && candidates[j] == c;
    assert stripped[j] == Strip(c);
    FilterMember(stripped, StripsLong(), Strip(c));
  }

  // ---------------------------------------------------------------- extract_keywords

  /** The phrase and entity candidates of one description. */
  method CandidatePhrases(nlp: Option<NlpDoc>, descriptionLower: string) returns (phrases: seq<string>, entities: seq<string>)
    ensures phrases == Phrases(nlp, descriptionLower)
    ensures entities == EntityTexts(nlp)
  {
    match nlp {
      case Some(doc) =>
        phrases := Filter(doc.nounChunks, ShortPhrase());
        entities := Map(Filter(doc.entities, HasEntityLabel()), EntityText);
      case None =>
        phrases := Bigrams(LetterWords(descriptionLower));
        entities := [];
    }
  }

  /** The education loop of `extract_keywords`. */
  method EducationEntries(descriptionLower: string, contextMatches: (string, string) -> seq<string>)
    returns (education: seq<string>)
    ensures education == EducationMatches(EducationKeywords, descriptionLower, contextMatches)
  {
    education := [];
    var i := 0;
    while i < |EducationKeywords|
      invariant 0 <= i <= |EducationKeywords|
      invariant education == EducationMatches(EducationKeywords[..i], descriptionLower, contextMatches)
    {
      var keyword := EducationKeywords[i];
      assert EducationKeywords[..i + 1][..i] == EducationKeywords[..i];
      if Contains(descriptionLower, keyword) {
        education := education + contextMatches(keyword, descriptionLower);
      }
      i := i + 1;
    }
    assert EducationKeywords[..i] == EducationKeywords;
  }

  /** `extract_keywords`: the model output `nlp` is that of the lowercased description, and
      `certificationMatches` stands for the certification pattern's `findall` on the original text. */
  method ExtractKeywords(jobDescription: string, nlp: Option<NlpDoc>,
                         contextMatches: (string, string) -> seq<string>,
                         certificationMatches: string -> seq<string>) returns (k: JobKeywords)
    ensures k.technicalSkills == Filter(TechSkills, OccursIn(Lower(jobDescription)))
    ensures k.softSkills == Filter(SoftSkills, OccursIn(Lower(jobDescription)))
    ensures k.requiredExperience == ExperienceEntries(Lower(jobDescription))
    ensures k.education == EducationMatches(EducationKeywords, Lower(jobDescription), contextMatches)
    ensures k.certifications == certificationMatches(jobDescription)
    ensures k.allKeywords == AllKeywords(k.technicalSkills + k.softSkills
                                         + Phrases(nlp, Lower(jobDescription)) + EntityTexts(nlp))
  {
    var lower := Lower(jobDescription);
    var technical := MatchVocabulary(TechSkills, lower);
    var soft := MatchVocabulary(SoftSkills, lower);

    var phrases, entities := CandidatePhrases(nlp, lower);
    var education := EducationEntries(lower, contextMatches);

    var experience: seq<string> := [];
    var counts := YearCounts(lower, 0);
    if |counts| > 0 {
      experience := Map(counts, YearsEntry);
    }

    k := JobKeywords(technical, soft, experience, education, certificationMatches(jobDescription),
                     AllKeywords(technical + soft + phrases + entities));
  }

  // ---------------------------------------------------------------- find_missing_keywords

  /** Holds of keywords whose lowercase does not occur in the lowercased resume. */
  function AbsentFrom(resumeLower: string): string -> bool {
    kw => !Contains(resumeLower, Lower(kw))
  }

  /** Holds of keywords whose lowercase occurs in the lowercased resume. */
  function FoundIn(resumeLower: string): string -> bool {
    kw => Contains(resumeLower, Lower(kw))
  }

  /** Holds of `all_keywords` entries that are absent and not already reported as missing skills. */
  function OtherAbsent(resumeLower: string, technicalMissing: seq<string>, softMissing: seq<string>): string -> bool {
    kw => !Contains(resumeLower, Lower(kw)) && kw !in technicalMissing && kw !in softMissing
  }

  /** One category loop of `find_missing_keywords`. */
  method MissingFrom(keywords: seq<string>, resumeLower: string) returns (missing: seq<string>)
    ensures missing == Filter(keywords, AbsentFrom(resumeLower))
  {
    missing := [];
    var i := 0;
    while i < |keywords|
      invariant 0 <= i <= |keywords|
      invariant missing == Filter(keywords[..i], AbsentFrom(resumeLower))
    {
      FilterSnoc(keywords[..i], keywords[i], AbsentFrom(resumeLower));
      assert keywords[..i + 1] == keywords[..i] + [keywords[i]];
      if !Contains(resumeLower, Lower(keywords[i])) {
        missing := missing + [keywords[i]];
      }
      i := i + 1;
    }
    assert keywords[..i] == keywords;
  }

  /** The 'other' loop of `find_missing_keywords`. */
  method OtherMissing(all: seq<string>, resumeLower: string, technicalMissing: seq<string>, softMissing: seq<string>)
    returns (other: seq<string>)
    ensures other == Filter(all, OtherAbsent(resumeLower, technicalMissing, softMissing))
  {
    other := [];
    var i := 0;
    while i < |all|
      invariant 0 <= i <= |all|
      invariant other == Filter(all[..i], OtherAbsent(resumeLower, technicalMissing, softMissing))
    {
      var kw := all[i];
      FilterSnoc(all[..i], kw, OtherAbsent(resumeLower, technicalMissing, softMissing));
      assert all[..i + 1] == all[..i] + [kw];
      if !Contains(resumeLower, Lower(kw)) && kw !in technicalMissing && kw !in softMissing {
        other := other + [kw];
      }
      i := i + 1;
    }
    assert all[..i] == all;
  }

  method FindMissingKeywords(resumeText: string, job: JobKeywords) returns (m: MissingKeywords)
    ensures m.technicalSkills == Filter(job.technicalSkills, AbsentFrom(Lower(resumeText)))
    ensures m.softSkills == Filter(job.softSkills, AbsentFrom(Lower(resumeText)))
    ensures m.education == Filter(job.education, AbsentFrom(Lower(resumeText)))
    ensures m.certifications == Filter(job.certifications, AbsentFrom(Lower(resumeText)))
    ensures m.other == Filter(job.allKeywords, OtherAbsent(Lower(resumeText), m.technicalSkills, m.softSkills))
  {
    var resumeLower := Lower(resumeText);
    var technical := MissingFrom(job.technicalSkills, resumeLower);
    var soft := MissingFrom(job.softSkills, resumeLower);
    var education := MissingFrom(job.education, resumeLower);
    var certifications := MissingFrom(job.certifications, resumeLower);

    var other := OtherMissing(job.allKeywords, resumeLower, technical, soft);
    m := MissingKeywords(technical, soft, education, certifications, other);
  }

  /** A keyword is missing exactly when it is a job keyword whose lowercase does not occur in the resume. */
  lemma MissingIff(keywords: seq<string>, resumeText: string, kw: string)
    ensures kw in Filter(keywords, AbsentFrom(Lower(resumeText)))
            <==> kw in keywords && !Contains(Lower(resumeText), Lower(kw))
  {
    FilterMember(keywords, AbsentFrom(Lower(resumeText)), kw);
  }

  /** Missing and found keywords split the job keywords: together they are all of them, each counted once. */
  lemma MissingPartition(keywords: seq<string>, resumeText: string)
    ensures multiset(Filter(keywords, AbsentFrom(Lower(resumeText))))
            + multiset(Filter(keywords, FoundIn(Lower(resumeText)))) == multiset(keywords)
    ensures |Filter(keywords, AbsentFrom(Lower(resumeText)))| + |Filter(keywords, FoundIn(Lower(resumeText)))| == |keywords|
  {
    var absent := AbsentFrom(Lower(resumeText));
    FilterPartition(keywords, absent);
    FilterCongruent(keywords, Not(absent), FoundIn(Lower(resumeText)));
  }

  /** An 'other' entry is an absent `all_keywords` entry not reported under technical or soft skills. */
  lemma OtherIff(resumeText: string, job: JobKeywords, m: MissingKeywords, kw: string)
    requires m.technicalSkills == Filter(job.technicalSkills, AbsentFrom(Lower(resumeText)))
    requires m.softSkills == Filter(job.softSkills, AbsentFrom(Lower(resumeText)))
    requires m.other == Filter(job.allKeywords, OtherAbsent(Lower(resumeText), m.technicalSkills, m.softSkills))
    ensures kw in m.other <==> kw in job.allKeywords && !Contains(Lower(resumeText), Lower(kw))
                               && kw !in job.technicalSkills && kw !in job.softSkills
  {
    FilterMember(job.allKeywords, OtherAbsent(Lower(resumeText), m.technicalSkills, m.softSkills), kw);
    MissingIff(job.technicalSkills, resumeText, kw);
    MissingIff(job.softSkills, resumeText, kw);
  }

  // ---------------------------------------------------------------- density

  /** A found/total percentage lies in [0, 100] and is 100 exactly when everything was found. */
  lemma Percentage(found: nat, total: nat)
    requires 0 < total && found <= total
    ensures 0.0 <= (found as real / total as real) * 100.0 <= 100.0
    ensures (found as real / total as real) * 100.0 == 100.0 <==> found == total
    ensures (found as real / total as real) * 100.0 == 0.0 <==> found == 0
  {
    var f := found as real;
    var t := total as real;
    var q := f / t;
    assert q * t == f;
    assert 0.0 <= q;
    assert (q - 1.0) * t == f - t <= 0.0;
    assert q <= 1.0;
    assert q == 1.0 <==> f == t by {
      if q == 1.0 {
        assert q * t == t;
      }
    }
    assert q == 0.0 <==> f == 0.0 by {
      if q == 0.0 {
        assert q * t == 0.0;
      }
    }
  }

  /** `calculate_keyword_density`: the percentage of keywords found in the resume, 0 for no keywords. */
  function KeywordDensity(resumeText: string, keywords: seq<string>): (d: real)
    ensures 0.0 <= d <= 100.0
    ensures keywords == [] ==> d == 0.0
    ensures d == 100.0 <==> keywords != [] && forall i :: 0 <= i < |keywords| ==> Contains(Lower(resumeText), Lower(keywords[i]))
  {
    if |keywords| == 0 then 0.0
    else
      var found := |Filter(keywords, FoundIn(Lower(resumeText)))|;
      FilterKeepsAll(keywords, FoundIn(Lower(resumeText)));
      Percentage(found, |keywords|);
      (found as real / |keywords| as real) * 100.0
  }

  /** Density and the missing list are complementary: density = (total - missing) / total * 100. */
  lemma DensityComplementsMissing(resumeText: string, keywords: seq<string>)
    requires keywords != []
    ensures KeywordDensity(resumeText, keywords)
            == ((|keywords| - |Filter(keywords, AbsentFrom(Lower(resumeText)))|) as real / |keywords| as real) * 100.0
  {
    MissingPartition(keywords, resumeText);
  }
}
