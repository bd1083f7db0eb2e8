# ATS Resume Checker and job tracker, modelled in Dafny

This project models the deterministic core of an ATS (applicant tracking system) resume checker and the job-application tracker that ships with it.

**Back end (Flask).**
- `config.py`: scoring weights, thresholds and limits.
- `resume_parser.py`: text cleaning, the line-driven section splitter, the extension dispatch and the word count.
- `keyword_extractor.py`: vocabulary matching, fallback bigrams, the "N years" scanner, the de-duplicated `all_keywords` list, missing-keyword lists and keyword density.
- `ats_scorer.py`: per-category scores, the weighted and blended overall score, and the rating.
- `suggestions_generator.py`: threshold rules for critical, important and recommended suggestions, formatting tips, project suggestions, the summary and the top-three actions.
- `llm_suggestion_generator.py`: the deterministic layer around the language model. This covers the input caps, the reply parsers, the template advice and the fallback record.
- `app.py`: the extension check, the ordered 400 checks and the response assembly of `/api/analyze`, including how an LLM failure is absorbed.

**Clients.**
- `backend/script.js`: the plain-JavaScript page. It covers upload checks, the form-validity flag, the analyze flow, result sections and the text report built by `exportResults`.
- `src/components/ResumeChecker.jsx`: the React page. It covers upload checks, the analyze guard, score bands, keyword tags, the AI card and the merged suggestion list.
- `src/App.jsx`: search, sort, selection and grouping of tracked jobs.
- `src/components/JobCard.jsx` and `src/components/JobDetailsModal.jsx`: forward-only status choices, the two-click delete, the delete confirmation, remarks truncation and the edit handlers.

**How the source is rendered.**
- Pure code becomes datatypes, functions and lemmas.
- Loops become methods proved against those functions.
- Components with state become classes. Their instance fields are the React state or the page's module variables, and their methods are the handlers.
- Calls a component makes to its parent's callbacks (`onUpdate`, `onDelete`, `onClose`) are returned as a sequence of `Jobs.Callback` values.

**Inputs.** Whatever the code obtains from a library or service is an input, so the model can state what the code does with it:
- the extracted PDF/DOCX text (`ResumeParser.Extraction`);
- spaCy noun chunks and entities (`KeywordExtractor.NlpDoc`);
- TF-IDF and semantic similarities (`Option<real>` in [0, 1] and a real);
- regex matches for education phrases, certifications and contact details (functions);
- the language model's replies (`Result<string, string>` per prompt);
- whether the model service answered (a boolean);
- `secure_filename` (a function).

Four findings about the source's own behaviour are proved, as written:
- The cleaned resume text never contains a newline, so `_identify_sections` always sees a single line. Every named section is therefore empty, all text lands in `other`, and every resume gets the three "Add … Section" tips (`ResumeParser.CleanedTextHasNoSections`, `SuggestionsGenerator.ParsedResumeGetsAllSectionTips`, `Api.ParsedResumeHasNoSectionFlags`).
- A `.doc` upload passes `allowed_file` but `parse_resume` rejects it, which answers 500 (`Api.DocPassesChecks`, `ResumeParser.DocRejected`). The same holds for an upper-case `.PDF` name: `allowed_file` lower-cases the extension, but `parse_resume`'s `endswith` is case-sensitive (`Api.UpperPdfPassesChecks`, `ResumeParser.UpperPdfRejected`).
- With the generator switched off the server sends `llm_suggestions: {}`. An empty object is truthy and has no `llm_unavailable`, so both pages show the AI card, and the plain page fills it with the "being generated" message (`ResumeChecker.DisabledGeneratorShowsEmptyCard`, `Script.DisabledGeneratorShowsPending`).
- The "Enhance Project Descriptions" branch can never run (`SuggestionsGenerator.EnhanceProjectsUnreachable`).

These are modelled as the code behaves. The rest of the model relies on that behaviour.

**Key order.** Flask's `jsonify` writes every dictionary with its keys sorted, and both pages read the parsed objects with `Object.entries`, which follows that order. So the plain page's report lists the category breakdown as education, experience, keyword density, skills. It lists the missing keywords as certifications, education, other, soft skills, technical skills. Its AI card shows the keyword groups and the per-category advice in sorted category order too. The model sorts each dictionary by key (`Seqs.SortByName`, an insertion sort on code-point order) and proves the orders that result.

## Model

| member | source | states |
|---|---|---|
| Config.WeightsSumToOne | backend/config.py:10-15 | the four scoring weights are positive and sum to exactly 1 |
| Config.ThresholdsDecrease | backend/config.py:18-20 | the rating thresholds decrease strictly, 80 > 60 > 40 > 0 |
| Config.UploadLimits | backend/config.py:6-7 | the allowed extensions are exactly pdf, docx and doc; the size cap is 5242880 bytes; the minimum keyword length is 2 and the keyword cap is 50 |
| ResumeParser.CollapseWhitespace | backend/resume_parser.py:60 | after collapsing, the only whitespace character left is the plain space |
| ResumeParser.CleanText | backend/resume_parser.py:57-63 | cleaned text consists only of word characters, spaces and `-.,@()&/`; it contains no newline and has no leading or trailing whitespace |
| ResumeParser.CollapseKeepsWordChars | backend/resume_parser.py:60 | collapsing whitespace keeps exactly the word characters, in order |
| ResumeParser.NoWordCharsInSpace | backend/resume_parser.py:60 | a whitespace run contains no word character |
| ResumeParser.StripKeepsWordChars | backend/resume_parser.py:63 | stripping keeps exactly the word characters, in order |
| ResumeParser.CleanKeepsWordChars | backend/resume_parser.py:57-63 | cleaning never drops, adds or reorders a letter, digit or underscore |
| ResumeParser.FirstMentioned | backend/resume_parser.py:78-82 | the chosen section is mentioned in the line and no earlier section in table order is; nothing is chosen exactly when no section is mentioned |
| ResumeParser.HeaderMeaning | backend/resume_parser.py:74-82 | a line is a header exactly when it has fewer than 5 words and mentions some section keyword; the header is the first such section in table order |
| ResumeParser.AssignedMap | backend/resume_parser.py:70-71 | the stored-lines dictionary has exactly the six section keys |
| ResumeParser.SectionAfterSnoc | backend/resume_parser.py:79-81 | a header line switches the current section; any other line keeps it |
| ResumeParser.AssignedSnoc | backend/resume_parser.py:84-85 | a non-blank, non-header line is appended to the current section only; other lines are dropped |
| ResumeParser.AssignedMapSnoc | backend/resume_parser.py:73-85 | the same one-line step, stated for the whole dictionary |
| ResumeParser.ReadLine | backend/resume_parser.py:73-85 | one line read: a header becomes the current section, a non-blank other line is stored under it, and the state matches the functional definition after that line |
| ResumeParser.CollectLines | backend/resume_parser.py:67-85 | the line loop yields the six keys, each holding the lines assigned to that section, in input order |
| ResumeParser.JoinSections | backend/resume_parser.py:88-89 | each section's value is its lines space-joined and then stripped; exactly the keys of the collected lines are kept |
| ResumeParser.IdentifySections | backend/resume_parser.py:65-91 | the method returns the six keys and agrees with the functional definition of section splitting |
| ResumeParser.EveryContentLineStoredOnce | backend/resume_parser.py:69-85 | the stored lines over all sections number exactly the non-blank non-header lines, so each lands in exactly one section |
| ResumeParser.AssignedSingle | backend/resume_parser.py:69-85 | a lone line is stored under 'other' if it is a content line, and nowhere otherwise |
| ResumeParser.SingleLineSections | backend/resume_parser.py:68-89 | text without a newline leaves every section except 'other' empty; 'other' holds the stripped text unless the line is a header or blank |
| ResumeParser.CleanedTextHasNoSections | backend/resume_parser.py:25-60 | on cleaned text, summary, experience, education, skills and certifications are always empty |
| ResumeParser.ContactInfo | backend/resume_parser.py:93-115 | the keys are among email, phone and linkedin; each key is present exactly when its pattern matches, and holds the match |
| ResumeParser.Parsed | backend/resume_parser.py:25-32 | the result carries the cleaned text unchanged, the six section keys, a word count of that text and at most the three contact keys |
| ResumeParser.ParseResume | backend/resume_parser.py:16-32 | names ending in neither .pdf nor .docx fail with "Unsupported file format"; an extraction error fails; otherwise parsing succeeds with the six section keys and `total_words` equal to the whitespace-token count of the text |
| ResumeParser.DocRejected | backend/resume_parser.py:18-23 | a `.doc` file is always rejected |
| ResumeParser.UpperPdfRejected | backend/resume_parser.py:18-23 | a name ending in upper-case `.PDF` is always rejected as unsupported |
| ResumeParser.ParsedSectionsEmpty | backend/resume_parser.py:25-60 | every successfully parsed resume has empty named sections |
| KeywordExtractor.MatchVocabulary | backend/keyword_extractor.py:49-56 | the loop keeps exactly the vocabulary entries occurring in the lowercased description, in vocabulary order |
| KeywordExtractor.VocabularyMatchIff | backend/keyword_extractor.py:20-56 | a skill is reported exactly when it is in the vocabulary and is a substring of the lowercased description |
| KeywordExtractor.SubstringMatching | backend/keyword_extractor.py:50 | matching is by substring: "javascript" also reports "java", and "maintain" reports "ai" |
| KeywordExtractor.WordCharRun | backend/keyword_extractor.py:71 | the leading run of word characters is non-empty when the text starts with one, and is made only of word characters |
| KeywordExtractor.LetterWords | backend/keyword_extractor.py:71 | each extracted word has at least 3 lowercase ASCII letters and nothing else |
| KeywordExtractor.WordPairs | backend/keyword_extractor.py:76-77 | n words give max(0, n-1) pairs; pair i is word i, a space, then word i+1 |
| KeywordExtractor.Bigrams | backend/keyword_extractor.py:76-79 | the loop keeps exactly the consecutive pairs longer than the minimum keyword length |
| KeywordExtractor.FallbackPhrases | backend/keyword_extractor.py:71-79 | on the extracted words the length filter drops nothing: n words give max(0, n-1) phrases, each longer than 2 |
| KeywordExtractor.DigitRun | backend/keyword_extractor.py:91 | the leading digit run consists of digits only |
| KeywordExtractor.YearMatchAt | backend/keyword_extractor.py:91 | a match at a position is a non-empty digit run followed by the rest of the pattern; matching requires "year" to occur |
| KeywordExtractor.YearCounts | backend/keyword_extractor.py:91-92 | every captured count is a non-empty run of digits |
| KeywordExtractor.ExperienceEntries | backend/keyword_extractor.py:93-94 | there is one experience entry per match of the years pattern |
| KeywordExtractor.ExperienceEntriesShape | backend/keyword_extractor.py:94 | entry i is capture i followed by " years" |
| KeywordExtractor.YearCountsNeedYear | backend/keyword_extractor.py:91-94 | a description without "year" yields no experience entry |
| KeywordExtractor.EducationNeedsKeyword | backend/keyword_extractor.py:82-88 | the context pattern is consulted only for education keywords that occur; none present means no entries |
| KeywordExtractor.AllKeywords | backend/keyword_extractor.py:110-114 | `all_keywords` holds at most 50 entries |
| KeywordExtractor.AllKeywordsDistinct | backend/keyword_extractor.py:110-114 | `all_keywords` has no duplicates and at most 50 entries |
| KeywordExtractor.AllKeywordsEntries | backend/keyword_extractor.py:110 | every entry is the strip of a candidate, is itself stripped, and is longer than 2 characters |
| KeywordExtractor.AllKeywordsComplete | backend/keyword_extractor.py:110-114 | below the cap nothing is lost: every candidate whose strip is longer than 2 appears, stripped |
| KeywordExtractor.CandidatePhrases | backend/keyword_extractor.py:59-79 | the candidates are the model's short noun chunks and labelled entities, or the fallback bigrams and no entities when no model is loaded |
| KeywordExtractor.EducationEntries | backend/keyword_extractor.py:82-88 | the education loop yields the context matches of the occurring keywords, in keyword order |
| KeywordExtractor.ExtractKeywords | backend/keyword_extractor.py:37-116 | each returned field is its specification: vocabulary filters, years entries, education and certification matches, and `all_keywords` built from skills, phrases and entities |
| KeywordExtractor.MissingFrom | backend/keyword_extractor.py:130-148 | a category loop keeps exactly the keywords whose lowercase is not in the lowercased resume, in order |
| KeywordExtractor.OtherMissing | backend/keyword_extractor.py:151-155 | the 'other' loop keeps the absent `all_keywords` entries not already listed as missing technical or soft skills |
| KeywordExtractor.FindMissingKeywords | backend/keyword_extractor.py:118-157 | the five missing lists are exactly those filters of the job keywords |
| KeywordExtractor.MissingIff | backend/keyword_extractor.py:130-148 | a keyword is missing exactly when it is a job keyword whose lowercase is not a substring of the lowercased resume |
| KeywordExtractor.MissingPartition | backend/keyword_extractor.py:130-167 | missing and found keywords together are all the job keywords, as a multiset |
| KeywordExtractor.OtherIff | backend/keyword_extractor.py:151-155 | a keyword is in 'other' exactly when it is an absent `all_keywords` entry that is neither a job technical skill nor a job soft skill |
| KeywordExtractor.Percentage | backend/keyword_extractor.py:169 | found/total·100 lies in [0, 100]; it is 100 exactly when all were found and 0 exactly when none were |
| KeywordExtractor.KeywordDensity | backend/keyword_extractor.py:159-169 | density lies in [0, 100]; it is 0 for no keywords and 100 exactly when every keyword occurs in the resume |
| KeywordExtractor.DensityComplementsMissing | backend/keyword_extractor.py:162-169 | density equals (total − missing)/total·100 |
| AtsScorer.Matches | backend/ats_scorer.py:70-129 | the match count is at most the keyword count and equals it exactly when every keyword occurs |
| AtsScorer.MatchPercent | backend/ats_scorer.py:73-74 | the share lies in [0, 100]; it is 0 for no keywords and 100 exactly when all match |
| AtsScorer.ScoreSkills | backend/ats_scorer.py:56-76 | the score lies in [0, 100]; it is 0 for an empty section and 50 when the job lists no skills; it is at most 70 with only technical skills and at most 30 with only soft skills |
| AtsScorer.SkillsScoreFull | backend/ats_scorer.py:56-76 | the skills score is 100 exactly when the section is non-empty, both lists are non-empty and every skill matches |
| AtsScorer.SkillsScoreIsDensity | backend/ats_scorer.py:69-76 | with skills listed, the score is 0.7 times the technical density plus 0.3 times the soft density of the section |
| AtsScorer.ScoreExperience | backend/ats_scorer.py:78-89 | the score lies in [0, 100]; it is 0 for an empty section, 50 when the similarity computation fails, and 100 exactly at similarity 1 |
| AtsScorer.ScoreEducation | backend/ats_scorer.py:91-118 | the score lies in [0, 100]; it is 30 without a section and 70 without requirements |
| AtsScorer.EducationScoreShare | backend/ats_scorer.py:100-118 | with requirements, the score is the found share plus the degree bonus |
| AtsScorer.EducationScoreRequirements | backend/ats_scorer.py:104-118 | a degree word guarantees at least 20; the score is 100 when every requirement matches; without a degree word, 0 means nothing matched |
| AtsScorer.BonusFacts | backend/ats_scorer.py:115-116 | the bonus gives at least 20, never exceeds 100, and changes nothing without a degree |
| AtsScorer.ScoreKeywords | backend/ats_scorer.py:120-134 | the score lies in [0, 100] and is 50 when the job has no keywords |
| AtsScorer.KeywordScoreIsDensity | backend/ats_scorer.py:125-134 | with keywords, the score equals the keyword density, and it is 100 exactly when every keyword occurs |
| AtsScorer.FinalScoreRange | backend/ats_scorer.py:31-42 | inputs in [0, 100] give an overall and a final score in [0, 100] |
| AtsScorer.FinalScoreOfEqualInputs | backend/ats_scorer.py:31-42 | equal inputs x give overall x and final x |
| AtsScorer.FinalScoreMonotone | backend/ats_scorer.py:31-42 | raising any input never lowers the final score |
| AtsScorer.Rating | backend/ats_scorer.py:159-168 | Excellent exactly at ≥80, Good exactly in [60, 80), Fair exactly in [40, 60), Needs Improvement exactly below 40 |
| AtsScorer.RatingMonotone | backend/ats_scorer.py:159-168 | a higher score never gets a worse rating |
| AtsScorer.CalculateScore | backend/ats_scorer.py:19-54 | the category scores lie in [0, 100]; the overall score is the blend of their weighted sum with the semantic score and lies in [0, 100] when that score does; the rating is that of the overall score |
| AtsScorer.ParsedResumeScoreCeiling | backend/ats_scorer.py:25-42 | for any parsed resume the skills score is 0, the experience score 0 and the education score 30, so the final score is at most 43.65 and the rating is Fair or Needs Improvement |
| SuggestionsGenerator.CriticalItemsRules | backend/suggestions_generator.py:31-49 | the low-score item leads exactly when the score is below 40; the technical item is present exactly when skills < 60 and technical skills are missing; at most 2 items |
| SuggestionsGenerator.ImportantItemsRules | backend/suggestions_generator.py:51-78 | at most 3 items, each present exactly when its threshold rule fires |
| SuggestionsGenerator.RecommendedItemsOrder | backend/suggestions_generator.py:80-109 | the soft-skills item comes first exactly when soft skills are missing, then the certification item exactly when certifications are missing, then the project items |
| SuggestionsGenerator.IdeasSnoc | backend/suggestions_generator.py:219-233 | testing one more template appends its idea exactly when it matches |
| SuggestionsGenerator.MatchedIdeasByTemplate | backend/suggestions_generator.py:206-233 | the matched ideas are the five template tests, in table order |
| SuggestionsGenerator.SuggestProjectsBySkills | backend/suggestions_generator.py:204-238 | the method returns the first two matched ideas joined by ", ", or the fallback phrase |
| SuggestionsGenerator.ProjectIdeasNonEmpty | backend/suggestions_generator.py:235-238 | the phrase is never empty; it joins at most two ideas; it is the fallback exactly when no template matches |
| SuggestionsGenerator.JoinStartsWith | backend/suggestions_generator.py:236 | a join of non-empty parts is non-empty and starts with the first part |
| SuggestionsGenerator.ProjectSuggestionsAtMostOne | backend/suggestions_generator.py:159-202 | at most one project item; none exactly when the resume mentions projects and skills ≥ 70 |
| SuggestionsGenerator.EnhanceProjectsUnreachable | backend/suggestions_generator.py:171-200 | no project item is ever "Enhance Project Descriptions" |
| SuggestionsGenerator.FormattingTips | backend/suggestions_generator.py:119-157 | the loop yields one tip per weak essential section, in order, followed by the four general tips |
| SuggestionsGenerator.AddSectionTipInjective | backend/suggestions_generator.py:127-131 | different sections get different tips |
| SuggestionsGenerator.FormattingTipsCount | backend/suggestions_generator.py:124-155 | between 4 and 7 tips; the last four are always the general ones |
| SuggestionsGenerator.FormattingTipForSection | backend/suggestions_generator.py:125-131 | an essential section's tip appears exactly when that section is absent or shorter than 20 characters |
| SuggestionsGenerator.TopActionsOf | backend/suggestions_generator.py:266-284 | at most three top actions |
| SuggestionsGenerator.AppendWhileShort | backend/suggestions_generator.py:275-282 | a capped loop leaves the first three of the actions already chosen followed by the new items' actions |
| SuggestionsGenerator.TopActions | backend/suggestions_generator.py:266-284 | the three loops compute the first two critical, then the first two important, then the recommended actions, capped at three |
| SuggestionsGenerator.TopActionsCriticalFirst | backend/suggestions_generator.py:270-284 | the actions start with up to two critical actions; their number is min(3, what is on offer) |
| SuggestionsGenerator.SummaryBand | backend/suggestions_generator.py:247-255 | priority is low at ≥80, medium in [60, 80) and high below 60 |
| SuggestionsGenerator.GenerateSummary | backend/suggestions_generator.py:241-264 | the counts are the total missing keywords and the critical and important list lengths; the message follows the band; the top actions are as selected; the whole report is `SummaryOf` its inputs |
| SuggestionsGenerator.CriticalSuggestions | backend/suggestions_generator.py:31-49 | the critical block yields the critical list of the rules |
| SuggestionsGenerator.ImportantSuggestions | backend/suggestions_generator.py:51-78 | the experience, education and density blocks yield the important list of the rules |
| SuggestionsGenerator.RecommendedSuggestions | backend/suggestions_generator.py:80-109 | the soft-skill, certification and project blocks yield the recommended list of the rules |
| SuggestionsGenerator.GenerateSuggestions | backend/suggestions_generator.py:13-117 | all five fields are their specifications, the summary being `SummaryOf` the score, the missing lists and the three returned lists; at most 2 critical and 3 important items; the summary counts agree with the lists |
| SuggestionsGenerator.EmptySectionsGetAllTips | backend/suggestions_generator.py:124-155 | with empty essential sections, the tips are the three "Add … Section" tips followed by the four general tips |
| SuggestionsGenerator.ParsedResumeGetsAllSectionTips | backend/suggestions_generator.py:112-131 | every parsed resume gets all three "Add … Section" tips |
| LlmSuggestionGenerator.GroupIf | backend/llm_suggestion_generator.py:95-111 | an entry is added only for non-empty items, so there is at most one |
| LlmSuggestionGenerator.CheckAvailability | backend/llm_suggestion_generator.py:17-27 | the service counts as available exactly when the generator is enabled and the listing call succeeds |
| LlmSuggestionGenerator.GroupIfLookup | backend/llm_suggestion_generator.py:95-111 | looking up a key past an optional entry finds that entry's items when it was added under that key, and otherwise looks further |
| LlmSuggestionGenerator.MissingKeywordsList | backend/llm_suggestion_generator.py:85-113 | the method builds the missing-keyword dictionary of the specification |
| LlmSuggestionGenerator.MissingKeywordsLookup | backend/llm_suggestion_generator.py:85-113 | each key maps to its capped prefix; other keys map to nothing |
| LlmSuggestionGenerator.MissingKeywordsListContents | backend/llm_suggestion_generator.py:96-111 | categories hold the first 10 technical, 5 soft, 5 certification and 3 education keywords |
| LlmSuggestionGenerator.GroupIfNonEmpty | backend/llm_suggestion_generator.py:95-111 | entries placed this way are never empty |
| LlmSuggestionGenerator.MissingKeywordsListShape | backend/llm_suggestion_generator.py:85-113 | no entry is empty; the dictionary is empty exactly when all four categories are |
| LlmSuggestionGenerator.SectionSpecificLookup | backend/llm_suggestion_generator.py:392-421 | each key maps to its templated lines: up to 5 technical, 3 certification and 3 soft-skill lines |
| LlmSuggestionGenerator.SectionSpecificContents | backend/llm_suggestion_generator.py:398-421 | one templated line per keyword, in order, within the caps of 5, 3 and 3 |
| LlmSuggestionGenerator.GroupIfAvoids | backend/llm_suggestion_generator.py:398-421 | entries under other categories keep a key out and stay non-empty |
| LlmSuggestionGenerator.SectionSpecificShape | backend/llm_suggestion_generator.py:398-421 | there is never an education key, and no entry is empty |
| LlmSuggestionGenerator.DashLinesShape | backend/llm_suggestion_generator.py:153-155 | every parsed bullet is stripped; there are no more bullets than lines |
| LlmSuggestionGenerator.SkillsToAdd | backend/llm_suggestion_generator.py:115-159 | at most 10 skills; empty exactly when the prompted skills are empty; on a failed call, the first 10 prompted skills |
| LlmSuggestionGenerator.SkillsToAddWithoutBullets | backend/llm_suggestion_generator.py:155 | a reply without bullets gives back the first 10 prompted skills |
| LlmSuggestionGenerator.ProfessionalSummary | backend/llm_suggestion_generator.py:161-202 | "" without missing technical skills or on a failed call; otherwise stripped |
| LlmSuggestionGenerator.ExperienceBullets | backend/llm_suggestion_generator.py:204-249 | at most 4 bullets; none without technical skills or on a failed call |
| LlmSuggestionGenerator.SkillsText | backend/llm_suggestion_generator.py:251-295 | at most 3 sentences; none when nothing is prompted or the call fails |
| LlmSuggestionGenerator.SkillsTextSentences | backend/llm_suggestion_generator.py:289-291 | every kept sentence is stripped and longer than 20 characters |
| LlmSuggestionGenerator.SummaryText | backend/llm_suggestion_generator.py:297-337 | "" without technical skills or on a failed call; otherwise stripped |
| LlmSuggestionGenerator.ProjectIdeas | backend/llm_suggestion_generator.py:339-390 | at most 4 ideas; none without technical skills or on a failed call |
| LlmSuggestionGenerator.BulletsStripped | backend/llm_suggestion_generator.py:243-245 | experience bullets and project ideas come out stripped |
| LlmSuggestionGenerator.FallbackSuggestions | backend/llm_suggestion_generator.py:423-436 | the fallback is flagged `llm_unavailable`, has empty bullets, integration and summary enhancement, and carries the notice |
| LlmSuggestionGenerator.GeneratedSuggestions | backend/llm_suggestion_generator.py:52-83 | the generated record is never flagged unavailable |
| LlmSuggestionGenerator.SuggestionsFor | backend/llm_suggestion_generator.py:48-83 | the result is flagged unavailable exactly when the service was not available |
| LlmSuggestionGenerator.SectionSpecificIndependentOfService | backend/llm_suggestion_generator.py:52-83 | generated and fallback records carry the same section-specific advice |
| LlmSuggestionGenerator.AllRepliesFailed | backend/llm_suggestion_generator.py:115-390 | when every call fails, only the prompted skills (capped at 10) and the template advice remain |
| LlmSuggestionGenerator.LlmSuggestionGenerator.constructor | backend/llm_suggestion_generator.py:10-15 | the generator is enabled as configured, and available exactly when enabled and the service answers |
| LlmSuggestionGenerator.LlmSuggestionGenerator.GenerateSuggestions | backend/llm_suggestion_generator.py:29-83 | the result is the specification; the fallback when unavailable; flagged unavailable exactly then |
| LlmSuggestionGenerator.UnavailableGeneratorFallsBack | backend/llm_suggestion_generator.py:17-49 | a generator built while the service is down always returns the fallback |
| Api.AfterLastDot | backend/app.py:26 | the extension taken after the last '.' contains no '.' |
| Api.AfterLastDotSplits | backend/app.py:26 | the name is the part before the last '.', a '.', and the extension |
| Api.AfterLastDotOf | backend/app.py:26 | stem, '.', and a dot-free extension yields that extension |
| Api.AllowedFileIff | backend/app.py:23-26 | a name is allowed exactly when its dot-free extension, lowercased, is pdf, docx or doc |
| Api.NoDotNotAllowed | backend/app.py:25 | a name without '.' is never allowed |
| Api.ValidationOrder | backend/app.py:41-54 | the first failing check wins, in the order no part, empty filename, empty description, bad extension; no error exactly when all pass; no minimum description length |
| Api.DocPassesChecks | backend/app.py:41-54 | a `.doc` name with a description passes every 400 check |
| Api.UpperPdfPassesChecks | backend/app.py:41-54 | an upper-case `.PDF` name with a description passes every 400 check |
| Api.SectionFlagsOf | backend/app.py:122-127 | each flag is the truthiness of its section text; the word count is the parsed total |
| Api.StatusCode | backend/app.py:132-143 | status 200 exactly for the analysis answer |
| Api.LlmPart | backend/app.py:95-109 | the LLM field is {} when disabled, the notice when generation raises, and the generator's record otherwise |
| Api.KeywordPart | backend/app.py:66-92 | every found list (technical, soft, education, certifications, the combined `all_keywords`), every missing list including `other`, and the density are those of the extractor on the given inputs |
| Api.RulePart | backend/app.py:74-86 | the score is the scorer's result, and every suggestions list and the summary report are their specifications on that score |
| Api.AssembleAnalysis | backend/app.py:63-130 | every response field is its component's result, with every keyword list, the score, every suggestions list and the summary pinned; an LLM failure changes only the LLM field |
| Api.AnalyzeResume | backend/app.py:36-143 | a validation failure answers 400 with its message; a parse failure answers 500 with the error; the analysis answers exactly when validation and parsing succeed, with every field, down to each keyword list and the summary, as specified |
| Api.ParsedResumeHasNoSectionFlags | backend/app.py:122-126 | for any parsed upload the four section flags are all false |
| Jobs.StatusOrderDistinct | src/components/JobCard.jsx:12 | the five statuses of the order are distinct |
| Jobs.StatusClass | src/components/JobCard.jsx:4-16 | an unknown status gets 'bg-gray' |
| Jobs.IndexOf | src/components/JobCard.jsx:36 | `indexOf` gives -1 exactly when the status is absent, and otherwise its first position |
| Jobs.AvailableStatusesForwardOnly | src/components/JobCard.jsx:36-39 | an unknown status offers the whole order; a known one is offered first, with only statuses of the order and never an earlier one |
| Jobs.WithStatus | src/components/JobCard.jsx:21-24 | the copy has the new status and differs from the job in nothing else |
| JobCard.ArmedIffLastClick | src/components/JobCard.jsx:27-105 | the card is armed exactly when the last event was a click |
| JobCard.DeletesOnSecondClick | src/components/JobCard.jsx:27-105 | a click deletes exactly when the previous event was also a click |
| JobCard.JobCard.constructor | src/components/JobCard.jsx:15 | a new card is not armed and has an empty history |
| JobCard.JobCard.StatusChange | src/components/JobCard.jsx:18-25 | a status change calls `onUpdate` once, with a copy having only the status replaced |
| JobCard.JobCard.DeleteClick | src/components/JobCard.jsx:27-34 | an armed click calls `onDelete(job.id)`; an unarmed click only arms; either way the card is armed afterwards |
| JobCard.JobCard.Disarm | src/components/JobCard.jsx:104-105 | blur or mouse-leave disarms and calls nothing |
| JobCard.TwoClicksDelete | src/components/JobCard.jsx:27-34 | on a fresh card the first click calls nothing and the second calls `onDelete(job.id)` |
| JobCard.BlurCancelsDelete | src/components/JobCard.jsx:27-105 | click, blur, click calls nothing |
| JobDetailsModal.DisplayedRemarksFacts | src/components/JobDetailsModal.jsx:139-143 | remarks of at most 150 UTF-16 code units, or expanded remarks, show unchanged; longer ones show as their first 150 code units plus "...", which for Basic Multilingual Plane text are the first 150 characters |
| JobDetailsModal.BmpTruncation | src/components/JobDetailsModal.jsx:142 | on Basic Multilingual Plane text, cutting the code units at 150 encodes the first 150 characters |
| JobDetailsModal.JobDetailsModal.constructor | src/components/JobDetailsModal.jsx:17-26 | every flag starts false and every edit value starts "" |
| JobDetailsModal.JobDetailsModal.Open | src/components/JobDetailsModal.jsx:28-39 | opening resets every flag and loads remarks, date and time from the job |
| JobDetailsModal.JobDetailsModal.StartEditingRemarks | src/components/JobDetailsModal.jsx:278 | enters remarks editing; nothing else changes |
| JobDetailsModal.JobDetailsModal.EditRemarks | src/components/JobDetailsModal.jsx:334 | sets the remarks value; nothing else changes |
| JobDetailsModal.JobDetailsModal.SaveRemarks | src/components/JobDetailsModal.jsx:41-47 | calls `onUpdate` with a copy having only the remarks replaced by the edited value, and leaves edit mode |
| JobDetailsModal.JobDetailsModal.CancelRemarks | src/components/JobDetailsModal.jsx:49-52 | restores the value from the job and leaves edit mode |
| JobDetailsModal.JobDetailsModal.StartEditingInterview | src/components/JobDetailsModal.jsx:192 | enters interview editing; nothing else changes |
| JobDetailsModal.JobDetailsModal.EditInterview | src/components/JobDetailsModal.jsx:211-218 | sets the date and time values; nothing else changes |
| JobDetailsModal.JobDetailsModal.SaveInterview | src/components/JobDetailsModal.jsx:54-61 | calls `onUpdate` with a copy having only the date and time replaced, and leaves edit mode |
| JobDetailsModal.JobDetailsModal.CancelInterview | src/components/JobDetailsModal.jsx:63-67 | restores both values from the job and leaves edit mode |
| JobDetailsModal.JobDetailsModal.StatusChange | src/components/JobDetailsModal.jsx:69-75 | calls `onUpdate` with a copy having only the status replaced |
| JobDetailsModal.JobDetailsModal.DeleteClick | src/components/JobDetailsModal.jsx:86-88 | arms the confirmation; nothing else changes |
| JobDetailsModal.JobDetailsModal.ConfirmDelete | src/components/JobDetailsModal.jsx:90-93 | calls `onDelete(job.id)` and then `onClose` |
| JobDetailsModal.JobDetailsModal.CancelDelete | src/components/JobDetailsModal.jsx:95-97 | disarms the confirmation; nothing else changes |
| JobDetailsModal.LongRemarksAlwaysTruncated | src/components/JobDetailsModal.jsx:139-143 | the expanded flag is never set, so remarks over 150 code units always show as their first 150 code units plus "..." |
| JobDetailsModal.SaveThenReopenShowsSaved | src/components/JobDetailsModal.jsx:28-47 | edit, save and reopen with the saved job shows the new remarks |
| App.EmptyQueryMatchesAll | src/App.jsx:81-83 | the empty query matches every job |
| App.FilteredJobsFacts | src/App.jsx:81-88 | the list is a permutation of the matching jobs; a job is listed exactly when its lowercased position or company contains the lowercased query; the order is by `createdAt`, descending for 'desc' and ascending otherwise |
| App.EmptyQueryKeepsAll | src/App.jsx:81-88 | an empty query lists every job |
| Seqs.LexLeTotal | backend/app.py:132 | any two keys are ordered one way or the other |
| Seqs.LexLeAntisymmetric | backend/app.py:132 | keys ordered both ways are equal |
| Seqs.LexLeTransitive | backend/app.py:132 | the key order is transitive |
| Seqs.SortByNameFacts | backend/app.py:132 | sorting by key gives a sequence in key order that holds the same elements with the same multiplicities |
| Seqs.SortedUnique | backend/app.py:132 | two sequences in key order with the same elements, one of them with distinct keys, are equal |
| Seqs.SortKeepsStrictlySorted | backend/app.py:132 | the sorted form of any rearrangement of a sequence with strictly increasing keys is that sequence |
| Seqs.SortByFacts | src/App.jsx:30-88 | sorting by a key orders by it and keeps every element with its multiplicity |
| App.IdsOfSize | src/App.jsx:96 | distinct ids give as many ids as jobs |
| App.Toggled | src/App.jsx:71-79 | toggling flips the id's membership and leaves every other id unchanged |
| App.ToggleTwice | src/App.jsx:71-79 | toggling twice restores the selection |
| App.AllSelectedMeaning | src/App.jsx:90 | for a selection drawn from the filtered ids, all are selected exactly when the list is non-empty and the selection is every filtered id |
| App.AllSelectedBySizeOnly | src/App.jsx:90 | the check compares sizes only: one hidden job selected makes a one-job list count as all selected |
| App.SelectAllOf | src/App.jsx:92-98 | select-all clears the selection when all are selected, and otherwise selects the filtered ids |
| App.SelectAllSelectsAll | src/App.jsx:92-98 | from a state that is not all selected, select-all makes all selected |
| App.RejectedIdsMeaning | src/App.jsx:100-103 | an id is selected exactly when a listed job with that id is Rejected |
| App.GroupsOfMeaning | src/App.jsx:256-261 | the group keys are the countries, or 'Unspecified', of the jobs; each group holds that country's jobs in list order |
| App.EachJobInOneGroup | src/App.jsx:256-261 | every job is in the group of its country and in no other |
| App.GroupByCountry | src/App.jsx:256-261 | the reduce loop builds exactly that grouping |
| App.InterviewsAreListed | src/App.jsx:281-284 | every interview shown matches the query and has an interview date |
| App.Tracker.constructor | src/App.jsx:13-19 | no jobs, empty query, 'desc' order, nothing selected |
| App.Tracker.Refresh | src/App.jsx:36-39 | the jobs become the stored jobs sorted newest first; nothing else changes |
| App.Tracker.SetSearchQuery | src/App.jsx:160 | the query becomes the typed text and the filtered list follows it; jobs, order and selection are unchanged |
| App.Tracker.SetSortOrder | src/App.jsx:236 | the order becomes the chosen one and the filtered list follows it; jobs, query and selection are unchanged |
| App.Tracker.ToggleSelect | src/App.jsx:71-79 | the selection becomes the toggled selection |
| App.Tracker.SelectAll | src/App.jsx:92-98 | the selection becomes select-all of the filtered list |
| App.Tracker.SelectRejected | src/App.jsx:100-103 | the selection becomes the rejected ids of the filtered list |
| ResumeChecker.UploadError | src/components/ResumeChecker.jsx:18-31 | a file is accepted exactly when its type is one of the three and its size is at most 5 MiB; otherwise the type error or the size error is given |
| ResumeChecker.UploadSizeBoundary | src/components/ResumeChecker.jsx:25-28 | exactly 5242880 bytes is accepted; one more byte is refused |
| ResumeChecker.AnalyzeGuard | src/components/ResumeChecker.jsx:66-70 | analysis proceeds exactly when a file is selected and the trimmed description is non-empty; otherwise the message is shown |
| Text.CharUnits | src/components/ResumeChecker.jsx:106 | a character is one code unit, its code point, in the Basic Multilingual Plane, and otherwise a high then a low surrogate |
| Text.Utf16 | src/components/ResumeChecker.jsx:106 | a text has at least as many code units as characters and at most twice as many |
| Text.Utf16Append | src/components/JobDetailsModal.jsx:142 | the code units of a concatenation are the two texts' code units, concatenated |
| Text.BmpUnits | src/components/ResumeChecker.jsx:106 | on Basic Multilingual Plane text the code units are the code points, one per character |
| Text.AstralCountsTwice | src/components/ResumeChecker.jsx:106 | 26 emoji count as 52 code units |
| ResumeChecker.ValidFormPassesGuard | src/components/ResumeChecker.jsx:67-106 | a valid form always passes the guard |
| ResumeChecker.GuardLooserThanForm | src/components/ResumeChecker.jsx:67-106 | a one-character description passes the guard but not the form check |
| ResumeChecker.ResponseOutcome | src/components/ResumeChecker.jsx:83-95 | success exactly on status 200; failures carry a non-empty message |
| ResumeChecker.ResumeChecker.constructor | src/components/ResumeChecker.jsx:5-9 | no file, empty description, not loading, no results, no error |
| ResumeChecker.ResumeChecker.HandleFile | src/components/ResumeChecker.jsx:18-31 | a refused file sets the error and keeps the selection; an accepted one becomes the selection |
| ResumeChecker.ResumeChecker.RemoveFile | src/components/ResumeChecker.jsx:50-53 | the selection becomes empty; nothing else changes |
| ResumeChecker.ResumeChecker.SetJobDescription | src/components/ResumeChecker.jsx:6 | sets the description; nothing else changes |
| ResumeChecker.ResumeChecker.StartAnalysis | src/components/ResumeChecker.jsx:66-81 | a failed guard sends nothing and shows the message; otherwise the file and description are sent and loading starts |
| ResumeChecker.ResumeChecker.FinishAnalysis | src/components/ResumeChecker.jsx:83-95 | loading ends; a 200 stores the analysis; anything else shows the error and keeps the old results |
| ResumeChecker.GradientMatchesRating | src/components/ResumeChecker.jsx:216-225 | on one and the same value the colour band ranks exactly as the rating does |
| ResumeChecker.KeywordTags | src/components/ResumeChecker.jsx:307-312 | at most 11 tags |
| ResumeChecker.KeywordTagsFacts | src/components/ResumeChecker.jsx:307-312 | up to 10 keywords show as they are; more show the first 10 plus "+N more", with N = count − 10 |
| ResumeChecker.ViewIf | src/components/ResumeChecker.jsx:296-297 | a category is shown exactly when it has keywords, once, with at most 11 tags |
| ResumeChecker.MissingKeywordsViewFacts | src/components/ResumeChecker.jsx:280-322 | nothing is shown, so "Great!" appears, exactly when no category has keywords; 'other' is never shown |
| ResumeChecker.AllSuggestionsFacts | src/components/ResumeChecker.jsx:391-396 | the list is all critical, then all important, then at most 5 recommended, each tagged with its kind |
| ResumeChecker.LlmCardShownIff | src/components/ResumeChecker.jsx:180-182 | the AI card shows exactly when the LLM is disabled (the `{}` field is truthy), or it did not raise and produced a record |
| ResumeChecker.DisabledGeneratorShowsEmptyCard | src/components/ResumeChecker.jsx:180-182 | with the LLM disabled the card shows, holding no section |
| ResumeChecker.SectionIf | src/components/ResumeChecker.jsx:331-366 | a section is shown once exactly when its condition holds, with its items |
| ResumeChecker.CardSectionsFacts | src/components/ResumeChecker.jsx:325-366 | every shown section has items; the summary shows as its single text when non-empty; only the four card sections appear |
| Script.Page.constructor | backend/script.js:21-22 | no file, no results, no error, with the analyze button disabled |
| Script.Page.CheckFormValidity | backend/script.js:126-129 | the button is disabled exactly when the form is invalid (no file, or a trimmed description of at most 50 UTF-16 code units); nothing else changes |
| Script.Page.HandleFile | backend/script.js:79-96 | a refused file shows the error and keeps the selection; an accepted one becomes the selection; the button state follows |
| Script.Page.RemoveFile | backend/script.js:105-112 | the file is cleared and the button disabled |
| Script.Page.InputDescription | backend/script.js:41-42 | sets the description and rechecks the form |
| Script.Page.StartAnalysis | backend/script.js:132-145 | a failed guard sends nothing and shows the message; otherwise the file and description are sent |
| Script.Page.FinishAnalysis | backend/script.js:152-163 | a 200 stores the analysis; anything else shows the error and keeps the old results |
| Script.Page.ExportResults | backend/script.js:555-586 | nothing is exported before an analysis; afterwards the report is that of the stored results, with each dictionary read in sorted key order |
| Script.CategoryTitle | backend/script.js:478 | the title has the length of the key with its first '_' replaced |
| Script.ReplaceFirstSplit | backend/script.js:478 | only the first '_' is replaced by a space |
| Script.OneWordTitle | backend/script.js:478 | a lowercase word gets its first letter capitalised |
| Script.WordStartsUpper | backend/script.js:478 | upper-casing word starts keeps the length |
| Script.TwoWordsUpper | backend/script.js:478 | in `first rest` of lower-case words both first letters are upper-cased and nothing else changes |
| Script.TwoWordTitle | backend/script.js:478 | `first_rest` becomes "First Rest" |
| Script.GroupedItems | backend/script.js:457-494 | no groups give no items |
| Script.SpecificSections | backend/script.js:437-448 | every section-specific entry shown has items |
| Script.SummaryEnhancementOnlyWithoutSummary | backend/script.js:387-455 | the summary enhancement shows only when there is no professional summary, never together with it; project ideas are never shown |
| Script.PendingMessageIff | backend/script.js:452-454 | the pending message shows exactly when no section has content: no keyword group, skill, bullet or skills sentence, a blank summary, no older summary text shown, and every advice group empty |
| Script.PageCardShownIff | backend/script.js:185-186 | the card is filled exactly when the LLM is disabled, or it did not raise and produced a record; with the LLM disabled it holds no section, otherwise the record's sections |
| Script.DisabledGeneratorShowsPending | backend/script.js:452-454 | with the LLM disabled the `{}` field passes the gate and the card holds no section, so the pending message shows |
| Script.BuildReport | backend/script.js:566-586 | the report loop builds the report text of the specification, reading the scores and missing keywords in sorted key order |
| Script.AppendBreakdown | backend/script.js:570-573 | the breakdown loop appends one line per score |
| Script.AppendMissing | backend/script.js:575-581 | the missing-keyword loop appends the block of each non-empty category |
| Script.AppendBlock | backend/script.js:577-580 | a category block is a heading followed by its bullets, or nothing when the category is empty |
| Script.AppendEntry | backend/script.js:576-581 | one step of the category loop appends that category's block |
| Script.KeywordBlockEmptyIff | backend/script.js:577-580 | a category adds text exactly when it has keywords |
| Script.MissingPartStep | backend/script.js:576-581 | one more category appends its block |
| Script.AppendBullets | backend/script.js:579 | one bullet line per keyword |
| Script.AppendActions | backend/script.js:583-586 | one numbered line per top action |
| Script.ActionLinesPrefix | backend/script.js:584-586 | the lines of the first n actions are a prefix of all the action lines |
| Script.ActionsNumberedFromOne | backend/script.js:584-586 | action i (counting from 0) is written as line number i+1 |
| Script.MissingPartEmptyIff | backend/script.js:576-581 | the missing part is empty exactly when every category is empty |
| Script.ScoreEntriesOrder | backend/script.js:571 | the breakdown lines come as education match, experience match, keyword density, skills match, each with its score |
| Script.MissingEntriesOrder | backend/script.js:576 | the missing-keyword blocks come as certifications, education, other, soft skills, technical skills, each with its list |
| Script.KeywordGroupsOnTheWire | backend/script.js:473 | the AI card's keyword groups come as certifications, education, soft skills, technical skills, each present exactly when it has items, with the generator's caps of 5, 3, 5 and 10 |
| Script.SectionAdviceOnTheWire | backend/script.js:438 | the per-category advice comes as certifications, soft skills, technical skills, each present exactly when it has lines, with at most 3, 3 and 5 lines |
| Script.SpecificSectionsEmptyIff | backend/script.js:437-448 | the advice adds no section exactly when every advice group is empty |
| Script.BreakdownStep | backend/script.js:571-573 | one more score appends its line |
| Script.ReportMissingEmptyIff | backend/script.js:575-581 | the report lists no missing keyword exactly when all five categories are empty |
| Script.BreakdownKeyOf | backend/script.js:572 | `a_b` is shown as A B in upper case |
| Script.KeywordHeadingOf | backend/script.js:578 | a category heading is upper-cased and keeps its underscore |

## Left out
- PDF and DOCX text extraction, spaCy, TF-IDF and the Ollama HTTP calls are foreign libraries or network services. Their outputs are inputs of the model, and prompt texts are not modelled.
- Regular expressions for education phrases, certifications, email, phone and LinkedIn are matcher functions passed in as parameters. Only the "N years" scanner is written out.
- Text.Utf16: inputs are Dafny strings, which hold only Unicode scalar values, so a JavaScript string that already holds a lone surrogate is not an input. A remarks text cut inside a surrogate pair is kept as the code units it is, lone high surrogate included, but how the browser renders it is not modelled.
- Lowercasing, `\w`, `\d` and the letter class of the bigram regex are ASCII-only. Python and JavaScript apply Unicode case mapping.
- Python `set` iteration order is arbitrary per process. The vocabularies and `list(set(...))` are taken in declaration and first-occurrence order. `Counter.most_common` over distinct keys then keeps that order.
- KeywordExtractor.AllKeywords: states the cap, the de-duplication and entry facts, but not the source's arbitrary set order.
- AtsScorer.CalculateScore: reasons about unrounded reals; `round(x, 2)` and the rounding of the density in the response are not modelled (floating point). SuggestionsGenerator.GenerateSuggestions therefore gets the unrounded scores. In the source its thresholds and summary bands see the rounded `score_data`: a skills score of 59.996 rounds to 60.0 and gets no technical critical item, while the model gives one. For the same reason the gauge colour and the rating always agree in the model (ResumeChecker.GradientMatchesRating) but not in the source. There the colour is chosen from the rounded `overall_score`, while `_get_rating` sees the unrounded final score. So a final score of 79.996 shows 80 in the best colour with the rating 'Good', and the same happens just below 60 and just below 40.
- Saving and removing the upload, `secure_filename`, Flask routing, CORS, the health endpoint, the 413/500 error handlers and server startup are I/O.
- The outer `except` of the LLM generator's `generate_suggestions` is not modelled. No modelled input reaches it. An exception escaping the generator is the boolean input of `Api.LlmPart`.
- ResumeParser.JoinSections: visits the keys in no stated order, where Python follows insertion order; the resulting dictionary is the same either way.
- Seqs.SortByFacts: stability of `Array.prototype.sort` holds for the insertion sort but is not stated as a lemma.
- App.InterviewsAreListed: the interview list is not sorted by date and time, because that needs JavaScript `Date` parsing.
- The country groups are ordered with `Object.entries(...).sort()`, and the model leaves that order out. Date and locale formatting are also left out.
- The storage library behind `getJobs`, `saveJob` and `deleteJob` is not part of this model. Neither are the save, delete, edit and bulk-delete handlers of `App.jsx` that only call it. Jobs are an in-memory sequence.
- Layout.jsx and CountryGroup.jsx are presentation only and are not part of this model.
- DOM rendering, `fetch`, timers, `animateValue`, gauge offsets, `toFixed` file sizes, clipboard and Blob download are UI and I/O.
- Script.Page.ExportResults: the "Generated:" date and the score numbers as printed are taken as parameters (`generated`, `show`), because they come from JavaScript `Date` and number formatting.
- ResumeChecker.GradientMatchesRating: compares the bands on one value. The source colours the rounded score and rates the unrounded one, as the AtsScorer.CalculateScore line above explains.
- Script.PageCardShownIff: the plain page only ever fills the AI card and never hides it again, because its hide branch runs only past the gate. A later analysis whose AI part raises therefore leaves the previous card on screen. That card is DOM state, which is not modelled.
- Script.Page.constructor: the button starts disabled. That initial state comes from the page markup, which is not part of this model.
- The React page's `|| []` defaults for absent suggestion lists are not modelled. The modelled analysis always carries every list.
- JobDetailsModal.JobDetailsModal.Open: the remarks pop-up flag is reset like the others. Opening the pop-up (`JobDetailsModal.jsx:345`) only renders the full text and is not modelled.
- The `Jobs.Callback` values record what a component asks its parent to do. The parent's handling of them is not modelled.
