/**
 * Resume text normalisation, section splitting and the parse result.
 *
 * The bytes of a PDF or DOCX file are not modelled: the parser receives the
 * page or paragraph texts the document library extracted (or the library's
 * error message).
 */
module ResumeParser {
  import opened Wrappers
  import opened Text
  import opened Seqs

  // ---------------------------------------------------------------- cleaning

  /** `re.sub(r'\s+', ' ', text)`: every maximal whitespace run becomes one space. */
  function CollapseWhitespace(s: string): (r: string)
    ensures forall i :: 0 <= i < |r| ==> !IsPySpace(r[i]) || r[i] == ' '
    decreases |s|
  {
    if s == [] then []
    else if IsPySpace(s[0]) then
      [' '] + CollapseWhitespace(TrimStart(s, IsPySpace))
    else [s[0]] + CollapseWhitespace(s[1..])
  }

  /** The characters `[\w\s\-.,@()&/]` accepts. */
  predicate KeptChar(c: char) {
    IsWordChar(c) || IsPySpace(c) || c in "-.,@()&/"
  }

  /** The characters cleaned text is made of: word characters, the space, and `-.,@()&/`. */
  predicate CleanChar(c: char) {
    IsWordChar(c) || c == ' ' || c in "-.,@()&/"
  }

  /** `_clean_text`: collapse whitespace, drop every other character outside the kept class, strip. */
  function CleanText(text: string): (r: string)
    ensures forall i :: 0 <= i < |r| ==> CleanChar(r[i])
    ensures '\n' !in r
    ensures r == [] || (!IsPySpace(r[0]) && !IsPySpace(r[|r| - 1]))
  {
    var collapsed := CollapseWhitespace(text);
    var kept := Filter(collapsed, KeptChar);
    var r := Strip(kept);
    forall i | 0 <= i < |r|
      ensures CleanChar(r[i])
    {
      var c := r[i];
      TrimContained(kept, IsPySpace);
      assert c in kept;
      FilterMember(collapsed, KeptChar, c);
    }
    assert !CleanChar('\n');
    r
  }

  /** Collapsing whitespace keeps the word characters, in order. */
  lemma {:induction false} CollapseKeepsWordChars(s: string)
    ensures Filter(CollapseWhitespace(s), IsWordChar) == Filter(s, IsWordChar)
    decreases |s|
  {
    if s != [] {
      if IsPySpace(s[0]) {
        var rest := TrimStart(s, IsPySpace);
        var k := |s| - |rest|;
        TrimStartSuffix(s, IsPySpace);
        assert s == s[..k] + rest;
        CollapseKeepsWordChars(rest);
        NoWordCharsInSpace(s[..k]);
        NoWordCharsInSpace([' ']);
        FilterConcat(s[..k], rest, IsWordChar);
        FilterConcat([' '], CollapseWhitespace(rest), IsWordChar);
      } else {
        assert s == [s[0]] + s[1..];
        CollapseKeepsWordChars(s[1..]);
        FilterConcat([s[0]], s[1..], IsWordChar);
        FilterConcat([s[0]], CollapseWhitespace(s[1..]), IsWordChar);
      }
    }
  }

  /** A run of whitespace holds no word character. */
  lemma NoWordCharsInSpace(s: string)
    requires forall i :: 0 <= i < |s| ==> IsPySpace(s[i])
    ensures Filter(s, IsWordChar) == []
  {
    FilterDropsAll(s, IsWordChar);
  }

  /** Stripping whitespace keeps the word characters, in order. */
  lemma StripKeepsWordChars(s: string)
    ensures Filter(Strip(s), IsWordChar) == Filter(s, IsWordChar)
  {
    var t := TrimStart(s, IsPySpace);
    var r := TrimEnd(t, IsPySpace);
    var a := |s| - |t|;
    TrimStartSuffix(s, IsPySpace);
    TrimEndPrefix(t, IsPySpace);
    assert s == s[..a] + t;
    assert t == r + t[|r|..];
    NoWordCharsInSpace(s[..a]);
    NoWordCharsInSpace(t[|r|..]);
    FilterConcat(s[..a], t, IsWordChar);
    FilterConcat(r, t[|r|..], IsWordChar);
  }

  /** Cleaning never drops or reorders a word character: letters, digits and '_' survive as they were. */
  lemma CleanKeepsWordChars(text: string)
    ensures Filter(CleanText(text), IsWordChar) == Filter(text, IsWordChar)
  {
    var collapsed := CollapseWhitespace(text);
    StripKeepsWordChars(Filter(collapsed, KeptChar));
    FilterWeakerFirst(collapsed, IsWordChar, KeptChar);
    CollapseKeepsWordChars(text);
  }

  // ---------------------------------------------------------------- sections

  datatype Section = Summary | Experience | Education | Skills | Certifications | Other

  /** The header sections, in the order the source's table lists (and tests) them. */
  const HeaderOrder: seq<Section> := [Summary, Experience, Education, Skills, Certifications]

  /** Every key of the sections dictionary. */
  const AllSections: set<Section> := {Summary, Experience, Education, Skills, Certifications, Other}

  function SectionKeywords(s: Section): seq<string> {
    match s
    case Summary => ["summary", "profile", "objective", "about"]
    case Experience => ["experience", "work history", "employment", "professional experience"]
    case Education => ["education", "academic", "qualification", "degree"]
    case Skills => ["skills", "technical skills", "competencies", "expertise"]
    case Certifications => ["certification", "certificate", "license"]
    case Other => []
  }

  /** Some keyword of section `s` occurs in the lowercased, stripped line. */
  predicate Mentions(lineLower: string, s: Section) {
    exists k :: 0 <= k < |SectionKeywords(s)| && Contains(lineLower, SectionKeywords(s)[k])
  }

  /** The first section of `order` the line mentions. */
  function FirstMentioned(order: seq<Section>, lineLower: string): (r: Option<nat>)
    ensures r.Some? ==> r.value < |order| && Mentions(lineLower, order[r.value])
    ensures r.Some? ==> forall j :: 0 <= j < r.value ==> !Mentions(lineLower, order[j])
    ensures r.None? ==> forall j :: 0 <= j < |order| ==> !Mentions(lineLower, order[j])
  {
    if order == [] then None
    else if Mentions(lineLower, order[0]) then Some(0)
    else
      match FirstMentioned(order[1..], lineLower)
      case Some(j) => Some(j + 1)
      case None => None
  }

  /**
   * The section a line opens, if it is a header: it has fewer than five words
   * and mentions a section keyword; the first section in table order wins.
   */
  function HeaderOf(line: string): Option<Section> {
    if |Words(line)| >= 5 then None
    else
      match FirstMentioned(HeaderOrder, Strip(Lower(line)))
      case Some(j) => Some(HeaderOrder[j])
      case None => None
  }

  /**
   * A header has fewer than five words and mentions a keyword of the section
   * it opens, and of no section earlier in table order; a line is not a
   * header when it is long or mentions no section keyword at all.
   */
  lemma HeaderMeaning(line: string)
    ensures HeaderOf(line).Some? ==>
      var h := HeaderOf(line).value;
      |Words(line)| < 5 && h != Other && Mentions(Strip(Lower(line)), h)
      && forall j :: 0 <= j < |HeaderOrder| && HeaderOrder[j] == h ==>
           forall k :: 0 <= k < j ==> !Mentions(Strip(Lower(line)), HeaderOrder[k])
    ensures HeaderOf(line).None? <==>
      |Words(line)| >= 5 || forall j :: 0 <= j < |HeaderOrder| ==> !Mentions(Strip(Lower(line)), HeaderOrder[j])
  {
    var l := Strip(Lower(line));
    if |Words(line)| < 5 {
      var r := FirstMentioned(HeaderOrder, l);
      if r.Some? {
        assert HeaderOf(line) == Some(HeaderOrder[r.value]);
        forall j | 0 <= j < |HeaderOrder| && HeaderOrder[j] == HeaderOrder[r.value]
          ensures j == r.value
        {
        }
      }
    }
  }

  /** The current section after reading `lines`, starting from 'other'. */
  function SectionAfter(lines: seq<string>): Section
    decreases |lines|
  {
    if lines == [] then Other
    else
      match HeaderOf(lines[|lines| - 1])
      case Some(h) => h
      case None => SectionAfter(lines[..|lines| - 1])
  }

  /** A line that is stored: not a header, and not blank. */
  predicate IsContentLine(line: string) {
    HeaderOf(line).None? && Strip(line) != []
  }

  /** The lines stored under section `s`, in input order: each content line goes to the section current when it is read. */
  function Assigned(lines: seq<string>, s: Section): seq<string>
    decreases |lines|
  {
    if lines == [] then []
    else
      var init := lines[..|lines| - 1];
      var line := lines[|lines| - 1];
      Assigned(init, s) + (if IsContentLine(line) && SectionAfter(init) == s then [line] else [])
  }

  /** A section's stored lines as the dictionary holds them: space-joined, then stripped. */
  function JoinedLines(lines: seq<string>): string {
    Strip(Join(" ", lines))
  }

  /** What `_identify_sections` returns for `text`. */
  function SectionsOf(text: string): map<Section, string> {
    map s | s in AllSections :: JoinedLines(Assigned(SplitOn(text, '\n'), s))
  }

  /** The lines stored under every section after reading `lines`. */
  function AssignedMap(lines: seq<string>): (m: map<Section, seq<string>>)
    ensures m.Keys == AllSections
  {
    map s | s in AllSections :: Assigned(lines, s)
  }

  /** Reading one more line: a header switches the current section, anything else keeps it. */
  lemma SectionAfterSnoc(lines: seq<string>, line: string)
    ensures SectionAfter(lines + [line]) == if HeaderOf(line).Some? then HeaderOf(line).value else SectionAfter(lines)
  {
    assert (lines + [line])[..|lines|] == lines;
  }

  /** Reading one more line: a content line is stored under the current section, anything else is dropped. */
  lemma AssignedSnoc(lines: seq<string>, line: string, s: Section)
    ensures Assigned(lines + [line], s)
            == Assigned(lines, s) + (if IsContentLine(line) && SectionAfter(lines) == s then [line] else [])
  {
    assert (lines + [line])[..|lines|] == lines;
  }

  /** The same step for the whole dictionary of stored lines. */
  lemma AssignedMapSnoc(lines: seq<string>, line: string)
    ensures AssignedMap(lines + [line])
            == if IsContentLine(line)
               then AssignedMap(lines)[SectionAfter(lines) := AssignedMap(lines)[SectionAfter(lines)] + [line]]
               else AssignedMap(lines)
  {
    var m := AssignedMap(lines);
    var m' := AssignedMap(lines + [line]);
    var cur := SectionAfter(lines);
    if IsContentLine(line) {
      var expected := m[cur := m[cur] + [line]];
      forall s | s in AllSections
        ensures m'[s] == expected[s]
      {
        AssignedSnoc(lines, line, s);
      }
      assert m'.Keys == expected.Keys;
      assert m' == expected;
    } else {
      forall s | s in AllSections
        ensures m'[s] == m[s]
      {
        AssignedSnoc(lines, line, s);
      }
      assert m' == m;
    }
  }

  /** One pass of the line loop: a header switches the current section, a content line is stored under it. */
  method ReadLine(read: seq<string>, line: string, current: Section, content: map<Section, seq<string>>)
    returns (current': Section, content': map<Section, seq<string>>)
    requires current == SectionAfter(read) && content == AssignedMap(read)
    ensures current' == SectionAfter(read + [line]) && content' == AssignedMap(read + [line])
  {
    SectionAfterSnoc(read, line);
    AssignedMapSnoc(read, line);
    current', content' := current, content;
    var header := HeaderOf(line);
    if header.Some? {
      current' := header.value;
    } else if Strip(line) != [] {
      content' := content[current := content[current] + [line]];
    }
  }

  /** The line loop of `_identify_sections`: track the current section and store each content line under it. */
  method CollectLines(lines: seq<string>) returns (content: map<Section, seq<string>>)
    ensures content.Keys == AllSections
    ensures forall s :: s in content ==> content[s] == Assigned(lines, s)
  {
    var current := Other;
    content := map s | s in AllSections :: [];
    assert content == AssignedMap(lines[..0]);
    var i := 0;
    while i < |lines|
      invariant 0 <= i <= |lines|
      invariant current == SectionAfter(lines[..i])
      invariant content == AssignedMap(lines[..i])
    {
      current, content := ReadLine(lines[..i], lines[i], current, content);
      assert lines[..i + 1] == lines[..i] + [lines[i]];
      i := i + 1;
    }
    assert lines[..i] == lines;
  }

  /** The conversion loop of `_identify_sections`: each section's lines, space-joined and stripped. */
  method JoinSections(content: map<Section, seq<string>>) returns (sections: map<Section, string>)
    ensures sections.Keys == content.Keys
    ensures forall s :: s in sections ==> sections[s] == JoinedLines(content[s])
  {
    sections := map[];
    var todo := content.Keys;
    while todo != {}
      invariant todo <= content.Keys
      invariant sections.Keys == content.Keys - todo
      invariant forall s :: s in sections ==> sections[s] == JoinedLines(content[s])
      decreases |todo|
    {
      var s :| s in todo;
      sections := sections[s := JoinedLines(content[s])];
      todo := todo - {s};
    }
  }

  /** `_identify_sections`: split into lines, collect each section's lines, join them. */
  method IdentifySections(text: string) returns (sections: map<Section, string>)
    ensures sections.Keys == AllSections
    ensures sections == SectionsOf(text)
  {
    var content := CollectLines(SplitOn(text, '\n'));
    sections := JoinSections(content);
  }

  /** Six counts summed: the stored lines of every section. */
  function StoredCount(lines: seq<string>): nat {
    |Assigned(lines, Summary)| + |Assigned(lines, Experience)| + |Assigned(lines, Education)|
    + |Assigned(lines, Skills)| + |Assigned(lines, Certifications)| + |Assigned(lines, Other)|
  }

  /** Each content line lands in exactly one section, and no other line is stored. */
  lemma {:induction false} EveryContentLineStoredOnce(lines: seq<string>)
    ensures StoredCount(lines) == |Filter(lines, IsContentLine)|
    decreases |lines|
  {
    if lines != [] {
      EveryContentLineStoredOnce(lines[..|lines| - 1]);
    }
  }

  /** A single line is stored under 'other' if it is a content line, and nowhere otherwise. */
  lemma AssignedSingle(line: string, s: Section)
    ensures Assigned([line], s) == if IsContentLine(line) && s == Other then [line] else []
  {
    assert [line][..0] == [];
  }

  /** Text without a newline is one line: a header stores nothing, anything else non-blank goes to 'other'. */
  lemma SingleLineSections(text: string)
    requires '\n' !in text
    ensures forall s :: s in SectionsOf(text) && s != Other ==> SectionsOf(text)[s] == ""
    ensures SectionsOf(text)[Other] == if IsContentLine(text) then Strip(text) else ""
  {
    SplitOnAbsent(text, '\n');
    var empty := Strip(Join(" ", []));
    assert empty == "";
    forall s | s in AllSections
      ensures SectionsOf(text)[s] == if IsContentLine(text) && s == Other then Strip(text) else ""
    {
      AssignedSingle(text, s);
    }
  }

  /** Cleaned text has no newline, so its summary, experience, education, skills and certifications sections are always empty. */
  lemma CleanedTextHasNoSections(raw: string)
    ensures forall s :: s in SectionsOf(CleanText(raw)) && s != Other ==> SectionsOf(CleanText(raw))[s] == ""
  {
    SingleLineSections(CleanText(raw));
  }

  // ---------------------------------------------------------------- contact info

  /**
   * `_extract_contact_info`: the first match of each pattern, under its key.
   * The three searches stand for the email, phone and LinkedIn regexes.
   */
  function ContactInfo(text: string, email: string -> Option<string>, phone: string -> Option<string>,
                       linkedin: string -> Option<string>): (info: map<string, string>)
    ensures info.Keys <= {"email", "phone", "linkedin"}
    ensures ("email" in info <==> email(text).Some?) && ("email" in info ==> info["email"] == email(text).value)
    ensures ("phone" in info <==> phone(text).Some?) && ("phone" in info ==> info["phone"] == phone(text).value)
    ensures ("linkedin" in info <==> linkedin(text).Some?) && ("linkedin" in info ==> info["linkedin"] == linkedin(text).value)
  {
    var withEmail := if email(text).Some? then map["email" := email(text).value] else map[];
    var withPhone := if phone(text).Some? then withEmail["phone" := phone(text).value] else withEmail;
    if linkedin(text).Some? then withPhone["linkedin" := linkedin(text).value] else withPhone
  }

  // ---------------------------------------------------------------- parse_resume

  /** What the document library produced: page texts for a PDF, paragraph texts for a DOCX, or its error message. */
  type Extraction = Result<seq<string>, string>

  datatype ParsedResume = ParsedResume(
    rawText: string,
    sections: map<Section, string>,
    contactInfo: map<string, string>,
    totalWords: nat)

  /** The PDF text: every page followed by a newline. */
  function PdfText(pages: seq<string>): string
    decreases |pages|
  {
    if pages == [] then "" else PdfText(pages[..|pages| - 1]) + pages[|pages| - 1] + "\n"
  }

  /** `parse_resume`: dispatch on the file name's ending, clean the extracted text, then split and count it. */
  function ParseResume(filePath: string, extraction: Extraction, email: string -> Option<string>,
                       phone: string -> Option<string>, linkedin: string -> Option<string>): (r: Result<ParsedResume, string>)
    ensures !EndsWith(filePath, ".pdf") && !EndsWith(filePath, ".docx") ==> r == Failure("Unsupported file format")
    ensures (EndsWith(filePath, ".pdf") || EndsWith(filePath, ".docx")) && extraction.Success? ==> r.Success?
    ensures extraction.Failure? ==> r.Failure?
    ensures r.Success? ==> r.value.sections.Keys == AllSections
                           && r.value.totalWords == |Words(r.value.rawText)|
                           && r.value.contactInfo.Keys <= {"email", "phone", "linkedin"}
                           && '\n' !in r.value.rawText
  {
    if EndsWith(filePath, ".pdf") then
      match extraction
      case Failure(e) => Failure("Error reading PDF: " + e)
      case Success(pages) => Success(Parsed(CleanText(PdfText(pages)), email, phone, linkedin))
    else if EndsWith(filePath, ".docx") then
      match extraction
      case Failure(e) => Failure("Error reading DOCX: " + e)
      case Success(paragraphs) => Success(Parsed(CleanText(Join("\n", paragraphs)), email, phone, linkedin))
    else Failure("Unsupported file format")
  }

  function Parsed(text: string, email: string -> Option<string>, phone: string -> Option<string>,
                  linkedin: string -> Option<string>): (p: ParsedResume)
    ensures p.rawText == text && p.sections.Keys == AllSections && p.totalWords == |Words(text)|
    ensures p.contactInfo.Keys <= {"email", "phone", "linkedin"}
  {
    ParsedResume(text, SectionsOf(text), ContactInfo(text, email, phone, linkedin), |Words(text)|)
  }

  /** A ".doc" file is rejected, although the upload check accepts that extension. */
  lemma DocRejected(stem: string, extraction: Extraction, email: string -> Option<string>,
                    phone: string -> Option<string>, linkedin: string -> Option<string>)
    ensures ParseResume(stem + ".doc", extraction, email, phone, linkedin) == Failure("Unsupported file format")
  {
    var p := stem + ".doc";
    assert p[|p| - 4..] == ".doc";
    assert p[|p| - 1] == 'c';
  }

  /** `endswith` is case-sensitive, so an upper-case ".PDF" name is refused as unsupported. */
  lemma UpperPdfRejected(stem: string, extraction: Extraction, email: string -> Option<string>,
                         phone: string -> Option<string>, linkedin: string -> Option<string>)
    ensures ParseResume(stem + ".PDF", extraction, email, phone, linkedin) == Failure("Unsupported file format")
  {
    var p := stem + ".PDF";
    assert p[|p| - 4..] == ".PDF";
    assert p[|p| - 1] == 'F';
  }

  /** Every successfully parsed resume has empty header sections: all its text is under 'other'. */
  lemma ParsedSectionsEmpty(filePath: string, extraction: Extraction, email: string -> Option<string>,
                            phone: string -> Option<string>, linkedin: string -> Option<string>)
    ensures var r := ParseResume(filePath, extraction, email, phone, linkedin);
            r.Success? ==> forall s :: s in r.value.sections && s != Other ==> r.value.sections[s] == ""
  {
    var r := ParseResume(filePath, extraction, email, phone, linkedin);
    if r.Success? {
      if EndsWith(filePath, ".pdf") {
        CleanedTextHasNoSections(PdfText(extraction.value));
      } else {
        CleanedTextHasNoSections(Join("\n", extraction.value));
      }
    }
  }
}
