/**
 * The record the résumé parser produces (src/utils/resumeParser.ts) and the
 * two entry points that build it: `parseTextContent`, which runs every
 * extractor over the decoded text, and the guards of `parseResume`, which
 * pick the decoder by file type and refuse an empty decoding.
 */
module ResumeParser {
  import opened Wrappers
  import opened Text
  import opened Regex
  import opened ResumeFields
  import opened ResumeSections

  /** `ParsedResumeData`: the fields found in a résumé, and the text they were found in. */
  datatype ParsedResumeData = ParsedResumeData(
    name: string,
    email: string,
    phone: string,
    location: string,
    summary: string,
    skills: seq<string>,
    experience: seq<string>,
    education: seq<string>,
    rawText: string)

  /** The record `parseTextContent(text)` returns, field by field. */
  function Parse(text: string): ParsedResumeData
  {
    ParsedResumeData(
      NameOf(NonBlankLines(text)),
      ExtractEmail(text),
      ExtractPhone(text),
      LocationFrom(text, 0),
      SummaryOf(text),
      SkillsOf(text),
      ExperienceOf(text),
      EducationOf(text),
      text)
  }

  /** `parseTextContent`: the extractors in the order the source calls them. */
  method ParseTextContent(text: string) returns (data: ParsedResumeData)
    ensures data == Parse(text)
    ensures WellFormed(data, text)
  {
    var lines := NonBlankLines(text);
    var email := ExtractEmail(text);
    var phone := ExtractPhone(text);
    var name := ExtractName(lines, email);
    var location := ExtractLocation(text);
    var skills := ExtractSkills(text);
    var experience := ExtractExperience(text);
    var education := ExtractEducation(text);
    var summary := ExtractSummary(text);
    data := ParsedResumeData(name, email, phone, location, summary, skills, experience, education, text);
    ParseWellFormed(text);
  }

  // ---------------------------------------------------------------------
  // What every parsed record satisfies.

  predicate NameWellFormed(name: string, text: string)
  {
    name == NameNotFound
    || (name != [] && |name| < 50 && '@' !in name && IsUpper(name[0])
        && exists l :: l in Lines(text) && name == Trim(l))
  }

  predicate ContactWellFormed(email: string, phone: string, text: string)
  {
    (email == "" || ('@' in email && Contains(text, email)))
    && ('@' !in text ==> email == "")
    && (phone == "" || (Count(DecimalDigit, phone) >= 10 && Contains(text, phone)))
    && (Count(DecimalDigit, text) < 10 ==> phone == "")
  }

  predicate ListsWellFormed(skills: seq<string>, experience: seq<string>, education: seq<string>, text: string)
  {
    |skills| <= 12 && Seqs.NoDup(skills)
    && |experience| <= 8 && (forall e :: e in experience ==> ExperienceLine(Lines(text), 0, e))
    && |education| <= 5 && (forall k :: 0 <= k < |education| ==> |education[k]| > 10)
  }

  /**
   * The record keeps the text it was parsed from; every field is empty or
   * has the shape its extractor promises.
   */
  predicate WellFormed(d: ParsedResumeData, text: string)
  {
    d.rawText == text
    && NameWellFormed(d.name, text)
    && ContactWellFormed(d.email, d.phone, text)
    && (d.location == "" || (Contains(text, d.location) && !LocationNoise(d.location)))
    && (d.summary == "" || (!Contains(Lower(d.summary), "experience") && !Contains(Lower(d.summary), "education")))
    && ListsWellFormed(d.skills, d.experience, d.education, text)
  }

  lemma NameOfWellFormed(text: string)
    ensures NameWellFormed(NameOf(NonBlankLines(text)), text)
  {
    var lines := NonBlankLines(text);
    NameShape(lines);
    var n := NameOf(lines);
    if n != NameNotFound {
      var j :| 0 <= j < |lines| && n == Trim(lines[j]);
      assert lines[j] in lines;
    }
  }

  lemma ListsOfWellFormed(text: string)
    ensures ListsWellFormed(SkillsOf(text), ExperienceOf(text), EducationOf(text), text)
  {
    ExperienceShape(text);
    EducationShape(text);
  }

  /** `parseTextContent` never fails, and what it returns is well formed. */
  lemma ParseWellFormed(text: string)
    ensures WellFormed(Parse(text), text)
  {
    NameOfWellFormed(text);
    LocationValid(text, 0);
    SummaryClean(text);
    ListsOfWellFormed(text);
  }

  // ---------------------------------------------------------------------
  // The guards of `parseResume`.

  /** The uploaded file as the parser sees it: its name and its MIME type. */
  datatype FileInfo = FileInfo(name: string, mimeType: string)

  /** The decoder `parseResume` chooses. */
  datatype Format = Pdf | Docx | Unsupported

  const PdfMime: string := "application/pdf"
  const DocxMime: string := "application/vnd.openxmlformats-officedocument.wordprocessingml.document"
  const UnsupportedFormat: string := "Unsupported file format. Please upload a PDF or DOCX file."
  const NoTextExtracted: string :=
    "No text could be extracted from the file. Please ensure the file contains readable text."

  /** The PDF type wins; otherwise a `.docx` name or the DOCX type selects the DOCX decoder. */
  function FormatOf(file: FileInfo): (f: Format)
    ensures f == Pdf <==> file.mimeType == PdfMime
    ensures f == Docx <==> file.mimeType != PdfMime && (EndsWith(file.name, ".docx") || file.mimeType == DocxMime)
  {
    if file.mimeType == PdfMime then Pdf
    else if EndsWith(file.name, ".docx") || file.mimeType == DocxMime then Docx
    else Unsupported
  }

  /**
   * `parseResume`, given the text the chosen decoder produced (`decoded`):
   * an unsupported file is refused before any decoding, a blank decoding
   * is refused, and anything else is parsed.
   */
  function ParseResume(file: FileInfo, decoded: string): (r: Result<ParsedResumeData>)
    ensures FormatOf(file) == Unsupported ==> r == Err(UnsupportedFormat)
    ensures FormatOf(file) != Unsupported && Trim(decoded) == [] ==> r == Err(NoTextExtracted)
    ensures r.Ok? <==> FormatOf(file) != Unsupported && Trim(decoded) != []
    ensures r.Ok? ==> r.value == Parse(decoded) && WellFormed(r.value, decoded)
  {
    if FormatOf(file) == Unsupported then Err(UnsupportedFormat)
    else if Trim(decoded) == [] then Err(NoTextExtracted)
    else
      ParseWellFormed(decoded);
      Ok(Parse(decoded))
  }

  /** Only a text with a non-blank character reaches the parser. */
  lemma ParseResumeNeedsText(file: FileInfo, decoded: string)
    requires ParseResume(file, decoded).Ok?
    ensures exists i :: 0 <= i < |decoded| && !IsJsSpace(decoded[i])
  {
    TrimSpec(decoded);
  }
}
