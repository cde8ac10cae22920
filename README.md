# Résumé tailoring app: a verified model of its core logic

The application takes a résumé file and turns it into material for a job hunt, in a six-step wizard:

1. It decodes the résumé's text.
2. It extracts the structured fields: name, e-mail, phone, location, summary, skills, experience and education.
3. The user picks a target role and edits the extracted fields.
4. The user attaches portfolio projects.
5. It generates a tailored résumé, a cover letter, a LinkedIn bio and a GitHub profile README.
6. It can deploy a portfolio page to Vercel.

This project is a Dafny model of the logic behind those steps, with proofs of what that logic guarantees.

- **Field extraction** (`src/utils/resumeParser.ts`).
  - Modules `ResumeParser`, `ResumeFields`, `ResumeSections` and `ResumePatterns`.
  - Each extractor that loops in the source is a method. Its postcondition ties the result to a recursive specification function, and lemmas about that function state what the extractor promises.
  - The fixed regular expressions are written as values of a small backtracking matcher (module `Regex`). It covers the fragment the parser uses:
    - character classes with `?`, `*` and `+`;
    - `\b`, `^` and `$`;
    - top-level alternatives;
    - `g`-flag `match` and `test` with an explicit `lastIndex`.
  - JavaScript's `trim`, `split`, `join`, `includes` and ASCII `toLowerCase` are in module `Text`. List helpers (`filter`, `slice`, `Set`-based dedup, index and value removal) are in module `Seqs`.
- **Generated documents** (`src/utils/contentGenerator.ts`, module `ContentGenerator`).
  - The skill prioritisation for a role.
  - The four document templates. Each is cut into named parts so the properties can see the parts.
- **Vercel deployment** (`src/utils/vercelDeployment.ts`, module `VercelDeployment`).
  - The project-name sanitiser.
  - The token guard.
  - The request that is built.
  - The shaping of the API's reply into a result or an error. The reply is a parameter.
- **The wizard** (`src/App.tsx`, module `App`). A class holding `currentStep` and `userData`, with one method per handler.
- **The résumé editor** (`src/components/DataEditor.tsx`, module `DataEditor`). A class holding `editedData` and the three input buffers.
- **The project form** (`src/components/ProjectUpload.tsx`, modules `ProjectUpload` and `Projects`). A class holding the form state. A handler that calls `onProjectsUpdate` returns the list it hands over.

## Model

| member | source | states |
|---|---|---|
| ResumeParser.ParseTextContent | src/utils/resumeParser.ts:68-110 | returns the record of all extractors' results, which is well formed for the text: `rawText` is the text, and every field is empty or has the shape its extractor promises |
| ResumeParser.ParseWellFormed | src/utils/resumeParser.ts:68-110 | parsing never fails, and every record it returns is well formed for its text |
| ResumeParser.NameOfWellFormed | src/utils/resumeParser.ts:82 | the name chosen from the non-blank lines is "Name Not Found" or a trimmed line of the text, non-empty, under 50 characters, without `@`, starting with A-Z |
| ResumeParser.ListsOfWellFormed | src/utils/resumeParser.ts:88-94 | skills: at most 12, no duplicates; experience: at most 8 trimmed lines longer than 20 characters; education: at most 5 entries longer than 10 characters |
| ResumeParser.FormatOf | src/utils/resumeParser.ts:23-31 | the PDF decoder is chosen iff the MIME type is PDF; otherwise DOCX iff the name ends in `.docx` or the MIME type is DOCX |
| ResumeParser.ParseResume | src/utils/resumeParser.ts:19-42 | unsupported file: the unsupported-format error; blank decoded text: the no-text error; success iff the format is supported and the text is not blank, and then the result is the parse of the text and is well formed |
| ResumeParser.ParseResumeNeedsText | src/utils/resumeParser.ts:33-37 | only a text with a non-white-space character reaches the parser |
| ResumeFields.NonBlankLines | src/utils/resumeParser.ts:69 | a `\n`-piece of the text is kept iff it is not blank; each kept piece is kept as often as it occurs, and the kept pieces are in the text's order |
| ResumeFields.ExtractEmail | src/utils/resumeParser.ts:72-74 | `""` or a substring of the text that contains `@`; `""` when the text has no `@`; non-empty iff the e-mail pattern matches somewhere |
| ResumeFields.ExtractPhone | src/utils/resumeParser.ts:77-79 | `""` or a substring of the text with at least 10 decimal digits; `""` when the text has fewer than 10 digits; non-empty iff the phone pattern matches somewhere |
| ResumeFields.NameFirstPass | src/utils/resumeParser.ts:114-128 | a name found by the first pass passes all of its tests |
| ResumeFields.NameSecondPass | src/utils/resumeParser.ts:131-138 | a name found by the second pass is a full-name line, without `@`, under 50 characters |
| ResumeFields.ExtractName | src/utils/resumeParser.ts:112-141 | the two loops compute the specification `NameOf`: the first pass over the first five lines, then the second pass over all lines, then "Name Not Found" |
| ResumeFields.NameShape | src/utils/resumeParser.ts:112-141 | the name is "Name Not Found" or a trimmed input line that is non-empty, under 50 characters, without `@` and starts with A-Z |
| ResumeFields.NameFirstPassWins | src/utils/resumeParser.ts:114-126 | the first of the first five lines that passes the first-pass tests is the name, and it is 6-49 characters long with no `http` and no `+` |
| ResumeFields.NameFirstPassFrom | src/utils/resumeParser.ts:114-126 | the first pass returns the earliest passing line among the first five |
| ResumeFields.NameFirstPassNone | src/utils/resumeParser.ts:114-128 | the first pass finds nothing when none of the first five lines passes |
| ResumeFields.NameSecondPassFrom | src/utils/resumeParser.ts:131-138 | the second pass returns the earliest line that passes its tests |
| ResumeFields.NameSecondPassNone | src/utils/resumeParser.ts:131-140 | the second pass finds nothing when no line passes |
| ResumeFields.NameFirstPassLine | src/utils/resumeParser.ts:115-125 | a first-pass name is one of the trimmed lines |
| ResumeFields.NameSecondPassLine | src/utils/resumeParser.ts:132-136 | a second-pass name is one of the trimmed lines |
| ResumeFields.ValidLocations | src/utils/resumeParser.ts:152-160 | every surviving match is a non-empty substring of the text that contains none of university, college, company or corp in any case |
| ResumeFields.ValidLocationsSpec | src/utils/resumeParser.ts:152-160 | a match survives iff it is one of the pattern's global matches and holds none of the four noise words; each surviving match survives as often as it occurs, in the order of the matches |
| ResumeFields.ExtractLocation | src/utils/resumeParser.ts:143-168 | the loop over the patterns computes `LocationFrom(text, 0)` |
| ResumeFields.LocationEmpty | src/utils/resumeParser.ts:151-167 | the location is `""` iff no pattern leaves a valid match |
| ResumeFields.LocationValid | src/utils/resumeParser.ts:151-167 | the location is `""` or a substring of the text free of the four noise words |
| ResumeFields.LocationFirstPattern | src/utils/resumeParser.ts:151-163 | the patterns are tried in order: the location is the first valid match of the first pattern that has one |
| ResumePatterns.EmailNeedsAt | src/utils/resumeParser.ts:72 | every way through the e-mail pattern consumes an `@` |
| ResumePatterns.EmailMatchHasAt | src/utils/resumeParser.ts:72-74 | every match of the e-mail pattern contains `@` |
| ResumePatterns.PhoneNeedsTenDigits | src/utils/resumeParser.ts:77 | every way through the phone pattern consumes at least 10 digits |
| ResumePatterns.PhoneMatchHasTenDigits | src/utils/resumeParser.ts:77-79 | every match of the phone pattern holds at least 10 digits |
| ResumePatterns.NameStartsUpper | src/utils/resumeParser.ts:124-133 | a line accepted by any of the three name patterns starts with A-Z |
| ResumePatterns.LocationPatternsNeedTwo | src/utils/resumeParser.ts:146-148 | each location pattern consumes at least two capital letters |
| ResumePatterns.LocationMatchNonEmpty | src/utils/resumeParser.ts:146-152 | every location match holds at least two capital letters, so it is not empty |
| ResumeSections.CatalogHitsSpec | src/utils/resumeParser.ts:172-185 | the catalogue hits are, in catalogue order, exactly the catalogue skills that occur in the lower-cased text |
| ResumeSections.TrimAll | src/utils/resumeParser.ts:204 | each piece trimmed, in order, with nothing added or lost |
| ResumeSections.SkillTokens | src/utils/resumeParser.ts:204 | each token of a line is trimmed and longer than 2 characters |
| ResumeSections.SkillTokensSpec | src/utils/resumeParser.ts:204 | a token is returned iff it is a trimmed piece of the line longer than 2 characters; each is returned as often as it occurs, in the order of the line |
| ResumeSections.SkillsOf | src/utils/resumeParser.ts:209-211 | at most 12 skills, none twice |
| ResumeSections.ExtractSkills | src/utils/resumeParser.ts:170-212 | the loop with the section flag computes `SkillsOf` |
| ResumeSections.SkillsCatalogFirst | src/utils/resumeParser.ts:183-211 | the deduplicated catalogue hits come first, in order; every later skill is one of the first 10 explicit tokens and not a catalogue hit; every hit occurs in the text |
| ResumeSections.SkillHitsInCatalogOrder | src/utils/resumeParser.ts:183-210 | the deduplicated hits keep catalogue order |
| ResumeSections.SkillScanOrigin | src/utils/resumeParser.ts:192-207 | the scan only appends, and each appended token comes from a line that is inside the section and is not a trigger line |
| ResumeSections.SkillScanNeedsTrigger | src/utils/resumeParser.ts:192-197 | with no trigger line the scan collects nothing |
| ResumeSections.SkillScanInSection | src/utils/resumeParser.ts:199-202 | inside the section, the scan stops at the first non-trigger line with an exit word |
| ResumeSections.SkillScanStops | src/utils/resumeParser.ts:192-202 | after a trigger line, the lines past the first later exit line never matter |
| ResumeSections.ExperienceOf | src/utils/resumeParser.ts:244-258 | at most 8 entries |
| ResumeSections.ExtractExperience | src/utils/resumeParser.ts:214-259 | the section loop followed by the fallback loop computes `ExperienceOf` |
| ResumeSections.KeepTrimmedLines | src/utils/resumeParser.ts:250-255 | the fallback loop computes the per-line filter `KeepTrimmed` |
| ResumeSections.ExperienceScanEntries | src/utils/resumeParser.ts:219-241 | the section scan only appends trimmed lines longer than 20 characters without `@` |
| ResumeSections.KeepTrimmedEntries | src/utils/resumeParser.ts:250-255 | the fallback only appends trimmed lines that it accepts |
| ResumeSections.ExperienceFallbackEntries | src/utils/resumeParser.ts:245-255 | each fallback entry is a trimmed line longer than 20 characters with a job-title word or "at/@ Capitalised" |
| ResumeSections.ExperienceShape | src/utils/resumeParser.ts:214-258 | at most 8 trimmed lines longer than 20 characters; from the section when it gave any, and then without `@`; from the fallback only when the section gave none |
| ResumeSections.ExperienceFallbackAppend | src/utils/resumeParser.ts:250-255 | the fallback judges each line on its own: running it over `a + b` is running it over `a`, then over `b` |
| ResumeSections.LastIndexLosesLine | src/utils/resumeParser.ts:245-255 | as written, a second job line whose "at X" ends before the first line's match end is dropped; the corrected fallback keeps both |
| ResumeSections.JobLinesLoseSecond | src/utils/resumeParser.ts:247-252 | two concrete lines, "at Microsoft 2019-2021" and "at Intuit, 2019 to 2021", meet the conditions of `LastIndexLosesLine` |
| ResumeSections.SharedIndexDropsSecond | src/utils/resumeParser.ts:250-254 | with one `g` pattern shared by all lines, a second line that fails from the first line's `lastIndex` is dropped |
| ResumeSections.EducationOf | src/utils/resumeParser.ts:303 | at most 5 entries |
| ResumeSections.ExtractEducation | src/utils/resumeParser.ts:261-304 | the section loop and the keyword loop compute `EducationOf` |
| ResumeSections.EducationScanEntries | src/utils/resumeParser.ts:266-287 | the section scan only appends trimmed lines longer than 10 characters without `@` |
| ResumeSections.KeywordPassAppendsFresh | src/utils/resumeParser.ts:293-301 | the keyword pass only appends lines longer than 10 characters that are not already in the list |
| ResumeSections.EducationShape | src/utils/resumeParser.ts:261-303 | at most 5 entries, each longer than 10 characters; the keyword pass extends the section's list and never repeats an entry |
| ResumeSections.SummaryStopWords | src/utils/resumeParser.ts:322-328 | a line that does not stop the block contains none of experience, education or skills |
| ResumeSections.BlockScanShape | src/utils/resumeParser.ts:318-331 | a block scan over `[j, end)` adds at most `end - j` lines, each accepted by the keep test |
| ResumeSections.SummaryBlockShape | src/utils/resumeParser.ts:318-331 | the block after a trigger line holds at most that many lines, each longer than 20 characters and free of the stop words |
| ResumeSections.CollectBlock | src/utils/resumeParser.ts:317-331 | the inner loop collects `TriggerBlock`: up to the next four lines, stopping at a stop word |
| ResumeSections.FindPrimarySummary | src/utils/resumeParser.ts:310-336 | the outer loop returns what `SummaryPrimary` finds from line 0; `SummaryPrimaryFirst` and `SummaryPrimaryNone` show that this is the block of the first trigger line with a non-empty block, or nothing when there is none |
| ResumeSections.SummaryFallback | src/utils/resumeParser.ts:339-349 | a fallback paragraph is longer than 100 characters and holds no `@`, no `+`, no experience and no education |
| ResumeSections.FindSummaryParagraph | src/utils/resumeParser.ts:339-349 | the paragraph loop returns what `SummaryFallback` finds from paragraph 0; `SummaryFallbackFirst` and `SummaryFallbackNone` show that this is the first qualifying `\n\n` paragraph, trimmed, or nothing when none qualifies |
| ResumeSections.ExtractSummary | src/utils/resumeParser.ts:306-352 | the primary search, then the fallback, then `""`, as `SummaryOf` |
| ResumeSections.SummaryPrimaryShape | src/utils/resumeParser.ts:310-334 | a primary summary is 1 to 4 lines after a trigger line, joined by single spaces |
| ResumeSections.SummaryPrimaryFirst | src/utils/resumeParser.ts:310-336 | a primary summary is the joined block of some trigger line with a non-empty block, and no earlier line is such a trigger line |
| ResumeSections.SummaryPrimaryNone | src/utils/resumeParser.ts:310-336 | the primary search finds nothing if and only if no line from the start is a trigger line with a non-empty block |
| ResumeSections.SummaryFallbackFirst | src/utils/resumeParser.ts:339-349 | a fallback summary is some paragraph, trimmed, and no earlier paragraph can stand as the summary |
| ResumeSections.SummaryFallbackNone | src/utils/resumeParser.ts:339-349 | the fallback finds nothing if and only if no paragraph from the start can stand as the summary |
| ResumeSections.JoinedBlockClean | src/utils/resumeParser.ts:333 | joining lines free of the stop words with spaces creates no experience or education |
| ResumeSections.PrimaryClean | src/utils/resumeParser.ts:310-334 | a primary summary contains neither experience nor education in any case |
| ResumeSections.SummaryClean | src/utils/resumeParser.ts:306-352 | the summary is `""` or contains neither experience nor education in any case |
| Regex.SearchSpec | src/utils/resumeParser.ts:73 | the search returns the leftmost match position: no earlier start matches, and no match at all when it fails |
| Regex.MatchAll | src/utils/resumeParser.ts:152 | every element of a global match is a match of the pattern in the text |
| Regex.MatchAllLeftmost | src/utils/resumeParser.ts:152 | a global match is empty iff no position matches; otherwise it starts with the leftmost match, and the rest is the global match resumed at that match's end (one further on after an empty match) |
| Regex.TestGlobal | src/utils/resumeParser.ts:247-252 | a global `test` succeeds iff `lastIndex` is within the text and a search from it finds a match; it then moves `lastIndex` to that match's end, and a failure resets it to 0 |
| Regex.TestGlobalLeftmost | src/utils/resumeParser.ts:247-252 | a global `test` succeeds iff some position from `lastIndex` on matches, and then `lastIndex` lands at the end of the leftmost such match |
| Text.TrimSpec | src/utils/resumeParser.ts:115 | `trim` yields a trimmed string, is the input without its leading and trailing JavaScript white space, and is empty iff the input is blank |
| Text.JoinSplit | src/utils/resumeParser.ts:69 | splitting at a character and joining with it gives the text back |
| Text.RemoveSpaces | src/utils/contentGenerator.ts:103 | no white space remains, and every other character is kept, as often as it occurs and in order |
| Seqs.DedupAppend | src/utils/resumeParser.ts:210 | deduplicating `a + b` keeps `a`'s distinct elements first, then `b`'s new ones |
| Seqs.RemoveAt | src/components/DataEditor.tsx:47 | removing index `i` drops exactly that element when `i` is in range, and changes nothing otherwise |
| Seqs.RemoveAll | src/components/ProjectUpload.tsx:59 | the value is gone, and every other element stays as often as it occurred, in order |
| ContentGenerator.LookupFromSpec | src/utils/contentGenerator.ts:144-158 | the lookup finds an entry iff the table has that key, and returns that entry's keywords |
| ContentGenerator.RelevantSpec | src/utils/contentGenerator.ts:161-166 | a skill is matched iff its lower-case form contains some keyword or some keyword contains it |
| ContentGenerator.GetRelevantSkills | src/utils/contentGenerator.ts:143-174 | at most 12 skills |
| ContentGenerator.Prioritized | src/utils/contentGenerator.ts:168-171 | matched skills first, then the unmatched ones, each group in input order; together a permutation of the input |
| ContentGenerator.RelevantSkillsSpec | src/utils/contentGenerator.ts:157-173 | the result is the first 12 of matched-then-unmatched, and every returned skill is an input skill |
| ContentGenerator.UnknownRoleKeepsOrder | src/utils/contentGenerator.ts:157-171 | a role that is not a key of the table yields the first 12 input skills in order |
| ContentGenerator.TableKeysOwn | src/utils/contentGenerator.ts:144-155 | no `Object.prototype` member name is a key of the table |
| ContentGenerator.AsWrittenThrows | src/utils/contentGenerator.ts:157-166 | as written, the lookup throws (with `relevantKeywords.some is not a function`) iff the lower-case role names an `Object.prototype` member and there is a skill; otherwise it agrees with the corrected lookup |
| ContentGenerator.InheritedRoleThrows | src/utils/contentGenerator.ts:157-166 | for such a role, the as-written function throws where the corrected one keeps the first 12 skills |
| ContentGenerator.ConstructorRoleInherited | src/utils/contentGenerator.ts:157-158 | the role "Constructor" lower-cases to an `Object.prototype` member |
| ContentGenerator.FirstSentenceSpec | src/utils/contentGenerator.ts:71 | the summary's first sentence is its text up to the first full stop, and ends with a full stop |
| ContentGenerator.FirstNameSpec | src/utils/contentGenerator.ts:108 | the first name is the name up to its first space, and holds no space |
| ContentGenerator.ProjectBlocks | src/utils/contentGenerator.ts:46-48 | one block per project, in order |
| ContentGenerator.GenerateTailoredResume | src/utils/contentGenerator.ts:24-61 | the `+=` construction computes `TailoredResumeText`, which starts with name and role and ends with the education block |
| ContentGenerator.TailoredResumeShape | src/utils/contentGenerator.ts:27-58 | starts with the name, a newline and the role; ends with education and achievements; the projects block is absent without projects; each project's block is present otherwise |
| ContentGenerator.TailoredResumeDefaults | src/utils/contentGenerator.ts:38-52 | no experience: the four default bullets; no education: "Education details to be added"; otherwise every entry appears |
| ContentGenerator.ExperienceBodyInResume | src/utils/contentGenerator.ts:37-41 | whatever the experience block contains, the résumé contains |
| ContentGenerator.EducationBodyInResume | src/utils/contentGenerator.ts:51-52 | whatever the education block contains, the résumé contains |
| ContentGenerator.CoverLetter | src/utils/contentGenerator.ts:63-85 | the letter ends with "Best regards," and a newline, then the name |
| ContentGenerator.LinkedInBio | src/utils/contentGenerator.ts:87-104 | the bio opens with the role and a vertical bar, and ends with the hashtags, whose first tag is the role with no white space |
| ContentGenerator.GitHubBio | src/utils/contentGenerator.ts:106-141 | the profile opens with the greeting of the first space-separated word of the name, which holds no space |
| ContentGenerator.GenerateContent | src/utils/contentGenerator.ts:11-22 | the four documents: the résumé headed by name and role and closed by education; the letter signed with the name; the bio led by the role; the profile greeting the first name |
| VercelDeployment.ReplaceInvalid | src/utils/vercelDeployment.ts:26 | same length, only `a-z0-9-`; valid characters are kept in place and every other character becomes a dash |
| VercelDeployment.CollapseDashes | src/utils/vercelDeployment.ts:27 | a subsequence of the input that is shorter by exactly the dashes that follow a dash, with the same non-dash characters and no two dashes in a row; valid characters stay valid |
| VercelDeployment.CollapseKeeps | src/utils/vercelDeployment.ts:27 | a name without double dashes is left alone |
| VercelDeployment.DropLeadingDash | src/utils/vercelDeployment.ts:28 | a suffix of the input, one shorter exactly when the input starts with a dash; an input without double dashes leaves no dash in front |
| VercelDeployment.DropTrailingDash | src/utils/vercelDeployment.ts:28 | a prefix of the input, one shorter exactly when the input ends with a dash; an input without double dashes leaves no dash at the end |
| VercelDeployment.StripDashes | src/utils/vercelDeployment.ts:28 | the input without its leading dash and its trailing dash, where it has them, and otherwise unchanged; an input without double dashes leaves a dash at neither end |
| VercelDeployment.PrefixKeeps | src/utils/vercelDeployment.ts:29 | the 63-character cut keeps the allowed characters, no double dashes and no leading dash |
| VercelDeployment.SanitizeProjectName | src/utils/vercelDeployment.ts:24-29 | the sanitised name has at most 63 characters, only `a-z0-9-`, no `--`, and no leading dash |
| VercelDeployment.SanitizeClean | src/utils/vercelDeployment.ts:24-29 | an already clean name is returned unchanged |
| VercelDeployment.SanitizeMayEndWithDash | src/utils/vercelDeployment.ts:28-29 | the cut to 63 runs after the ends are stripped, so it can leave a trailing dash |
| VercelDeployment.SanitizeAgainDropsDash | src/utils/vercelDeployment.ts:24-29 | sanitising such a name again drops that dash, so sanitising is not idempotent |
| VercelDeployment.BuildDeployRequest | src/utils/vercelDeployment.ts:20-75 | an empty token is refused before any request; otherwise a bearer request to the deployments endpoint, for the sanitised name, with `index.html` holding the page and `vercel.json` holding the static-build configuration, targeting production |
| VercelDeployment.DecimalRoundTrip | src/utils/vercelDeployment.ts:82 | the HTTP status printed in decimal reads back as the status |
| VercelDeployment.DeployFailureReportsStatus | src/utils/vercelDeployment.ts:82-88 | the error starts with the status in decimal (which reads back as the status) and the status text; the API's message follows after ". " when there is one, and nothing follows otherwise |
| VercelDeployment.DeployToVercel | src/utils/vercelDeployment.ts:15-113 | error on empty token, on a failed reply, and on a reply missing url or id; success iff none of those, with `https://` + url, the id, and status `readyState` or "BUILDING" |
| VercelDeployment.BuildStatusRequest | src/utils/vercelDeployment.ts:120-124 | the URL is the deployments endpoint, a slash and the id, sent with the bearer token |
| VercelDeployment.CheckDeploymentStatus | src/utils/vercelDeployment.ts:115-140 | a failed reply reports its status; otherwise status is `readyState` or "UNKNOWN", and the url is present iff the reply has one, prefixed with `https://` |
| App.Wizard.constructor | src/App.tsx:20-34 | step 1 and the empty record |
| App.Wizard.HandleFileUpload | src/App.tsx:36-44 | the extracted data, an empty role, the file, no projects; step 2 |
| App.Wizard.HandleRoleSelection | src/App.tsx:46-52 | only the role changes; step 3 |
| App.Wizard.HandleDataUpdate | src/App.tsx:54-60 | the parsed fields are replaced; role, file and projects kept; step 4 |
| App.Wizard.HandleProjectsUpdate | src/App.tsx:62-67 | only the projects change, and the step stays |
| App.Wizard.HandleProjectsContinue | src/App.tsx:69-71 | step 5 from any step; data kept |
| App.Wizard.HandlePortfolioDeployment | src/App.tsx:73-75 | step 6 from any step; data kept |
| App.Wizard.HandleBackToResults | src/App.tsx:77-79 | step 5 from any step; data kept |
| App.Wizard.HandleRestart | src/App.tsx:81-97 | step 1 and a record equal to the initial one; the step stays within 1..6 throughout |
| App.EmptyUserData | src/App.tsx:83-96 | the record written out in `handleRestart` equals the initial state's record |
| DataEditor.WithField | src/components/DataEditor.tsx:27-32 | only the named text field takes the value; the lists and the other fields are unchanged |
| DataEditor.WithFieldReadBack | src/components/DataEditor.tsx:27-32 | reading back a field gives the value set; setting a field to its own value changes nothing; other fields read as before |
| DataEditor.AddEntry | src/components/DataEditor.tsx:35-38 | blank input: list unchanged; otherwise the trimmed, non-empty input appended |
| DataEditor.AddThenRemove | src/components/DataEditor.tsx:34-49 | removing the entry just added restores the list |
| DataEditor.Editor.constructor | src/components/DataEditor.tsx:11-25 | the editor starts on a copy of the nine fields, with empty input buffers |
| DataEditor.Editor.HandleInputChange | src/components/DataEditor.tsx:27-32 | only the named field changes; the buffers are kept |
| DataEditor.Editor.SetNewSkill | src/components/DataEditor.tsx:215 | only the skill buffer changes |
| DataEditor.Editor.SetNewExperience | src/components/DataEditor.tsx:258 | only the experience buffer changes |
| DataEditor.Editor.SetNewEducation | src/components/DataEditor.tsx:302 | only the education buffer changes |
| DataEditor.Editor.AddSkill | src/components/DataEditor.tsx:34-42 | a blank skill changes nothing; otherwise the trimmed skill is appended and its buffer cleared; nothing else changes |
| DataEditor.Editor.RemoveSkill | src/components/DataEditor.tsx:44-49 | the skill at the index is dropped, the rest kept in order; an out-of-range index changes nothing |
| DataEditor.Editor.AddExperience | src/components/DataEditor.tsx:51-59 | as `AddSkill`, for experience |
| DataEditor.Editor.RemoveExperience | src/components/DataEditor.tsx:61-66 | as `RemoveSkill`, for experience |
| DataEditor.Editor.AddEducation | src/components/DataEditor.tsx:68-76 | as `AddSkill`, for education |
| DataEditor.Editor.RemoveEducation | src/components/DataEditor.tsx:78-83 | as `RemoveSkill`, for education |
| DataEditor.Editor.HandleSave | src/components/DataEditor.tsx:85-87 | the callback receives the edited record as it stands |
| ProjectUpload.RemoveProject | src/components/ProjectUpload.tsx:42-44 | exactly the projects with another id remain, each as often as before, in order |
| ProjectUpload.AddThenRemoveProject | src/components/ProjectUpload.tsx:23-44 | removing by a fresh id the project just added under it restores the list |
| ProjectUpload.AddTechnology | src/components/ProjectUpload.tsx:46-54 | the trimmed name is appended iff it is not blank and not listed; otherwise the list is unchanged; afterwards it is listed iff it was non-blank or already there |
| ProjectUpload.AddTechnologyValid | src/components/ProjectUpload.tsx:46-54 | adding keeps the technologies trimmed, non-empty and free of duplicates |
| ProjectUpload.RemoveTechnologyValid | src/components/ProjectUpload.tsx:56-61 | removing keeps the technologies trimmed, non-empty and free of duplicates |
| ProjectUpload.AddThenRemoveTechnology | src/components/ProjectUpload.tsx:46-61 | removing a technology just added restores the list |
| ProjectUpload.WithDraftField | src/components/ProjectUpload.tsx:184-217 | only the named text input of the form changes |
| ProjectUpload.ProjectUploader.constructor | src/components/ProjectUpload.tsx:12-21 | a closed, empty form |
| ProjectUpload.ProjectUploader.SetShowAddForm | src/components/ProjectUpload.tsx:156-171 | only the form's visibility changes |
| ProjectUpload.ProjectUploader.SetDraftField | src/components/ProjectUpload.tsx:184-217 | only the named field of the project being filled in changes |
| ProjectUpload.ProjectUploader.SetNewTechnology | src/components/ProjectUpload.tsx:271 | only the technology buffer changes |
| ProjectUpload.ProjectUploader.HandleImageLoaded | src/components/ProjectUpload.tsx:67-72 | only the screenshot changes, to the data URL read |
| ProjectUpload.ProjectUploader.HandleAddProject | src/components/ProjectUpload.tsx:23-40 | title and description not blank: the list plus the project under the id is handed on, and the form is reset and closed; otherwise nothing is handed on and nothing changes |
| ProjectUpload.ProjectUploader.HandleRemoveProject | src/components/ProjectUpload.tsx:42-44 | the list handed on has no project with that id |
| ProjectUpload.ProjectUploader.HandleAddTechnology | src/components/ProjectUpload.tsx:46-54 | technologies become `AddTechnology` of the buffer; the buffer is cleared iff it was added; the list stays valid |
| ProjectUpload.ProjectUploader.HandleRemoveTechnology | src/components/ProjectUpload.tsx:56-61 | every entry equal to the name is dropped; the list stays valid |

## Left out

- `parseResume`'s decoders are not modelled: `extractTextFromPDF` (pdf.js) and mammoth's DOCX reader are foreign libraries doing file I/O. `ResumeParser.ParseResume` takes the decoded text as a parameter and keeps the format choice and the blank-text guard. The `console.error` and rethrow in its `catch` are left out too.
- `fetch` and `response.json()` in `deployToVercel` and `checkDeploymentStatus` are network I/O. The reply is a parameter, `DeployReply` or `StatusReply`.
  - Its fields are strings, and `""` stands for a missing or falsy JSON value; a non-string JSON value is not modelled.
  - The `error.message` of an unparsable or message-less error body is `""`.
  - Thrown errors are `Err` results, and the `console.log` calls are left out.
- The `vercel.json` file's contents are the fixed string that `JSON.stringify` produces; it is a constant, not a serialiser.
- `Text.Lower` maps only A-Z. JavaScript's `toLowerCase` also maps non-ASCII letters.
- Strings are sequences of Unicode code points, whereas JavaScript lengths count UTF-16 units. The length tests (`> 5`, `< 50`, `> 20`, `> 10`, `> 100`) and the 63-character cut differ for characters outside the Basic Multilingual Plane.
- The regular-expression matcher covers only the constructs the parser's fixed patterns use. It is not a general JavaScript regex engine.
- `Date.now().toString()` (the id of a new project) is a parameter of `HandleAddProject`. The `FileReader` read of a screenshot is I/O: `HandleImageLoaded` takes the data URL it produces.
- `onProjectsUpdate` and `onDataUpdate` are calls into the parent component. `HandleAddProject` and `HandleRemoveProject` return the list handed over (`None` when nothing is), and `HandleSave` returns the record.
- DataEditor.Editor.HandleInputChange: only the six text fields are modelled. The source's `keyof ParsedResumeData` also admits the list-valued keys, but the editor never passes them.
- React's rendering, its batching of state updates and the `prev =>` updater closures are not modelled. Each handler is a method that runs to completion before the next one starts.
- ResumeSections.ExtractExperience: uses the corrected experience fallback, which judges each line on its own. The `lastIndex` carried by the source's shared `g` pattern is modelled separately, by `ResumeSections.ExperienceFallbackAsWritten` (see Findings).
- ResumeSections.ExperienceOf: specifies that corrected fallback, not the shared `lastIndex`.
- ResumeParser.Parse: takes its experience from `ExperienceOf`, so from the corrected fallback.
- ResumeParser.ParseTextContent: is proved equal to `Parse`, so it too uses the corrected fallback.
- ContentGenerator.GetRelevantSkills: reads the keyword table through its own keys only. The source's prototype-chain lookup is `ContentGenerator.GetRelevantSkillsAsWritten` (see Findings).
- ContentGenerator.GenerateTailoredResume: builds the résumé from the own-key `GetRelevantSkills`. For a role whose lower-case form is `constructor` or `__proto__`, with at least one skill, the source throws `relevantKeywords.some is not a function` before any text is built. The model returns a résumé instead; `ContentGenerator.AsWrittenThrows` states exactly when the source throws.
- ContentGenerator.CoverLetter: for that role and at least one skill, the source throws and the model returns a letter, for the same reason.
- ContentGenerator.LinkedInBio: for that role and at least one skill, the source throws and the model returns a bio, for the same reason.
- ContentGenerator.GitHubBio: for that role and at least one skill, the source throws and the model returns a profile, for the same reason.
- ContentGenerator.GenerateContent: for that role and at least one skill, the source's `generateContent` throws and the model returns four documents. Whether it throws is exactly the `Err` case of `GetRelevantSkillsAsWritten` in `AsWrittenThrows`. A version returning that error could not be stated within the proof budget, because the four templates make any term over `GenerateContent` expensive.
- ResumeParser.ParseResume: its result is `Parse` of the decoded text, and so uses the corrected experience fallback. On the two job lines under Findings, the source's `parseResume` keeps one experience line where the model keeps two.
- ContentGenerator.GetRelevantSkills: its own contract states only the cap of 12. Order, membership and the permutation are in `Prioritized`, `RelevantSkillsSpec` and `UnknownRoleKeepsOrder`.
- ResumeFields.ValidLocations: its own contract states only what a surviving match looks like. That every clean match survives, with its multiplicity and in order, is `ValidLocationsSpec`; the two are kept apart so that the location proofs stay small.
- ResumeSections.SkillTokens: its own contract states only what a token looks like. That every long enough trimmed piece is a token, with its multiplicity and in order, is `SkillTokensSpec`; kept apart for the same reason.
- Regex.MatchAll: its own contract states only that each element is a match. Emptiness, the leftmost first element and how the rest resumes are `MatchAllLeftmost`; kept apart for the same reason.
- ResumeFields.NameFirstPassWins: states the length bounds and the absence of `http` and `+` for a first-pass name, but not the absence of `www.`. The `www.` test is part of the predicate the pass applies.
- `src/utils/portfolioGenerator.ts` and `src/utils/pdfGenerator.ts` are not part of this model: one is an HTML template with a clock read, the other is jsPDF layout calls.
- `src/components/PortfolioDeployment.tsx`, `Results.tsx`, `FileUpload.tsx`, `RoleSelection.tsx` and `BuiltWithBoltBadge.tsx` are not part of this model: they are rendering, clipboard, timers, downloads and drag events.

## Findings

| source | as written | input that shows it | evidently intended | confidence | as-written member | corrected member |
|---|---|---|---|---|---|---|
| src/utils/resumeParser.ts:245-255 | The fallback tests each line with `.test` against the `g`-flagged pattern for "at" or "@", then white space, then a capitalised word. Because of the `g` flag, the pattern's `lastIndex` carries over from one line to the next, so a line is searched only from where the previous match ended. | A text with no experience heading and the two lines `at Microsoft 2019-2021` and `at Intuit, 2019 to 2021`. The first match ends at 12; the second line's only match ends at 9, so the second line is dropped. | Each line is judged on its own: both lines are job lines and both are kept. | not executed | ResumeSections.ExperienceFallbackAsWritten (shown by ResumeSections.LastIndexLosesLine and ResumeSections.JobLinesLoseSecond) | ResumeSections.ExperienceFallback (ResumeSections.ExperienceFallbackAppend, ResumeSections.ExperienceFallbackEntries) |
| src/utils/contentGenerator.ts:157-166 | `roleKeywords[roleLower]` reads through the prototype chain. For a role whose lower-case form names an `Object.prototype` member, the lookup yields a function or an object, which is truthy. The `[]` default therefore does not apply, and `.some` throws a TypeError as soon as there is a skill. | Target role `Constructor` (the role picker accepts custom roles) with at least one skill. | An unknown role has no keywords, and the first 12 skills are kept in order. | not executed | ContentGenerator.GetRelevantSkillsAsWritten (shown by ContentGenerator.InheritedRoleThrows and ContentGenerator.ConstructorRoleInherited) | ContentGenerator.GetRelevantSkills (ContentGenerator.UnknownRoleKeepsOrder, ContentGenerator.AsWrittenThrows) |
