/**
 * The list fields and the summary that the résumé parser
 * (src/utils/resumeParser.ts) extracts by walking the lines of the text:
 * skills, experience, education and summary. Each extractor has its own
 * trigger and exit words; in every one of them a line is checked for a
 * trigger word before it is checked for an exit word.
 *
 * Each scan is specified by a function that walks `lines[i..]` with the
 * list built so far as an accumulator, as the source's loops do.
 */
module ResumeSections {
  import opened Wrappers
  import opened Text
  import opened Seqs
  import opened Regex
  import opened ResumePatterns
  import opened ResumeFields

  // ---------------------------------------------------------------------
  // Skills.

  const SkillCatalog: seq<string> :=
    ["javascript", "python", "react", "node.js", "typescript", "html", "css",
     "sql", "aws", "docker", "kubernetes", "git", "agile", "scrum",
     "machine learning", "data analysis", "figma", "photoshop", "excel",
     "project management", "leadership", "communication", "java", "c++",
     "angular", "vue.js", "mongodb", "postgresql", "redis", "jenkins",
     "terraform", "ansible", "linux", "windows", "macos", "azure",
     "google cloud", "firebase", "graphql", "rest api", "microservices",
     "devops", "ci/cd", "testing", "debugging", "optimization"]

  /** The character class `[,•·\-\|]` a skills line is split on. */
  const SkillSeparators: set<char> := {',', '\U{2022}', '\U{B7}', '-', '|'}

  /** Whether a catalog entry, lower-cased, occurs in the lower-cased text. */
  predicate InText(text: string, skill: string)
  {
    Contains(Lower(text), Lower(skill))
  }

  function OccursIn(text: string): string -> bool
  {
    skill => InText(text, skill)
  }

  /** The catalog entries whose lower-case form occurs in the lower-cased text, in catalog order. */
  function CatalogHits(text: string): seq<string>
  {
    Filter(SkillCatalog, OccursIn(text))
  }

  /** The hits keep catalog order, and an entry is a hit exactly when it occurs in the text. */
  lemma CatalogHitsSpec(text: string)
    ensures var r := CatalogHits(text);
      IsSubsequence(r, SkillCatalog)
      && forall s :: s in r <==> s in SkillCatalog && InText(text, s)
  {
    FilterIsSubsequence(SkillCatalog, OccursIn(text));
    FilterSpec(SkillCatalog, OccursIn(text));
  }

  /** Each piece trimmed. */
  function TrimAll(pieces: seq<string>): (r: seq<string>)
    ensures |r| == |pieces|
    ensures forall i :: 0 <= i < |pieces| ==> r[i] == Trim(pieces[i]) && IsTrimmed(r[i])
  {
    if pieces == [] then []
    else
      TrimSpec(pieces[0]);
      var rest := TrimAll(pieces[1..]);
      assert forall i :: 1 <= i < |pieces| ==> rest[i - 1] == Trim(pieces[i]) && IsTrimmed(rest[i - 1]);
      [Trim(pieces[0])] + rest
  }

  /** What a skill token is: longer than two characters and trimmed. */
  predicate SkillToken(t: string)
  {
    |t| > 2 && IsTrimmed(t)
  }

  /** `line.split(/[,•·\-\|]/).map(s => s.trim()).filter(s => s.length > 2)` */
  function SkillTokens(line: string): (r: seq<string>)
    ensures forall t :: t in r ==> SkillToken(t)
  {
    var keep := t => |t| > 2;
    FilterSpec(TrimAll(Split(line, SkillSeparators)), keep);
    Filter(TrimAll(Split(line, SkillSeparators)), keep)
  }

  /**
   * Every trimmed piece of the line longer than two characters is a token,
   * as often as it occurs and in the order of the line; no other piece is.
   */
  lemma SkillTokensSpec(line: string)
    ensures var pieces := TrimAll(Split(line, SkillSeparators));
      var r := SkillTokens(line);
      && (forall t :: t in r <==> t in pieces && |t| > 2)
      && (forall t :: multiset(r)[t] == if |t| > 2 then multiset(pieces)[t] else 0)
      && IsSubsequence(r, pieces)
  {
    var pieces := TrimAll(Split(line, SkillSeparators));
    var keep := t => |t| > 2;
    FilterSpec(pieces, keep);
    FilterCount(pieces, keep);
    FilterIsSubsequence(pieces, keep);
  }

  /** A lower-cased, trimmed line that opens the skills section. */
  predicate SkillTrigger(low: string)
  {
    ContainsAny(low, ["skill", "technolog", "competenc"])
  }

  /** A lower-cased, trimmed line that ends the skills scan. */
  predicate SkillExit(low: string)
  {
    ContainsAny(low, ["experience", "education", "work"])
  }

  /**
   * The section scan of `extractSkills` over `lines[i..]`: `inSection` is
   * the section flag on entry and `acc` the tokens collected so far.
   */
  function SkillScan(lines: seq<string>, i: nat, inSection: bool, acc: seq<string>): seq<string>
    requires i <= |lines|
    decreases |lines| - i
  {
    if i == |lines| then acc
    else
      var low := Lower(Trim(lines[i]));
      if SkillTrigger(low) then SkillScan(lines, i + 1, true, acc)
      else if inSection && low != [] then
        if SkillExit(low) then acc
        else SkillScan(lines, i + 1, inSection, acc + SkillTokens(lines[i]))
      else SkillScan(lines, i + 1, inSection, acc)
  }

  /** The skills `extractSkills` returns. */
  function SkillsOf(text: string): (r: seq<string>)
    ensures |r| <= 12 && NoDup(r)
  {
    var all := Dedup(CatalogHits(text) + Take(SkillScan(Lines(text), 0, false, []), 10));
    Take(all, 12)
  }

  /** `extractSkills`: catalog hits first, then at most ten explicit tokens, without repeats, at most twelve in all. */
  method ExtractSkills(text: string) returns (skills: seq<string>)
    ensures skills == SkillsOf(text)
  {
    var foundSkills := CatalogHits(text);
    var lines := Lines(text);
    var inSkillsSection := false;
    var explicitSkills: seq<string> := [];
    var i := 0;
    while i < |lines|
      invariant 0 <= i <= |lines|
      invariant SkillScan(lines, i, inSkillsSection, explicitSkills) == SkillScan(lines, 0, false, [])
    {
      var line := lines[i];
      var trimmed := Lower(Trim(line));
      if SkillTrigger(trimmed) {
        inSkillsSection := true;
        i := i + 1;
        continue;
      }
      if inSkillsSection && trimmed != [] {
        if SkillExit(trimmed) {
          break;
        }
        explicitSkills := explicitSkills + SkillTokens(line);
      }
      i := i + 1;
    }
    skills := Take(Dedup(foundSkills + Take(explicitSkills, 10)), 12);
  }

  /**
   * Catalog hits come first, each occurring in the lower-cased text; what
   * follows them is among the first ten explicit tokens and is no catalog
   * hit.
   */
  lemma SkillsCatalogFirst(text: string)
    ensures var hits := Dedup(CatalogHits(text));
      var explicit := Take(SkillScan(Lines(text), 0, false, []), 10);
      var r := SkillsOf(text);
      (forall i :: 0 <= i < |r| && i < |hits| ==> r[i] == hits[i])
      && (forall i :: |hits| <= i < |r| ==> r[i] in explicit && r[i] !in CatalogHits(text))
      && (forall h :: h in hits ==> InText(text, h))
  {
    var found := CatalogHits(text);
    DedupTakeAppend(found, Take(SkillScan(Lines(text), 0, false, []), 10), 12);
    CatalogHitsSpec(text);
  }

  /** The catalog hits keep catalog order. */
  lemma SkillHitsInCatalogOrder(text: string)
    ensures IsSubsequence(Dedup(CatalogHits(text)), SkillCatalog)
  {
    var found := CatalogHits(text);
    CatalogHitsSpec(text);
    DedupIsSubsequence(found, {});
    SubsequenceTransitive(Dedup(found), found, SkillCatalog);
  }

  /** A token `t` of line `j` that the scan may collect: the line is neither a trigger nor an exit line. */
  predicate TokenOfLine(lines: seq<string>, j: int, t: string)
  {
    0 <= j < |lines| && t in SkillTokens(lines[j])
    && !SkillTrigger(Lower(Trim(lines[j]))) && !SkillExit(Lower(Trim(lines[j])))
  }

  /** A token the scan of `lines[i..]` may collect. */
  predicate CollectedToken(lines: seq<string>, i: int, t: string)
  {
    SkillToken(t) && exists j :: i <= j < |lines| && TokenOfLine(lines, j, t)
  }

  /**
   * The scan only appends, and every token it appends is longer than two
   * characters, trimmed, and a token of a line from `i` on that is neither
   * a trigger nor an exit line.
   */
  lemma {:induction false} SkillScanOrigin(lines: seq<string>, i: nat, inSection: bool, acc: seq<string>)
    requires i <= |lines|
    ensures var r := SkillScan(lines, i, inSection, acc);
      acc <= r
      && forall t :: t in r ==> t in acc || CollectedToken(lines, i, t)
    decreases |lines| - i
  {
    if i < |lines| {
      var low := Lower(Trim(lines[i]));
      if SkillTrigger(low) {
        SkillScanOrigin(lines, i + 1, true, acc);
      } else if inSection && low != [] {
        if !SkillExit(low) {
          var acc' := acc + SkillTokens(lines[i]);
          SkillScanOrigin(lines, i + 1, inSection, acc');
          var r := SkillScan(lines, i, inSection, acc);
          assert r == SkillScan(lines, i + 1, inSection, acc');
          forall t | t in r && t !in acc
            ensures CollectedToken(lines, i, t)
          {
            if t in acc' {
              assert TokenOfLine(lines, i, t);
            }
          }
        }
      } else {
        SkillScanOrigin(lines, i + 1, inSection, acc);
      }
    }
  }

  /** Without a line that opens the skills section, the scan collects nothing. */
  lemma {:induction false} SkillScanNeedsTrigger(lines: seq<string>, i: nat, acc: seq<string>)
    requires i <= |lines|
    requires forall j :: i <= j < |lines| ==> !SkillTrigger(Lower(Trim(lines[j])))
    ensures SkillScan(lines, i, false, acc) == acc
    decreases |lines| - i
  {
    if i < |lines| {
      SkillScanNeedsTrigger(lines, i + 1, acc);
    }
  }

  /**
   * Inside the section, an exit line (non-blank, no trigger word) at `e`
   * ends the scan: the lines after it do not matter.
   */
  lemma {:induction false} SkillScanInSection(lines: seq<string>, i: nat, e: nat, acc: seq<string>)
    requires i <= e < |lines|
    requires var low := Lower(Trim(lines[e])); !SkillTrigger(low) && low != [] && SkillExit(low)
    ensures SkillScan(lines, i, true, acc) == SkillScan(lines[..e + 1], i, true, acc)
    decreases e - i
  {
    var pre := lines[..e + 1];
    assert pre[i] == lines[i];
    if i < e {
      var low := Lower(Trim(lines[i]));
      if SkillTrigger(low) {
        SkillScanInSection(lines, i + 1, e, acc);
      } else if low != [] && SkillExit(low) {
      } else if low != [] {
        SkillScanInSection(lines, i + 1, e, acc + SkillTokens(lines[i]));
      } else {
        SkillScanInSection(lines, i + 1, e, acc);
      }
    }
  }

  /**
   * Once a trigger line at `t` has opened the section, the first later exit
   * line `e` ends the scan: the lines after it do not matter.
   */
  lemma {:induction false} SkillScanStops(lines: seq<string>, i: nat, inSection: bool, t: nat, e: nat, acc: seq<string>)
    requires i <= t < e < |lines|
    requires SkillTrigger(Lower(Trim(lines[t])))
    requires var low := Lower(Trim(lines[e])); !SkillTrigger(low) && low != [] && SkillExit(low)
    ensures SkillScan(lines, i, inSection, acc) == SkillScan(lines[..e + 1], i, inSection, acc)
    decreases t - i
  {
    var pre := lines[..e + 1];
    assert pre[i] == lines[i];
    if inSection {
      SkillScanInSection(lines, i, e, acc);
    } else if SkillTrigger(Lower(Trim(lines[i]))) {
      SkillScanInSection(lines, i + 1, e, acc);
    } else {
      SkillScanStops(lines, i + 1, false, t, e, acc);
    }
  }

  // ---------------------------------------------------------------------
  // Experience.

  predicate ExperienceTrigger(low: string)
  {
    ContainsAny(low, ["experience", "work history", "employment", "professional experience"])
  }

  predicate ExperienceExit(low: string)
  {
    ContainsAny(low, ["education", "skills", "certifications"])
  }

  /**
   * The section scan of `extractExperience` over `lines[i..]`: `inSection`
   * is the section flag on entry and `acc` the lines kept so far.
   * (`includes('@')` is membership of the character.)
   */
  function ExperienceScan(lines: seq<string>, i: nat, inSection: bool, acc: seq<string>): seq<string>
    requires i <= |lines|
    decreases |lines| - i
  {
    if i == |lines| then acc
    else
      var trimmed := Trim(lines[i]);
      var low := Lower(trimmed);
      if ExperienceTrigger(low) then ExperienceScan(lines, i + 1, true, acc)
      else if inSection && trimmed != [] then
        if ExperienceExit(low) then acc
        else ExperienceScan(lines, i + 1, inSection,
                            if |trimmed| > 20 && '@' !in trimmed then acc + [trimmed] else acc)
      else ExperienceScan(lines, i + 1, inSection, acc)
  }

  /** A line that looks like a job: a job-title keyword, or "at"/"@" before a capitalised word. */
  predicate JobLine(trimmed: string)
  {
    Test(JobTitlePattern, trimmed) || Test(AtCompanyPattern, trimmed)
  }

  /** What the fallback keeps: a trimmed line longer than 20 characters that looks like a job. */
  predicate FallbackKeeps(trimmed: string)
  {
    |trimmed| > 20 && JobLine(trimmed)
  }

  /**
   * The trimmed lines of `lines[i..]` that `keep` accepts, appended in
   * order to `acc`: a pass that judges each line on its own.
   */
  function KeepTrimmed(lines: seq<string>, i: nat, acc: seq<string>, keep: string -> bool): seq<string>
    requires i <= |lines|
    decreases |lines| - i
  {
    if i == |lines| then acc
    else
      var trimmed := Trim(lines[i]);
      KeepTrimmed(lines, i + 1, if keep(trimmed) then acc + [trimmed] else acc, keep)
  }

  /** The loop that computes `KeepTrimmed` from the first line. */
  method KeepTrimmedLines(lines: seq<string>, keep: string -> bool) returns (kept: seq<string>)
    ensures kept == KeepTrimmed(lines, 0, [], keep)
  {
    kept := [];
    for k := 0 to |lines|
      invariant KeepTrimmed(lines, k, kept, keep) == KeepTrimmed(lines, 0, [], keep)
    {
      var trimmed := Trim(lines[k]);
      if keep(trimmed) {
        kept := kept + [trimmed];
      }
    }
  }

  /** The fallback of `extractExperience` over `lines[i..]`, after the lines `acc`. */
  function ExperienceFallback(lines: seq<string>, i: nat, acc: seq<string>): seq<string>
    requires i <= |lines|
  {
    KeepTrimmed(lines, i, acc, FallbackKeeps)
  }

  /** The experience list `extractExperience` returns (with the fallback judging each line on its own). */
  function ExperienceOf(text: string): (r: seq<string>)
    ensures |r| <= 8
  {
    var lines := Lines(text);
    var section := ExperienceScan(lines, 0, false, []);
    Take(if section != [] then section else ExperienceFallback(lines, 0, []), 8)
  }

  method ExtractExperience(text: string) returns (experience: seq<string>)
    ensures experience == ExperienceOf(text)
  {
    var lines := Lines(text);
    var experienceLines: seq<string> := [];
    var inExperienceSection := false;
    var i := 0;
    while i < |lines|
      invariant 0 <= i <= |lines|
      invariant ExperienceScan(lines, i, inExperienceSection, experienceLines) == ExperienceScan(lines, 0, false, [])
    {
      var trimmed := Trim(lines[i]);
      var lowerTrimmed := Lower(trimmed);
      if ExperienceTrigger(lowerTrimmed) {
        inExperienceSection := true;
        i := i + 1;
        continue;
      }
      if inExperienceSection && trimmed != [] {
        if ExperienceExit(lowerTrimmed) {
          break;
        }
        if |trimmed| > 20 && '@' !in trimmed {
          experienceLines := experienceLines + [trimmed];
        }
      }
      i := i + 1;
    }
    if |experienceLines| == 0 {
      experienceLines := KeepTrimmedLines(lines, FallbackKeeps);
    }
    experience := Take(experienceLines, 8);
  }

  /** A trimmed line of `lines[i..]` longer than 20 characters. */
  predicate ExperienceLine(lines: seq<string>, i: int, e: string)
  {
    |e| > 20 && exists j :: 0 <= j < |lines| && i <= j && e == Trim(lines[j])
  }

  /** What the section scan keeps: an experience line without `@`. */
  predicate SectionEntry(lines: seq<string>, i: int, e: string)
  {
    ExperienceLine(lines, i, e) && '@' !in e
  }

  /** What the fallback keeps: an experience line that looks like a job. */
  predicate FallbackEntry(lines: seq<string>, i: int, e: string)
  {
    ExperienceLine(lines, i, e) && JobLine(e)
  }

  /** The section scan only appends trimmed lines from `i` on, each longer than 20 characters and without `@`. */
  lemma {:induction false} ExperienceScanEntries(lines: seq<string>, i: nat, inSection: bool, acc: seq<string>)
    requires i <= |lines|
    ensures var r := ExperienceScan(lines, i, inSection, acc);
      acc <= r
      && forall e :: e in r ==> e in acc || SectionEntry(lines, i, e)
    decreases |lines| - i
  {
    if i < |lines| {
      var trimmed := Trim(lines[i]);
      var low := Lower(trimmed);
      if ExperienceTrigger(low) {
        ExperienceScanEntries(lines, i + 1, true, acc);
      } else if inSection && trimmed != [] {
        if !ExperienceExit(low) {
          var acc' := if |trimmed| > 20 && '@' !in trimmed then acc + [trimmed] else acc;
          ExperienceScanEntries(lines, i + 1, inSection, acc');
        }
      } else {
        ExperienceScanEntries(lines, i + 1, inSection, acc);
      }
    }
  }

  /** A pass that judges each line on its own only appends trimmed lines from `i` on that it accepts. */
  lemma {:induction false} KeepTrimmedEntries(lines: seq<string>, i: nat, acc: seq<string>, keep: string -> bool)
    requires i <= |lines|
    ensures var r := KeepTrimmed(lines, i, acc, keep);
      acc <= r
      && forall e :: e in r ==> e in acc || (keep(e) && exists j :: 0 <= j < |lines| && i <= j && e == Trim(lines[j]))
    decreases |lines| - i
  {
    if i < |lines| {
      var trimmed := Trim(lines[i]);
      KeepTrimmedEntries(lines, i + 1, if keep(trimmed) then acc + [trimmed] else acc, keep);
    }
  }

  /** The fallback only appends trimmed lines from `i` on, each longer than 20 characters and looking like a job. */
  lemma ExperienceFallbackEntries(lines: seq<string>, i: nat, acc: seq<string>)
    requires i <= |lines|
    ensures var r := ExperienceFallback(lines, i, acc);
      acc <= r
      && forall e :: e in r ==> e in acc || FallbackEntry(lines, i, e)
  {
    KeepTrimmedEntries(lines, i, acc, FallbackKeeps);
    var r := ExperienceFallback(lines, i, acc);
    forall e | e in r && e !in acc ensures FallbackEntry(lines, i, e) {
      assert FallbackKeeps(e);
      var j :| 0 <= j < |lines| && i <= j && e == Trim(lines[j]);
    }
  }

  /**
   * At most eight entries, each a trimmed line of the text longer than 20
   * characters; the fallback is consulted only when the section gave
   * nothing, so a non-empty section makes every entry a section entry
   * (and free of `@`).
   */
  lemma ExperienceShape(text: string)
    ensures var r := ExperienceOf(text);
      var lines := Lines(text);
      var section := ExperienceScan(lines, 0, false, []);
      |r| <= 8
      && (forall e :: e in r ==> ExperienceLine(lines, 0, e))
      && (section != [] ==> forall e :: e in r ==> e in section && SectionEntry(lines, 0, e))
      && (section == [] ==> forall e :: e in r ==> e in ExperienceFallback(lines, 0, []) && FallbackEntry(lines, 0, e))
  {
    var lines := Lines(text);
    ExperienceScanEntries(lines, 0, false, []);
    ExperienceFallbackEntries(lines, 0, []);
    var r := ExperienceOf(text);
    if ExperienceScan(lines, 0, false, []) == [] {
      var f := ExperienceFallback(lines, 0, []);
      forall e | e in r ensures e in f && FallbackEntry(lines, 0, e) {
        var k :| 0 <= k < |r| && r[k] == e;
        assert e == f[k];
      }
    } else {
      var section := ExperienceScan(lines, 0, false, []);
      forall e | e in r ensures e in section && SectionEntry(lines, 0, e) {
        var k :| 0 <= k < |r| && r[k] == e;
        assert e == section[k];
      }
    }
  }

  /** Over `pre + lines` from `|pre| + i`, the pass sees what it sees over `lines` from `i`. */
  lemma {:induction false} KeepTrimmedShift(pre: seq<string>, lines: seq<string>, i: nat, acc: seq<string>, keep: string -> bool)
    requires i <= |lines|
    ensures KeepTrimmed(pre + lines, |pre| + i, acc, keep) == KeepTrimmed(lines, i, acc, keep)
    decreases |lines| - i
  {
    if i < |lines| {
      assert (pre + lines)[|pre| + i] == lines[i];
      var trimmed := Trim(lines[i]);
      KeepTrimmedShift(pre, lines, i + 1, if keep(trimmed) then acc + [trimmed] else acc, keep);
    }
  }

  /** Over `a + b`, the pass continues with `b` from what it gathered over `a[i..]`. */
  lemma {:induction false} KeepTrimmedPrefix(a: seq<string>, b: seq<string>, i: nat, acc: seq<string>, keep: string -> bool)
    requires i <= |a|
    ensures KeepTrimmed(a + b, i, acc, keep) == KeepTrimmed(b, 0, KeepTrimmed(a, i, acc, keep), keep)
    decreases |a| - i
  {
    if i < |a| {
      assert (a + b)[i] == a[i];
      var trimmed := Trim(a[i]);
      KeepTrimmedPrefix(a, b, i + 1, if keep(trimmed) then acc + [trimmed] else acc, keep);
    } else {
      KeepTrimmedShift(a, b, 0, acc, keep);
    }
  }

  /**
   * The fallback judges each line on its own: over `a + b` it gives what
   * it gives over `a`, followed by what the lines of `b` add.
   */
  lemma ExperienceFallbackAppend(a: seq<string>, b: seq<string>)
    ensures ExperienceFallback(a + b, 0, []) == ExperienceFallback(b, 0, ExperienceFallback(a, 0, []))
  {
    KeepTrimmedPrefix(a, b, 0, [], FallbackKeeps);
  }

  /**
   * The fallback as the source writes it, over `lines[i..]`, for a keyword
   * pattern `titles` and a `g`-flagged pattern `shared`: the one `shared`
   * pattern object serves all lines, so its `lastIndex` (the end of its
   * last match, or 0 after a failure) carries over from one line to the
   * next. It is only consulted when `titles` fails on a line longer than
   * 20 characters.
   */
  function SharedIndexFallback(lines: seq<string>, i: nat, lastIndex: nat, acc: seq<string>,
                               titles: seq<seq<Atom>>, shared: seq<seq<Atom>>): seq<string>
    requires i <= |lines|
    decreases |lines| - i
  {
    if i == |lines| then acc
    else
      var trimmed := Trim(lines[i]);
      if |trimmed| <= 20 then SharedIndexFallback(lines, i + 1, lastIndex, acc, titles, shared)
      else if Test(titles, trimmed) then SharedIndexFallback(lines, i + 1, lastIndex, acc + [trimmed], titles, shared)
      else
        var test := TestGlobal(shared, trimmed, lastIndex);
        SharedIndexFallback(lines, i + 1, test.1, if test.0 then acc + [trimmed] else acc, titles, shared)
  }

  /** The experience fallback as written, with the job-title and "at/@" patterns. */
  function ExperienceFallbackAsWritten(lines: seq<string>, i: nat, lastIndex: nat, acc: seq<string>): seq<string>
    requires i <= |lines|
  {
    SharedIndexFallback(lines, i, lastIndex, acc, JobTitlePattern, AtCompanyPattern)
  }

  /** Two job lines for the fallback; the second one's "at" match ends before position 12. */
  const JobLineA: string := "at Microsoft 2019-2021"
  const JobLineB: string := "at Intuit, 2019 to 2021"

  /** The whole-word pattern of `w` needs each of its letters. */
  lemma WholeWordNeeds(w: string, i: nat)
    requires i < |w|
    ensures Needed(WholeWord(w), NoCase(w[i])) >= 1
  {
    var atoms := WholeWord(w);
    assert atoms[i + 1] == NoCaseFrom(w, 0)[i];
    NeededOne(atoms, i + 1, NoCase(w[i]));
  }

  /**
   * None of the words matches as a whole word in `s` when each word holds
   * a letter (the one at `at[a]` in word `a`) that `s` lacks in either case.
   */
  lemma WholeWordsAbsent(ws: seq<string>, at: seq<nat>, s: string)
    requires |at| == |ws| && forall a :: 0 <= a < |ws| ==> at[a] < |ws[a]|
    requires forall a, i :: 0 <= a < |ws| && 0 <= i < |s| ==> LowerChar(s[i]) != ws[a][at[a]]
    ensures !Test(WholeWords(ws), s)
  {
    var ks := seq(|ws|, a requires 0 <= a < |ws| => NoCase(ws[a][at[a]]));
    forall a | 0 <= a < |ws|
      ensures Needed(WholeWords(ws)[a], ks[a]) >= 1 && CountIn(ks[a], s, 0, |s|) == 0
    {
      WholeWordNeeds(ws[a], at[a]);
      CountZero(ks[a], s, 0, |s|);
    }
    SearchFailsEach(WholeWords(ws), s, 0, ks);
  }

  /** A line without any of the letters e, y, d, j (in either case) names none of the job titles. */
  lemma NoTitleWithout(s: string)
    requires forall i :: 0 <= i < |s| ==> LowerChar(s[i]) !in "eydj"
    ensures !Test(JobTitlePattern, s)
  {
    // For each title, the position of one of those letters in it.
    WholeWordsAbsent(JobTitles, [0, 1, 5, 4, 2, 4, 3, 1, 1, 0], s);
  }

  /** `at`, spaces, then a capitalised word running to `e`, matches from `p`. */
  lemma AtWordMatch(s: string, p: nat, sp: nat, e: nat)
    requires p + 3 <= sp && sp + 1 < e <= |s|
    requires AtBoundary(s, p) && s[p] == 'a' && s[p + 1] == 't'
    requires forall i :: p + 2 <= i < sp ==> IsJsSpace(s[i])
    requires !IsJsSpace(s[sp]) && IsUpper(s[sp])
    requires forall i :: sp + 1 <= i < e ==> IsLower(s[i])
    requires e == |s| || !IsLower(s[e])
    ensures MatchAt(AtCompanyPattern[0], s, p) == Some(e)
  {
    var atoms := AtCompanyPattern[0];
    StarRun(atoms, 5, LowerLetter, s, sp + 2, e);
    assert MatchFrom(atoms, 4, s, sp) == Some(e);
    StarRun(atoms, 3, WhiteSpace, s, p + 3, sp);
    assert MatchFrom(atoms, 3, s, p + 2) == Some(e);
    assert MatchFrom(atoms, 1, s, p) == Some(e);
  }

  /** "at Microsoft" is the leftmost match in the first line: `lastIndex` becomes 12. */
  lemma JobLineAMatch()
    ensures TestGlobal(AtCompanyPattern, JobLineA, 0) == (true, 12)
  {
    var s := JobLineA;
    assert s[..13] == "at Microsoft ";
    AtWordMatch(s, 0, 3, 12);
  }

  /** "at Intuit" matches the second line from 0. */
  lemma JobLineBFromStart()
    ensures Test(AtCompanyPattern, JobLineB)
  {
    var s := JobLineB;
    assert s[..10] == "at Intuit,";
    AtWordMatch(s, 0, 3, 9);
  }

  /** No "at/@" match starts at or after `from` when the rest of `s` has neither `a` nor `@`. */
  lemma AtCompanyFailsFrom(s: string, from: nat)
    requires from <= |s| && forall i :: from <= i < |s| ==> s[i] != 'a' && s[i] != '@'
    ensures TestGlobal(AtCompanyPattern, s, from) == (false, 0)
  {
    var ks := [Lit('a'), Lit('@')];
    CountZero(ks[0], s, from, |s|);
    CountZero(ks[1], s, from, |s|);
    NeededOne(AtCompanyPattern[0], 1, ks[0]);
    NeededOne(AtCompanyPattern[1], 1, ks[1]);
    TestGlobalFailsEach(AtCompanyPattern, s, from, ks);
  }

  /** Nothing matches the second line from 12 on: its rest has neither `a` nor `@`. */
  lemma JobLineBFromTwelve()
    ensures TestGlobal(AtCompanyPattern, JobLineB, 12) == (false, 0)
  {
    var s := JobLineB;
    assert s[12..] == "019 to 2021";
    assert forall i :: 12 <= i < |s| ==> s[i] == s[12..][i - 12];
    AtCompanyFailsFrom(s, 12);
  }

  lemma JobLinesTrimmed()
    ensures IsTrimmed(JobLineA) && |JobLineA| > 20
    ensures IsTrimmed(JobLineB) && |JobLineB| > 20
  {
  }

  lemma JobLineANoTitle()
    ensures !Test(JobTitlePattern, JobLineA)
  {
    NoTitleWithout(JobLineA);
  }

  lemma JobLineBNoTitle()
    ensures !Test(JobTitlePattern, JobLineB)
  {
    NoTitleWithout(JobLineB);
  }

  /** The pass as written over two trimmed lines, when the second falls to the shared `lastIndex`. */
  lemma SharedIndexDropsSecond(a: string, b: string, k: nat, titles: seq<seq<Atom>>, shared: seq<seq<Atom>>,
                               acc: seq<string>)
    requires IsTrimmed(a) && |a| > 20 && !Test(titles, a) && TestGlobal(shared, a, 0) == (true, k)
    requires IsTrimmed(b) && |b| > 20 && !Test(titles, b) && !TestGlobal(shared, b, k).0
    ensures SharedIndexFallback([a, b], 0, 0, acc, titles, shared) == acc + [a]
  {
    var lines := [a, b];
    TrimOfTrimmed(a);
    TrimOfTrimmed(b);
    assert lines[0] == a && lines[1] == b;
    assert SharedIndexFallback(lines, 2, 0, acc + [a], titles, shared) == acc + [a];
    assert SharedIndexFallback(lines, 1, k, acc + [a], titles, shared) == acc + [a];
  }

  /** A pass that judges each line on its own keeps two trimmed lines it accepts. */
  lemma KeepTrimmedBoth(a: string, b: string, keep: string -> bool, acc: seq<string>)
    requires IsTrimmed(a) && IsTrimmed(b) && keep(a) && keep(b)
    ensures KeepTrimmed([a, b], 0, acc, keep) == acc + [a, b]
  {
    var lines := [a, b];
    TrimOfTrimmed(a);
    TrimOfTrimmed(b);
    assert lines[0] == a && lines[1] == b && acc + [a] + [b] == acc + [a, b];
    assert KeepTrimmed(lines, 1, acc + [a], keep) == acc + [a, b];
  }

  /**
   * The shared `lastIndex` loses a line: when the "at/@" match of a first
   * line with no job title ends at `k`, and a second such line has an
   * "at/@" match but none from `k` on, the fallback as written keeps the
   * first line alone, where the corrected fallback keeps both.
   */
  lemma LastIndexLosesLine(a: string, b: string, k: nat, acc: seq<string>)
    requires IsTrimmed(a) && |a| > 20 && !Test(JobTitlePattern, a) && TestGlobal(AtCompanyPattern, a, 0) == (true, k)
    requires IsTrimmed(b) && |b| > 20 && !Test(JobTitlePattern, b) && Test(AtCompanyPattern, b)
    requires !TestGlobal(AtCompanyPattern, b, k).0
    ensures ExperienceFallbackAsWritten([a, b], 0, 0, acc) == acc + [a]
    ensures ExperienceFallback([a, b], 0, acc) == acc + [a, b]
  {
    SharedIndexDropsSecond(a, b, k, JobTitlePattern, AtCompanyPattern, acc);
    TestGlobalFromZero(AtCompanyPattern, a);
    assert JobLine(a) && JobLine(b);
    KeepTrimmedBoth(a, b, FallbackKeeps, acc);
  }

  /**
   * "at Microsoft 2019-2021" followed by "at Intuit, 2019 to 2021" meets
   * those conditions, with `k == 12`: the source drops the second line.
   */
  lemma JobLinesLoseSecond()
    ensures IsTrimmed(JobLineA) && |JobLineA| > 20 && !Test(JobTitlePattern, JobLineA)
    ensures TestGlobal(AtCompanyPattern, JobLineA, 0) == (true, 12)
    ensures IsTrimmed(JobLineB) && |JobLineB| > 20 && !Test(JobTitlePattern, JobLineB)
    ensures Test(AtCompanyPattern, JobLineB) && !TestGlobal(AtCompanyPattern, JobLineB, 12).0
  {
    JobLinesTrimmed();
    JobLineANoTitle();
    JobLineBNoTitle();
    JobLineAMatch();
    JobLineBFromStart();
    JobLineBFromTwelve();
  }

  // ---------------------------------------------------------------------
  // Education.

  predicate EducationTrigger(low: string)
  {
    ContainsAny(low, ["education", "academic", "degree"])
  }

  predicate EducationExit(low: string)
  {
    ContainsAny(low, ["experience", "skills", "certifications"])
  }

  /**
   * The section scan of `extractEducation` over `lines[i..]`: `inSection`
   * is the section flag on entry and `acc` the lines kept so far.
   */
  function EducationScan(lines: seq<string>, i: nat, inSection: bool, acc: seq<string>): seq<string>
    requires i <= |lines|
    decreases |lines| - i
  {
    if i == |lines| then acc
    else
      var trimmed := Trim(lines[i]);
      var low := Lower(trimmed);
      if EducationTrigger(low) then EducationScan(lines, i + 1, true, acc)
      else if inSection && trimmed != [] then
        if EducationExit(low) then acc
        else EducationScan(lines, i + 1, inSection,
                           if |trimmed| > 10 && '@' !in trimmed then acc + [trimmed] else acc)
      else EducationScan(lines, i + 1, inSection, acc)
  }

  const DegreeKeywords: seq<string> :=
    ["bachelor", "master", "phd", "doctorate", "associate", "certificate", "diploma"]
  const UniversityKeywords: seq<string> := ["university", "college", "institute", "school"]

  /** A lower-cased line that names a degree or an institution. */
  predicate EducationKeyword(lowerLine: string)
  {
    ContainsAny(lowerLine, DegreeKeywords) || ContainsAny(lowerLine, UniversityKeywords)
  }

  /** The keyword pass over `lines[i..]`, appending to the list `acc` built so far. */
  function KeywordPass(lines: seq<string>, i: nat, acc: seq<string>): seq<string>
    requires i <= |lines|
    decreases |lines| - i
  {
    if i == |lines| then acc
    else
      var trimmed := Trim(lines[i]);
      if EducationKeyword(Lower(lines[i])) && trimmed !in acc && |trimmed| > 10
      then KeywordPass(lines, i + 1, acc + [trimmed])
      else KeywordPass(lines, i + 1, acc)
  }

  /** The education list `extractEducation` returns. */
  function EducationOf(text: string): (r: seq<string>)
    ensures |r| <= 5
  {
    var lines := Lines(text);
    Take(KeywordPass(lines, 0, EducationScan(lines, 0, false, [])), 5)
  }

  method ExtractEducation(text: string) returns (education: seq<string>)
    ensures education == EducationOf(text)
  {
    var lines := Lines(text);
    var educationLines: seq<string> := [];
    var inEducationSection := false;
    var i := 0;
    while i < |lines|
      invariant 0 <= i <= |lines|
      invariant EducationScan(lines, i, inEducationSection, educationLines) == EducationScan(lines, 0, false, [])
    {
      var trimmed := Trim(lines[i]);
      var lowerTrimmed := Lower(trimmed);
      if EducationTrigger(lowerTrimmed) {
        inEducationSection := true;
        i := i + 1;
        continue;
      }
      if inEducationSection && trimmed != [] {
        if EducationExit(lowerTrimmed) {
          break;
        }
        if |trimmed| > 10 && '@' !in trimmed {
          educationLines := educationLines + [trimmed];
        }
      }
      i := i + 1;
    }
    for k := 0 to |lines|
      invariant KeywordPass(lines, k, educationLines) == KeywordPass(lines, 0, EducationScan(lines, 0, false, []))
    {
      var lowerLine := Lower(lines[k]);
      if EducationKeyword(lowerLine) {
        if Trim(lines[k]) !in educationLines && |Trim(lines[k])| > 10 {
          educationLines := educationLines + [Trim(lines[k])];
        }
      }
    }
    education := Take(educationLines, 5);
  }

  /** What the education section scan keeps: a line longer than 10 characters without `@`. */
  predicate EducationEntry(e: string)
  {
    |e| > 10 && '@' !in e
  }

  /** The section scan only appends lines longer than 10 characters without `@`. */
  lemma {:induction false} EducationScanEntries(lines: seq<string>, i: nat, inSection: bool, acc: seq<string>)
    requires i <= |lines|
    ensures var r := EducationScan(lines, i, inSection, acc);
      acc <= r && forall e :: e in r ==> e in acc || EducationEntry(e)
    decreases |lines| - i
  {
    if i < |lines| {
      var trimmed := Trim(lines[i]);
      var low := Lower(trimmed);
      if EducationTrigger(low) {
        EducationScanEntries(lines, i + 1, true, acc);
      } else if inSection && trimmed != [] {
        if !EducationExit(low) {
          var acc' := if |trimmed| > 10 && '@' !in trimmed then acc + [trimmed] else acc;
          EducationScanEntries(lines, i + 1, inSection, acc');
        }
      } else {
        EducationScanEntries(lines, i + 1, inSection, acc);
      }
    }
  }

  /**
   * The keyword pass keeps what was there and only appends: each added
   * entry is a trimmed line longer than 10 characters that was not in the
   * list when it was added.
   */
  lemma {:induction false} KeywordPassAppendsFresh(lines: seq<string>, i: nat, acc: seq<string>)
    requires i <= |lines|
    ensures var r := KeywordPass(lines, i, acc);
      acc <= r && forall k :: |acc| <= k < |r| ==> |r[k]| > 10 && r[k] !in r[..k]
    decreases |lines| - i
  {
    if i < |lines| {
      var trimmed := Trim(lines[i]);
      if EducationKeyword(Lower(lines[i])) && trimmed !in acc && |trimmed| > 10 {
        var acc' := acc + [trimmed];
        KeywordPassAppendsFresh(lines, i + 1, acc');
        var r := KeywordPass(lines, i + 1, acc');
        assert KeywordPass(lines, i, acc) == r;
        assert r[|acc|] == acc'[|acc|] == trimmed;
        assert r[..|acc|] == acc;
      } else {
        KeywordPassAppendsFresh(lines, i + 1, acc);
        assert KeywordPass(lines, i, acc) == KeywordPass(lines, i + 1, acc);
      }
    }
  }

  /**
   * At most five entries, each longer than 10 characters; the section
   * entries come first, and the keyword pass adds only lines not yet listed.
   */
  lemma EducationShape(text: string)
    ensures var r := EducationOf(text);
      var lines := Lines(text);
      var section := EducationScan(lines, 0, false, []);
      var all := KeywordPass(lines, 0, section);
      |r| <= 5 && (forall k :: 0 <= k < |r| ==> |r[k]| > 10)
      && section <= all
      && (forall k :: |section| <= k < |all| ==> all[k] !in all[..k])
  {
    var lines := Lines(text);
    var section := EducationScan(lines, 0, false, []);
    EducationScanEntries(lines, 0, false, []);
    KeywordPassAppendsFresh(lines, 0, section);
    var all := KeywordPass(lines, 0, section);
    forall k | 0 <= k < |EducationOf(text)| ensures |EducationOf(text)[k]| > 10 {
      if k < |section| {
        assert all[k] == section[k] && all[k] in section;
      }
    }
  }

  // ---------------------------------------------------------------------
  // Summary.

  predicate SummaryTrigger(low: string)
  {
    ContainsAny(low, ["summary", "objective", "profile", "about"])
  }

  /** The words that end a summary block. */
  const StopWords: seq<string> := ["experience"] + ["education", "skills"]

  /** A lower-cased summary line that ends the block. */
  predicate SummaryStop(low: string)
  {
    ContainsAny(low, StopWords)
  }

  /** What a line that does not end a summary block lacks. */
  lemma SummaryStopWords(low: string)
    ensures !SummaryStop(low) ==> !Contains(low, "experience") && !Contains(low, "education") && !Contains(low, "skills")
  {
    var words := StopWords;
    ContainsAnySpec(low, words);
    assert words[0] == "experience" && words[1] == "education" && words[2] == "skills";
  }

  /**
   * The trimmed lines of `lines[j..end]` that `keep` accepts, added to
   * `acc`, up to the first line that `stop` ends the block at.
   */
  function BlockScan(lines: seq<string>, j: nat, end: nat, acc: seq<string>,
                     keep: string -> bool, stop: string -> bool): seq<string>
    requires j <= end <= |lines|
    decreases end - j
  {
    if j == end then acc
    else
      var line := Trim(lines[j]);
      if keep(line) then BlockScan(lines, j + 1, end, acc + [line], keep, stop)
      else if stop(line) then acc
      else BlockScan(lines, j + 1, end, acc, keep, stop)
  }

  /** A scan adds at most one line per line scanned, each one `keep` accepts. */
  lemma {:induction false} BlockScanShape(lines: seq<string>, j: nat, end: nat, acc: seq<string>,
                                          keep: string -> bool, stop: string -> bool)
    requires j <= end <= |lines|
    ensures var r := BlockScan(lines, j, end, acc, keep, stop);
      |r| <= |acc| + (end - j) && forall x :: x in r ==> x in acc || keep(x)
    decreases end - j
  {
    if j < end {
      var line := Trim(lines[j]);
      if keep(line) {
        BlockScanShape(lines, j + 1, end, acc + [line], keep, stop);
        assert forall x :: x in acc + [line] ==> x in acc || x == line;
      } else if !stop(line) {
        BlockScanShape(lines, j + 1, end, acc, keep, stop);
      }
    }
  }

  /** A trimmed line the summary block keeps. */
  predicate SummaryKeeps(summaryLine: string)
  {
    summaryLine != [] && |summaryLine| > 20 && !SummaryStop(Lower(summaryLine))
  }

  /** A trimmed line that ends the summary block. */
  predicate SummaryStops(summaryLine: string)
  {
    SummaryStop(Lower(summaryLine))
  }

  /** The block of trimmed lines `lines[j..end]` adds to the lines `acc` gathered so far. */
  function SummaryBlock(lines: seq<string>, j: nat, end: nat, acc: seq<string>): seq<string>
    requires j <= end <= |lines|
  {
    BlockScan(lines, j, end, acc, SummaryKeeps, SummaryStops)
  }

  /** A line a summary block keeps: longer than 20 characters and free of the stop words. */
  predicate SummaryLine(x: string)
  {
    |x| > 20 && !SummaryStop(Lower(x))
  }

  /** A block adds at most one line per line scanned, each longer than 20 characters and free of the stop words. */
  lemma SummaryBlockShape(lines: seq<string>, j: nat, end: nat, acc: seq<string>)
    requires j <= end <= |lines|
    ensures var r := SummaryBlock(lines, j, end, acc);
      |r| <= |acc| + (end - j) && forall x :: x in r ==> x in acc || SummaryLine(x)
  {
    BlockScanShape(lines, j, end, acc, SummaryKeeps, SummaryStops);
  }

  /** The block of a trigger line at `i`: the next four lines at most. */
  function TriggerBlock(lines: seq<string>, i: nat): seq<string>
    requires i < |lines|
  {
    SummaryBlock(lines, i + 1, Min(i + 5, |lines|), [])
  }

  /** Line `i` is a trigger line whose block is not empty. */
  predicate OpensSummary(lines: seq<string>, i: nat)
    requires i < |lines|
  {
    SummaryTrigger(Lower(Trim(lines[i]))) && TriggerBlock(lines, i) != []
  }

  /** The first trigger line from `i` on whose block is not empty: its block joined by spaces. */
  function SummaryPrimary(lines: seq<string>, i: nat): Option<string>
    decreases |lines| - i
  {
    if i >= |lines| then None
    else if OpensSummary(lines, i)
    then Some(Join(TriggerBlock(lines, i), " "))
    else SummaryPrimary(lines, i + 1)
  }

  /** A paragraph (trimmed) that can stand as the summary. */
  predicate SummaryParagraph(trimmed: string)
  {
    |trimmed| > 100 && '@' !in trimmed && '+' !in trimmed
    && !Contains(Lower(trimmed), "experience") && !Contains(Lower(trimmed), "education")
  }

  /** The first paragraph of `paragraphs[k..]` that can stand as the summary, trimmed. */
  function SummaryFallback(paragraphs: seq<string>, k: nat): (r: Option<string>)
    requires k <= |paragraphs|
    ensures r.Some? ==> SummaryParagraph(r.value)
    decreases |paragraphs| - k
  {
    if k == |paragraphs| then None
    else if SummaryParagraph(Trim(paragraphs[k])) then Some(Trim(paragraphs[k]))
    else SummaryFallback(paragraphs, k + 1)
  }

  /** The summary `extractSummary` returns. */
  function SummaryOf(text: string): string
  {
    match SummaryPrimary(Lines(text), 0)
    case Some(s) => s
    case None =>
      match SummaryFallback(SplitOn(text, "\n\n"), 0)
      case Some(p) => p
      case None => ""
  }

  /** The inner loop of `extractSummary`: the block of the trigger line at `i`. */
  method CollectBlock(lines: seq<string>, i: nat) returns (summaryLines: seq<string>)
    requires i < |lines|
    ensures summaryLines == TriggerBlock(lines, i)
  {
    summaryLines := [];
    var end := Min(i + 5, |lines|);
    var j := i + 1;
    while j < end
      invariant i + 1 <= j <= end
      invariant SummaryBlock(lines, j, end, summaryLines) == TriggerBlock(lines, i)
    {
      var summaryLine := Trim(lines[j]);
      if summaryLine != [] && |summaryLine| > 20 && !SummaryStop(Lower(summaryLine)) {
        summaryLines := summaryLines + [summaryLine];
      } else if SummaryStop(Lower(summaryLine)) {
        break;
      }
      j := j + 1;
    }
  }

  /** The outer loop of `extractSummary`: the first trigger line whose block is not empty. */
  method FindPrimarySummary(lines: seq<string>) returns (found: Option<string>)
    ensures found == SummaryPrimary(lines, 0)
  {
    for i := 0 to |lines|
      invariant SummaryPrimary(lines, i) == SummaryPrimary(lines, 0)
    {
      var line := Lower(Trim(lines[i]));
      if SummaryTrigger(line) {
        var summaryLines := CollectBlock(lines, i);
        if |summaryLines| > 0 {
          return Some(Join(summaryLines, " "));
        }
      }
    }
    return None;
  }

  /** The fallback loop of `extractSummary`: the first paragraph that can stand as the summary. */
  method FindSummaryParagraph(paragraphs: seq<string>) returns (found: Option<string>)
    ensures found == SummaryFallback(paragraphs, 0)
  {
    for k := 0 to |paragraphs|
      invariant SummaryFallback(paragraphs, k) == SummaryFallback(paragraphs, 0)
    {
      var trimmed := Trim(paragraphs[k]);
      if SummaryParagraph(trimmed) {
        return Some(trimmed);
      }
    }
    return None;
  }

  method ExtractSummary(text: string) returns (summary: string)
    ensures summary == SummaryOf(text)
  {
    var primary := FindPrimarySummary(Lines(text));
    if primary.Some? {
      return primary.value;
    }
    var paragraph := FindSummaryParagraph(SplitOn(text, "\n\n"));
    if paragraph.Some? {
      return paragraph.value;
    }
    return "";
  }

  /** The primary path joins, with single spaces, one to four lines that follow a trigger line. */
  lemma {:induction false} SummaryPrimaryShape(lines: seq<string>, i: nat)
    requires SummaryPrimary(lines, i).Some?
    ensures exists k :: (i <= k < |lines| && SummaryTrigger(Lower(Trim(lines[k])))
      && var b := TriggerBlock(lines, k);
         1 <= |b| <= 4 && SummaryPrimary(lines, i).value == Join(b, " "))
    decreases |lines| - i
  {
    if OpensSummary(lines, i) {
      SummaryBlockShape(lines, i + 1, Min(i + 5, |lines|), []);
    } else {
      SummaryPrimaryShape(lines, i + 1);
    }
  }

  /** The primary path takes the FIRST trigger line whose block is not empty. */
  lemma {:induction false} SummaryPrimaryFirst(lines: seq<string>, i: nat)
    requires SummaryPrimary(lines, i).Some?
    ensures exists m :: (i <= m < |lines| && OpensSummary(lines, m)
      && SummaryPrimary(lines, i).value == Join(TriggerBlock(lines, m), " ")
      && forall m' :: i <= m' < m ==> !OpensSummary(lines, m'))
    decreases |lines| - i
  {
    if !OpensSummary(lines, i) {
      SummaryPrimaryFirst(lines, i + 1);
      var m :| i + 1 <= m < |lines| && OpensSummary(lines, m)
        && SummaryPrimary(lines, i + 1).value == Join(TriggerBlock(lines, m), " ")
        && forall m' :: i + 1 <= m' < m ==> !OpensSummary(lines, m');
      assert forall m' :: i <= m' < m ==> !OpensSummary(lines, m');
    }
  }

  /** The primary path finds nothing exactly when no trigger line has a block. */
  lemma {:induction false} SummaryPrimaryNone(lines: seq<string>, i: nat)
    ensures SummaryPrimary(lines, i).None? <==> forall m :: i <= m < |lines| ==> !OpensSummary(lines, m)
    decreases |lines| - i
  {
    if i < |lines| && !OpensSummary(lines, i) {
      SummaryPrimaryNone(lines, i + 1);
    }
  }

  /** The fallback takes the FIRST paragraph that can stand as the summary. */
  lemma {:induction false} SummaryFallbackFirst(paragraphs: seq<string>, k: nat)
    requires k <= |paragraphs| && SummaryFallback(paragraphs, k).Some?
    ensures exists m :: (k <= m < |paragraphs| && SummaryFallback(paragraphs, k).value == Trim(paragraphs[m])
      && forall m' :: k <= m' < m ==> !SummaryParagraph(Trim(paragraphs[m'])))
    decreases |paragraphs| - k
  {
    if !SummaryParagraph(Trim(paragraphs[k])) {
      SummaryFallbackFirst(paragraphs, k + 1);
      var m :| k + 1 <= m < |paragraphs| && SummaryFallback(paragraphs, k + 1).value == Trim(paragraphs[m])
        && forall m' :: k + 1 <= m' < m ==> !SummaryParagraph(Trim(paragraphs[m']));
      assert forall m' :: k <= m' < m ==> !SummaryParagraph(Trim(paragraphs[m']));
    }
  }

  /** The fallback finds nothing exactly when no paragraph can stand as the summary. */
  lemma {:induction false} SummaryFallbackNone(paragraphs: seq<string>, k: nat)
    requires k <= |paragraphs|
    ensures SummaryFallback(paragraphs, k).None? <==>
      forall m :: k <= m < |paragraphs| ==> !SummaryParagraph(Trim(paragraphs[m]))
    decreases |paragraphs| - k
  {
    if k < |paragraphs| && !SummaryParagraph(Trim(paragraphs[k])) {
      SummaryFallbackNone(paragraphs, k + 1);
    }
  }

  /** A block joined by spaces mentions neither experience nor education. */
  lemma JoinedBlockClean(b: seq<string>)
    requires forall x :: x in b ==> !SummaryStop(Lower(x))
    ensures !Contains(Lower(Join(b, " ")), "experience") && !Contains(Lower(Join(b, " ")), "education")
  {
    LowerJoin(b, ' ');
    var lb := LowerAll(b);
    forall k | 0 <= k < |lb| ensures !Contains(lb[k], "experience") && !Contains(lb[k], "education") {
      assert b[k] in b;
      SummaryStopWords(Lower(b[k]));
    }
    if Contains(Join(lb, " "), "experience") {
      ContainsInJoin(lb, ' ', "experience");
    }
    if Contains(Join(lb, " "), "education") {
      ContainsInJoin(lb, ' ', "education");
    }
  }

  /** The primary path's summary mentions neither experience nor education. */
  lemma PrimaryClean(lines: seq<string>)
    requires SummaryPrimary(lines, 0).Some?
    ensures var r := SummaryPrimary(lines, 0).value;
      !Contains(Lower(r), "experience") && !Contains(Lower(r), "education")
  {
    SummaryPrimaryShape(lines, 0);
    var k :| 0 <= k < |lines| && SummaryTrigger(Lower(Trim(lines[k])))
      && var b := TriggerBlock(lines, k);
         1 <= |b| <= 4 && SummaryPrimary(lines, 0).value == Join(b, " ");
    SummaryBlockShape(lines, k + 1, Min(k + 5, |lines|), []);
    JoinedBlockClean(TriggerBlock(lines, k));
  }

  /** The summary is "" or mentions neither experience nor education, whatever the case. */
  lemma SummaryClean(text: string)
    ensures var r := SummaryOf(text);
      r == "" || (!Contains(Lower(r), "experience") && !Contains(Lower(r), "education"))
  {
    if SummaryPrimary(Lines(text), 0).Some? {
      PrimaryClean(Lines(text));
    }
  }
}
