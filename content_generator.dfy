/**
 * The generated documents of src/utils/contentGenerator.ts: the choice
 * and order of the skills shown for a target role, and the four texts
 * (tailored résumé, cover letter, LinkedIn and GitHub bios) built from
 * the parsed résumé.
 */
module ContentGenerator {
  import opened Wrappers
  import opened Text
  import opened Seqs
  import opened Projects
  import opened ResumeParser

  // ---------------------------------------------------------------------
  // The keyword table and its lookup.

  /** `roleKeywords`: a role (lower case) and the keywords of its skills. */
  const RoleKeywords: seq<(string, seq<string>)> := [
    ("software engineer", ["javascript", "python", "react", "node.js", "typescript", "html", "css", "sql", "git", "aws"]),
    ("data scientist", ["python", "machine learning", "sql", "pandas", "numpy", "tensorflow", "scikit-learn", "tableau", "r", "statistics"]),
    ("product manager", ["project management", "agile", "scrum", "analytics", "user research", "roadmapping", "stakeholder management"]),
    ("ux/ui designer", ["figma", "sketch", "adobe creative suite", "user research", "prototyping", "wireframing", "design systems"]),
    ("devops engineer", ["docker", "kubernetes", "aws", "jenkins", "terraform", "ansible", "linux", "ci/cd", "monitoring"]),
    ("frontend developer", ["javascript", "react", "vue.js", "angular", "typescript", "html", "css", "webpack", "responsive design"]),
    ("backend developer", ["node.js", "python", "java", "sql", "mongodb", "rest api", "microservices", "docker", "aws"]),
    ("full stack developer", ["javascript", "react", "node.js", "python", "sql", "mongodb", "html", "css", "git", "aws"]),
    ("marketing manager", ["digital marketing", "seo", "social media", "analytics", "content marketing", "email marketing"]),
    ("sales representative", ["crm", "lead generation", "customer relationship management", "negotiation", "communication"])
  ]

  /** The entry of `table[i..]` whose key is `key`, the first one if several. */
  function LookupFrom(table: seq<(string, seq<string>)>, key: string, i: nat): (r: Option<seq<string>>)
    requires i <= |table|
    decreases |table| - i
  {
    if i == |table| then None
    else if table[i].0 == key then Some(table[i].1)
    else LookupFrom(table, key, i + 1)
  }

  lemma {:induction false} LookupFromSpec(table: seq<(string, seq<string>)>, key: string, i: nat)
    requires i <= |table|
    ensures LookupFrom(table, key, i).None? <==> forall j :: i <= j < |table| ==> table[j].0 != key
    ensures LookupFrom(table, key, i).Some? ==>
      exists j :: i <= j < |table| && table[j] == (key, LookupFrom(table, key, i).value)
    decreases |table| - i
  {
    if i < |table| && table[i].0 != key {
      LookupFromSpec(table, key, i + 1);
    }
  }

  /** The keywords of a role that is an own key of the table; `[]` for any other role. */
  function KeywordsFor(roleLower: string): seq<string>
  {
    match LookupFrom(RoleKeywords, roleLower, 0)
    case Some(keywords) => keywords
    case None => []
  }

  // ---------------------------------------------------------------------
  // Matching a skill against keywords.

  /** One keyword against one skill, both lower-cased: either contains the other. */
  predicate KeywordMatches(keyword: string, skill: string)
  {
    Contains(Lower(skill), Lower(keyword)) || Contains(Lower(keyword), Lower(skill))
  }

  /** `keywords.slice(k).some(keyword => KeywordMatches(keyword, skill))` */
  predicate RelevantFrom(keywords: seq<string>, k: nat, skill: string)
    requires k <= |keywords|
    decreases |keywords| - k
  {
    k < |keywords| && (KeywordMatches(keywords[k], skill) || RelevantFrom(keywords, k + 1, skill))
  }

  predicate Relevant(keywords: seq<string>, skill: string)
  {
    RelevantFrom(keywords, 0, skill)
  }

  lemma {:induction false} RelevantFromSpec(keywords: seq<string>, k: nat, skill: string)
    requires k <= |keywords|
    ensures RelevantFrom(keywords, k, skill) <==> exists n :: k <= n < |keywords| && KeywordMatches(keywords[n], skill)
    decreases |keywords| - k
  {
    if k < |keywords| {
      RelevantFromSpec(keywords, k + 1, skill);
    }
  }

  /** A skill is matched exactly when its lower-case form contains a keyword or a keyword contains it. */
  lemma RelevantSpec(keywords: seq<string>, skill: string)
    ensures Relevant(keywords, skill) <==>
      exists n :: 0 <= n < |keywords|
        && (Contains(Lower(skill), Lower(keywords[n])) || Contains(Lower(keywords[n]), Lower(skill)))
  {
    RelevantFromSpec(keywords, 0, skill);
  }

  // ---------------------------------------------------------------------
  // `getRelevantSkills`

  /**
   * `prioritizedSkills`: the matched skills, then the input skills that
   * are not among them; the input itself when nothing matched. So the
   * matched skills come first and the others after them, each group in
   * input order, and together the two groups are a permutation of the input.
   */
  function Prioritized(skills: seq<string>, keywords: seq<string>): (r: seq<string>)
    ensures r == Filter(skills, s => Relevant(keywords, s)) + Filter(skills, s => !Relevant(keywords, s))
    ensures multiset(r) == multiset(skills)
    ensures IsSubsequence(Filter(skills, s => Relevant(keywords, s)), skills)
    ensures IsSubsequence(Filter(skills, s => !Relevant(keywords, s)), skills)
  {
    var hit := s => Relevant(keywords, s);
    var miss := s => !Relevant(keywords, s);
    var matched := Filter(skills, hit);
    FilterSpec(skills, hit);
    FilterSpec(skills, miss);
    FilterAgree(skills, s => s !in matched, miss);
    if |matched| == 0 then
      assert forall x :: x in skills ==> miss(x) by {
        forall x | x in skills ensures miss(x) {
          assert x !in matched;
        }
      }
      FilterKeepsAll(skills, miss);
      FilterSplit(skills, hit, miss);
      FilterIsSubsequence(skills, hit);
      FilterIsSubsequence(skills, miss);
      skills
    else
      FilterSplit(skills, hit, miss);
      FilterIsSubsequence(skills, hit);
      FilterIsSubsequence(skills, miss);
      matched + Filter(skills, s => s !in matched)
  }

  /** `getRelevantSkills(skills, targetRole)`, with the table read through its own keys only. */
  function GetRelevantSkills(skills: seq<string>, targetRole: string): (r: seq<string>)
    ensures |r| <= 12
  {
    Take(Prioritized(skills, KeywordsFor(Lower(targetRole))), 12)
  }

  /**
   * At most twelve skills, each taken from the input: the first twelve of
   * the matched skills followed by the unmatched ones.
   */
  lemma RelevantSkillsSpec(skills: seq<string>, targetRole: string)
    ensures var keywords := KeywordsFor(Lower(targetRole));
      var r := GetRelevantSkills(skills, targetRole);
      r == Take(Filter(skills, s => Relevant(keywords, s)) + Filter(skills, s => !Relevant(keywords, s)), 12)
      && forall x :: x in r ==> x in skills
  {
    var keywords := KeywordsFor(Lower(targetRole));
    var p := Prioritized(skills, keywords);
    forall x | x in GetRelevantSkills(skills, targetRole) ensures x in skills {
      assert x in multiset(p);
    }
  }

  /** A role that is not a key of the table keeps the first twelve input skills, in input order. */
  lemma UnknownRoleKeepsOrder(skills: seq<string>, targetRole: string)
    requires forall j :: 0 <= j < |RoleKeywords| ==> RoleKeywords[j].0 != Lower(targetRole)
    ensures GetRelevantSkills(skills, targetRole) == Take(skills, 12)
  {
    LookupFromSpec(RoleKeywords, Lower(targetRole), 0);
    FilterDropsAll(skills, s => Relevant([], s));
  }

  // ---------------------------------------------------------------------
  // The table lookup as the source writes it.

  /**
   * What `roleKeywords[roleLower]` yields on an object literal: its own
   * entry, a member inherited from `Object.prototype`, or nothing.
   */
  datatype Lookup = OwnEntry(keywords: seq<string>) | Inherited | NoEntry

  /**
   * The property names every object literal inherits from `Object.prototype`.
   * The role is lower-cased before the lookup, so only the all-lower-case
   * names `constructor` and `__proto__` can ever be reached; the mixed-case
   * ones such as `hasOwnProperty` never equal a lower-cased role.
   */
  const ObjectPrototypeMembers: seq<string> := [
    "constructor", "__proto__", "__defineGetter__", "__defineSetter__", "__lookupGetter__",
    "__lookupSetter__", "hasOwnProperty", "isPrototypeOf", "propertyIsEnumerable",
    "toLocaleString", "toString", "valueOf"
  ]

  function LookupAsWritten(roleLower: string): Lookup
  {
    match LookupFrom(RoleKeywords, roleLower, 0)
    case Some(keywords) => OwnEntry(keywords)
    case None => if roleLower in ObjectPrototypeMembers then Inherited else NoEntry
  }

  const NotAFunction: string := "TypeError: relevantKeywords.some is not a function"

  /**
   * `getRelevantSkills` as written: an inherited member is truthy, so the
   * `|| []` default does not apply, and the first call of
   * `relevantKeywords.some` (there is one as soon as there is a skill)
   * throws, because neither a function nor `Object.prototype` has `some`.
   */
  function GetRelevantSkillsAsWritten(skills: seq<string>, targetRole: string): Result<seq<string>>
  {
    match LookupAsWritten(Lower(targetRole))
    case OwnEntry(keywords) => Ok(Take(Prioritized(skills, keywords), 12))
    case NoEntry => Ok(Take(Prioritized(skills, []), 12))
    case Inherited => if skills == [] then Ok([]) else Err(NotAFunction)
  }

  /** Every key of the table holds a space. */
  lemma KeysHoldSpace()
    ensures forall j :: 0 <= j < |RoleKeywords| ==> ' ' in RoleKeywords[j].0
  {
  }

  /** None of the `Object.prototype` member names holds a space. */
  lemma MembersLackSpace()
    ensures forall name :: name in ObjectPrototypeMembers ==> ' ' !in name
  {
  }

  /**
   * No key of the table names a member of `Object.prototype`. The two facts
   * about the constants are lemmas of their own so that each is checked
   * apart: together in one proof they are several times as costly.
   */
  lemma TableKeysOwn(name: string)
    requires name in ObjectPrototypeMembers
    ensures LookupFrom(RoleKeywords, name, 0).None?
  {
    KeysHoldSpace();
    MembersLackSpace();
    LookupFromSpec(RoleKeywords, name, 0);
  }

  /**
   * As written, the lookup throws exactly when the lower-cased role names
   * a member of `Object.prototype` and there is a skill; otherwise it
   * agrees with the own-key lookup.
   */
  lemma AsWrittenThrows(skills: seq<string>, targetRole: string)
    ensures GetRelevantSkillsAsWritten(skills, targetRole).Err?
      <==> Lower(targetRole) in ObjectPrototypeMembers && skills != []
    ensures GetRelevantSkillsAsWritten(skills, targetRole).Err? ==>
      GetRelevantSkillsAsWritten(skills, targetRole).message == NotAFunction
    ensures GetRelevantSkillsAsWritten(skills, targetRole).Ok? ==>
      GetRelevantSkillsAsWritten(skills, targetRole).value == GetRelevantSkills(skills, targetRole)
  {
    var roleLower := Lower(targetRole);
    if roleLower in ObjectPrototypeMembers {
      TableKeysOwn(roleLower);
      if skills == [] {
        assert Filter(skills, s => Relevant([], s)) == [];
      }
    }
  }

  /**
   * A role whose lower-case form names a member of `Object.prototype`,
   * with at least one skill: the source throws where the own-key lookup
   * keeps the first twelve skills.
   */
  lemma InheritedRoleThrows(skills: seq<string>, targetRole: string)
    requires Lower(targetRole) in ObjectPrototypeMembers && skills != []
    ensures GetRelevantSkillsAsWritten(skills, targetRole) == Err(NotAFunction)
    ensures GetRelevantSkills(skills, targetRole) == Take(skills, 12)
  {
    TableKeysOwn(Lower(targetRole));
    LookupFromSpec(RoleKeywords, Lower(targetRole), 0);
    UnknownRoleKeepsOrder(skills, targetRole);
  }

  /**
   * The role "Constructor" (a custom role the role picker accepts) is such a
   * role. The literal is written in two parts only to keep the proof about
   * its lower-cased form small.
   */
  const ConstructorRole: string := "Con" + "structor"

  lemma ConstructorRoleInherited()
    ensures Lower(ConstructorRole) in ObjectPrototypeMembers
  {
    LowerSpec(ConstructorRole);
    assert Lower(ConstructorRole) == ObjectPrototypeMembers[0];
  }

  // ---------------------------------------------------------------------
  // The four documents. Each template is cut where the properties below
  // need to see its parts: fixed text stays inside the part it belongs to.

  /** `generateContent`'s result. */
  datatype GeneratedContent = GeneratedContent(
    tailoredResume: string,
    coverLetter: string,
    linkedinBio: string,
    githubBio: string)

  /** `relevantSkills.slice(0, n).join(sep)` */
  function JoinFirst(skills: seq<string>, n: nat, sep: string): string
  {
    Join(Take(skills, n), sep)
  }

  /** `summary.split('.')[0] + '.'`: the summary's first sentence. */
  function FirstSentence(summary: string): string
  {
    Split(summary, {'.'})[0] + "."
  }

  /** `summary ? FirstSentence(summary) : fallback` */
  function Opening(summary: string, fallback: string): string
  {
    if summary != "" then FirstSentence(summary) else fallback
  }

  /** `name.split(' ')[0]` */
  function FirstName(name: string): string
  {
    Split(name, {' '})[0]
  }

  /** The first sentence is the summary up to its first full stop, and ends with one. */
  lemma FirstSentenceSpec(summary: string)
    ensures var f := FirstSentence(summary);
      f[..|f| - 1] <= summary && '.' !in f[..|f| - 1] && f[|f| - 1] == '.'
      && (|f| - 1 < |summary| ==> summary[|f| - 1] == '.')
  {
    SplitFirst(summary, '.');
    var f := FirstSentence(summary);
    assert f[..|f| - 1] == Split(summary, {'.'})[0];
  }

  /** The first name is the name up to its first space. */
  lemma FirstNameSpec(name: string)
    ensures var f := FirstName(name);
      f <= name && ' ' !in f && (|f| < |name| ==> name[|f|] == ' ')
  {
    SplitFirst(name, ' ');
  }

  // The tailored résumé.

  const DefaultExperience: string :=
    "• Developed and maintained applications using modern technologies\n"
    + "• Collaborated with cross-functional teams to deliver projects on time\n"
    + "• Implemented best practices for code quality and performance optimization\n"
    + "• Contributed to technical decision-making and architecture planning"

  const NoEducation: string := "Education details to be added"

  const KeyAchievements: string :=
    "\n\nKEY ACHIEVEMENTS\n"
    + "• Successfully delivered projects that improved efficiency and user experience\n"
    + "• Demonstrated strong problem-solving skills in challenging technical environments\n"
    + "• Maintained high code quality standards and contributed to team knowledge sharing\n"
    + "• Adapted quickly to new technologies and methodologies"

  const SummaryHeading: string := "\n\nPROFESSIONAL SUMMARY\n"

  /** The rest of the summary written when the résumé has none. */
  const GeneratedSummaryTail: string :=
    ". Proven track record of delivering high-quality solutions and driving results in fast-paced environments."
    + " Passionate about leveraging technology to solve complex problems and create meaningful impact."

  const CompetenciesHeading: string := "\n\nCORE COMPETENCIES\n"
  const ExperienceHeading: string := "\n\nPROFESSIONAL EXPERIENCE\n"
  const ProjectsHeading: string := "\n\nKEY PROJECTS\n"
  const EducationHeading: string := "\n\nEDUCATION\n"

  /** The résumé's first two lines: the name, then the target role. */
  function ResumeTitle(name: string, targetRole: string): string
  {
    name + "\n" + targetRole + "\n"
  }

  /** The contact line, the summary (or a generated one) and the competencies. */
  function ResumeProfile(data: ParsedResumeData, targetRole: string, relevantSkills: seq<string>): string
  {
    data.email + " | " + data.phone + " | " + data.location + SummaryHeading
    + (if data.summary != "" then data.summary
       else "Dedicated " + targetRole + " with expertise in " + JoinFirst(relevantSkills, 3, ", ") + GeneratedSummaryTail)
    + CompetenciesHeading
    + Join(relevantSkills, " • ")
  }

  /** The experience entries, or four generic bullets when there are none. */
  function ExperienceBody(experience: seq<string>): string
  {
    if |experience| > 0 then Join(experience, "\n\n") else DefaultExperience
  }

  function ExperienceSection(experience: seq<string>): string
  {
    ExperienceHeading + ExperienceBody(experience)
  }

  /** The initial value of `resumeContent`. */
  function ResumeHead(data: ParsedResumeData, targetRole: string, relevantSkills: seq<string>): string
  {
    ResumeTitle(data.name, targetRole)
    + ResumeProfile(data, targetRole, relevantSkills)
    + ExperienceSection(data.experience)
  }

  /** One project of the `KEY PROJECTS` block; a URL is shown only when it is not empty. */
  function ProjectBlock(project: Project): string
  {
    project.title + "\n" + project.description + "\nTechnologies: " + Join(project.technologies, ", ")
    + (if project.githubUrl != "" then "\nGitHub: " + project.githubUrl else "")
    + (if project.liveUrl != "" then "\nLive: " + project.liveUrl else "")
  }

  function ProjectBlocks(projects: seq<Project>): (r: seq<string>)
    ensures |r| == |projects|
    ensures forall i :: 0 <= i < |projects| ==> r[i] == ProjectBlock(projects[i])
  {
    if projects == [] then [] else [ProjectBlock(projects[0])] + ProjectBlocks(projects[1..])
  }

  /** The text the source appends when there are projects. */
  function ProjectsBlock(projects: seq<Project>): string
  {
    ProjectsHeading + Join(ProjectBlocks(projects), "\n\n")
  }

  /** The projects block, or nothing when there are no projects. */
  function ProjectsSection(projects: seq<Project>): string
  {
    if |projects| > 0 then ProjectsBlock(projects) else ""
  }

  /** The education entries, or a placeholder when there are none. */
  function EducationBody(education: seq<string>): string
  {
    if |education| > 0 then Join(education, "\n") else NoEducation
  }

  /** What the source appends last: education and the fixed achievements. */
  function EducationSection(education: seq<string>): string
  {
    EducationHeading + EducationBody(education) + KeyAchievements
  }

  /** The résumé `generateTailoredResume` builds. */
  function TailoredResumeText(data: ParsedResumeData, targetRole: string, projects: seq<Project>): string
  {
    ResumeHead(data, targetRole, GetRelevantSkills(data.skills, targetRole))
    + ProjectsSection(projects)
    + EducationSection(data.education)
  }

  /** `generateTailoredResume`: the head, the projects block when there are projects, then education. */
  method GenerateTailoredResume(data: ParsedResumeData, targetRole: string, projects: seq<Project>)
    returns (resumeContent: string)
    ensures resumeContent == TailoredResumeText(data, targetRole, projects)
    ensures StartsWith(resumeContent, ResumeTitle(data.name, targetRole))
    ensures EndsWith(resumeContent, EducationSection(data.education))
  {
    var relevantSkills := GetRelevantSkills(data.skills, targetRole);
    resumeContent := ResumeHead(data, targetRole, relevantSkills);
    if |projects| > 0 {
      resumeContent := resumeContent + ProjectsBlock(projects);
    } else {
      assert resumeContent + ProjectsSection(projects) == resumeContent;
    }
    resumeContent := resumeContent + EducationSection(data.education);
    TailoredResumeShape(data, targetRole, projects);
  }

  /**
   * The résumé starts with the name and the role and ends with the
   * education block; without projects nothing stands between the head and
   * the education block, and with projects every project's block is in it.
   */
  lemma TailoredResumeShape(data: ParsedResumeData, targetRole: string, projects: seq<Project>)
    ensures var r := TailoredResumeText(data, targetRole, projects);
      StartsWith(r, ResumeTitle(data.name, targetRole))
      && EndsWith(r, EducationSection(data.education))
      && (projects == [] ==>
            r == ResumeHead(data, targetRole, GetRelevantSkills(data.skills, targetRole)) + EducationSection(data.education))
      && (forall i :: 0 <= i < |projects| ==> Contains(r, ProjectBlock(projects[i])))
  {
    var title := ResumeTitle(data.name, targetRole);
    var relevantSkills := GetRelevantSkills(data.skills, targetRole);
    var head := ResumeHead(data, targetRole, relevantSkills);
    var tail := EducationSection(data.education);
    StartsWithin(title, ResumeProfile(data, targetRole, relevantSkills), title);
    StartsWithin(title + ResumeProfile(data, targetRole, relevantSkills), ExperienceSection(data.experience), title);
    StartsWithin(head, ProjectsSection(projects), title);
    StartsWithin(head + ProjectsSection(projects), tail, title);
    EndsWithin(head + ProjectsSection(projects), tail, tail);
    if projects == [] {
      assert head + ProjectsSection(projects) == head;
    }
    forall i | 0 <= i < |projects|
      ensures Contains(TailoredResumeText(data, targetRole, projects), ProjectBlock(projects[i]))
    {
      JoinHolds(ProjectBlocks(projects), "\n\n", i);
      ContainsRight(ProjectsHeading, Join(ProjectBlocks(projects), "\n\n"), ProjectBlock(projects[i]));
      ContainsRight(head, ProjectsSection(projects), ProjectBlock(projects[i]));
      ContainsLeft(head + ProjectsSection(projects), tail, ProjectBlock(projects[i]));
    }
  }

  /** Every part of a joined list occurs in the joined string. */
  lemma {:induction false} JoinHolds(parts: seq<string>, sep: string, i: nat)
    requires i < |parts|
    ensures Contains(Join(parts, sep), parts[i])
    decreases |parts|
  {
    if |parts| == 1 {
      ContainsWhole(parts[0]);
    } else if i == 0 {
      ContainsWhole(parts[0]);
      ContainsLeft(parts[0], sep, parts[0]);
      ContainsLeft(parts[0] + sep, Join(parts[1..], sep), parts[0]);
    } else {
      JoinHolds(parts[1..], sep, i - 1);
      ContainsRight(parts[0] + sep, Join(parts[1..], sep), parts[i]);
    }
  }

  /**
   * The résumé holds the experience entries, or the generic bullets when
   * there are none, and the education entries, or the placeholder.
   */
  lemma TailoredResumeDefaults(data: ParsedResumeData, targetRole: string, projects: seq<Project>)
    ensures var r := TailoredResumeText(data, targetRole, projects);
      (data.experience == [] ==> Contains(r, DefaultExperience))
      && (forall i :: 0 <= i < |data.experience| ==> Contains(r, data.experience[i]))
      && (data.education == [] ==> Contains(r, NoEducation))
      && (forall i :: 0 <= i < |data.education| ==> Contains(r, data.education[i]))
  {
    forall t | Contains(ExperienceBody(data.experience), t)
      ensures Contains(TailoredResumeText(data, targetRole, projects), t)
    {
      ExperienceBodyInResume(data, targetRole, projects, t);
    }
    forall t | Contains(EducationBody(data.education), t)
      ensures Contains(TailoredResumeText(data, targetRole, projects), t)
    {
      EducationBodyInResume(data, targetRole, projects, t);
    }
    if data.experience == [] {
      ContainsWhole(DefaultExperience);
    }
    forall i | 0 <= i < |data.experience| ensures Contains(ExperienceBody(data.experience), data.experience[i]) {
      JoinHolds(data.experience, "\n\n", i);
    }
    if data.education == [] {
      ContainsWhole(NoEducation);
    }
    forall i | 0 <= i < |data.education| ensures Contains(EducationBody(data.education), data.education[i]) {
      JoinHolds(data.education, "\n", i);
    }
  }

  lemma ExperienceBodyInResume(data: ParsedResumeData, targetRole: string, projects: seq<Project>, t: string)
    requires Contains(ExperienceBody(data.experience), t)
    ensures Contains(TailoredResumeText(data, targetRole, projects), t)
  {
    var relevantSkills := GetRelevantSkills(data.skills, targetRole);
    var head := ResumeHead(data, targetRole, relevantSkills);
    ContainsRight(ExperienceHeading, ExperienceBody(data.experience), t);
    ContainsRight(ResumeTitle(data.name, targetRole) + ResumeProfile(data, targetRole, relevantSkills),
      ExperienceSection(data.experience), t);
    ContainsLeft(head, ProjectsSection(projects), t);
    ContainsLeft(head + ProjectsSection(projects), EducationSection(data.education), t);
  }

  lemma EducationBodyInResume(data: ParsedResumeData, targetRole: string, projects: seq<Project>, t: string)
    requires Contains(EducationBody(data.education), t)
    ensures Contains(TailoredResumeText(data, targetRole, projects), t)
  {
    var front := ResumeHead(data, targetRole, GetRelevantSkills(data.skills, targetRole)) + ProjectsSection(projects);
    ContainsRight(EducationHeading, EducationBody(data.education), t);
    ContainsLeft(EducationHeading + EducationBody(data.education), KeyAchievements, t);
    ContainsRight(front, EducationSection(data.education), t);
  }

  // The cover letter.

  const LetterGreeting: string :=
    "Dear Hiring Manager,\n\n" + "I am writing to express my strong interest in the "
  const LetterPosition: string := " position at your organization. With my background in "
  const LetterEagerness: string :=
    ", I am excited about the opportunity to contribute to your team's continued success.\n\n"
  /** The rest of the opening sentence written when the résumé has no summary. */
  const LetterOpeningTail: string :=
    ", I bring a unique combination of technical expertise and problem-solving abilities."
  const LetterExperience: string :=
    " My experience has enabled me to tackle complex challenges while maintaining a focus on delivering"
    + " high-quality solutions that drive business value.\n\n"
    + "What particularly excites me about this opportunity is the chance to leverage my expertise in "
  const LetterImpact: string :=
    " to make a meaningful impact. I am confident that my technical skills, combined with my dedication to"
    + " continuous learning and collaboration, would make me a valuable addition to your team.\n\n"
    + "Key highlights of my qualifications include:\n"
    + "• Proficiency in "
  const LetterClosing: string :=
    "\n"
    + "• Strong track record of delivering projects on time and within scope\n"
    + "• Excellent communication and teamwork abilities\n"
    + "• Passion for staying current with industry trends and best practices\n\n"
    + "I would welcome the opportunity to discuss how my experience and enthusiasm can contribute to your"
    + " organization's objectives. Thank you for your consideration, and I look forward to hearing from you.\n\n"

  /** Everything before the signature. */
  function CoverLetterBody(data: ParsedResumeData, targetRole: string, relevantSkills: seq<string>): string
  {
    LetterGreeting + targetRole + LetterPosition + JoinFirst(relevantSkills, 3, ", ") + LetterEagerness
    + Opening(data.summary, "As a passionate " + targetRole + LetterOpeningTail)
    + LetterExperience + JoinFirst(relevantSkills, 2, " and ")
    + LetterImpact + JoinFirst(relevantSkills, 4, ", ") + LetterClosing
  }

  /** `Best regards,` and the name on the next line. */
  function Signature(name: string): string
  {
    "Best regards,\n" + name
  }

  /** `generateCoverLetter`: the letter ends with the signature, so with the name. */
  function CoverLetter(data: ParsedResumeData, targetRole: string): (r: string)
    ensures EndsWith(r, Signature(data.name))
    ensures EndsWith(r, data.name)
  {
    var body := CoverLetterBody(data, targetRole, GetRelevantSkills(data.skills, targetRole));
    EndsWithin(body, Signature(data.name), Signature(data.name));
    EndsWithin("Best regards,\n", data.name, data.name);
    EndsWithin(body, Signature(data.name), data.name);
    body + Signature(data.name)
  }

  // The LinkedIn bio.

  const HeadlineTail: string := " | Building innovative solutions\n\n"
  /** The rest of the opening sentence written when the résumé has no summary. */
  const LinkedInOpeningTail: string :=
    " with expertise in modern technologies and a commitment to delivering exceptional results."
  const SeekingLead: string := " Currently seeking new opportunities to drive impact in "
  const ExpertiseLead: string := " roles.\n\n" + "\U{1F680} Expertise: "
  const LinkedInHighlights: string :=
    "\n"
    + "\U{1F4A1} Passionate about continuous learning and emerging technologies\n"
    + "\U{1F91D} Always open to connecting with fellow professionals\n"
    + "\U{1F3AF} Focused on delivering solutions that create meaningful business value\n"
    + "\U{1F4CD} "
  const LinkedInInvitation: string :=
    "\n\n" + "Let's connect and explore how we can collaborate to build something amazing together!\n\n"
  const FixedHashtags: string := " #Technology #Innovation #ProfessionalDevelopment"

  /** The headline: the role and the first three skills. */
  function Headline(targetRole: string, relevantSkills: seq<string>): string
  {
    targetRole + " | " + JoinFirst(relevantSkills, 3, " • ") + HeadlineTail
  }

  /** The about text between the headline and the hashtags. */
  function LinkedInAbout(data: ParsedResumeData, targetRole: string, relevantSkills: seq<string>): string
  {
    Opening(data.summary, "Passionate " + targetRole + LinkedInOpeningTail)
    + SeekingLead + Lower(targetRole) + ExpertiseLead + JoinFirst(relevantSkills, 5, ", ")
    + LinkedInHighlights + data.location + LinkedInInvitation
  }

  /** The closing hashtags: the role with its white space removed, then three fixed tags. */
  function Hashtags(targetRole: string): string
  {
    "#" + RemoveSpaces(targetRole) + FixedHashtags
  }

  /**
   * `generateLinkedInBio`: the bio opens with the role and closes with the
   * hashtags, the first of which is the role with no white space in it.
   */
  function LinkedInBio(data: ParsedResumeData, targetRole: string): (r: string)
    ensures StartsWith(r, targetRole + " | ")
    ensures EndsWith(r, Hashtags(targetRole))
    ensures forall c :: c in RemoveSpaces(targetRole) ==> !IsJsSpace(c)
  {
    var relevantSkills := GetRelevantSkills(data.skills, targetRole);
    var lead := targetRole + " | ";
    var headline := Headline(targetRole, relevantSkills);
    var about := LinkedInAbout(data, targetRole, relevantSkills);
    StartsWithin(lead, JoinFirst(relevantSkills, 3, " • "), lead);
    StartsWithin(lead + JoinFirst(relevantSkills, 3, " • "), HeadlineTail, lead);
    StartsWithin(headline, about, lead);
    StartsWithin(headline + about, Hashtags(targetRole), lead);
    EndsWithin(headline + about, Hashtags(targetRole), Hashtags(targetRole));
    headline + about + Hashtags(targetRole)
  }

  // The GitHub profile README.

  const GreetingLead: string := "# Hi there! \U{1F44B} I'm "
  /** The rest of the opening sentence written when the résumé has no summary. */
  const GitHubOpeningTail: string :=
    " with expertise in modern technologies and a love for building innovative solutions."
  const WorkingOnLead: string :=
    "\n\n" + "### \U{1F52D} Currently working on\n" + "- Building scalable applications using "
  const LearningLead: string :=
    "\n"
    + "- Exploring new technologies and best practices\n"
    + "- Contributing to open source projects\n\n"
    + "### \U{1F331} Always learning\n"
    + "- Latest trends in "
  const AskLead: string :=
    " development\n"
    + "- Best practices for code quality and performance\n"
    + "- New frameworks and tools in the tech ecosystem\n\n"
    + "### \U{1F4AC} Ask me about\n"
  const ReachLead: string :=
    ", system architecture, and best practices\n\n" + "### \U{1F4EB} How to reach me\n" + "- Email: "
  const LocationLead: string := "\n" + "- Location: "
  const FunFact: string :=
    "\n\n"
    + "### \U{26A1} Fun fact\n"
    + "I love turning complex problems into elegant, scalable solutions!\n\n"
    + "---\n\n"
    + "**\U{1F6E0}\U{FE0F} Tech Stack:** "
  const FocusAreas: string :=
    "\n\n"
    + "**\U{1F3AF} Focus Areas:** Clean Code • Performance Optimization • User Experience • Continuous Learning"

  /** The greeting: the first word of the name. */
  function Greeting(name: string): string
  {
    GreetingLead + FirstName(name)
  }

  /** Everything after the greeting. */
  function GitHubProfile(data: ParsedResumeData, targetRole: string, relevantSkills: seq<string>): string
  {
    "\n\n" + "## " + targetRole + " | " + JoinFirst(relevantSkills, 3, " • ") + "\n\n"
    + Opening(data.summary, "Passionate " + targetRole + GitHubOpeningTail)
    + WorkingOnLead + JoinFirst(relevantSkills, 2, " and ")
    + LearningLead + Lower(targetRole)
    + AskLead + JoinFirst(relevantSkills, 4, ", ")
    + ReachLead + data.email
    + LocationLead + data.location
    + FunFact + Join(relevantSkills, " | ")
    + FocusAreas
  }

  /** `generateGitHubBio`: the profile greets the first space-separated word of the name, which holds no space. */
  function GitHubBio(data: ParsedResumeData, targetRole: string): (r: string)
    ensures StartsWith(r, Greeting(data.name))
    ensures var f := FirstName(data.name); f <= data.name && ' ' !in f
  {
    var profile := GitHubProfile(data, targetRole, GetRelevantSkills(data.skills, targetRole));
    StartsWithin(Greeting(data.name), profile, Greeting(data.name));
    FirstNameSpec(data.name);
    Greeting(data.name) + profile
  }

  /**
   * `generateContent`: the four documents for one résumé, role and project
   * list. The résumé is headed by the name and the role, the letter is
   * signed with the name, the LinkedIn bio opens with the role and the
   * GitHub profile greets the first name.
   */
  function GenerateContent(data: ParsedResumeData, targetRole: string, projects: seq<Project>): (r: GeneratedContent)
    ensures StartsWith(r.tailoredResume, ResumeTitle(data.name, targetRole))
    ensures EndsWith(r.tailoredResume, EducationSection(data.education))
    ensures EndsWith(r.coverLetter, Signature(data.name))
    ensures StartsWith(r.linkedinBio, targetRole + " | ")
    ensures StartsWith(r.githubBio, Greeting(data.name))
  {
    TailoredResumeShape(data, targetRole, projects);
    GeneratedContent(
      TailoredResumeText(data, targetRole, projects),
      CoverLetter(data, targetRole),
      LinkedInBio(data, targetRole),
      GitHubBio(data, targetRole))
  }
}
