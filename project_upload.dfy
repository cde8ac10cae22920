/**
 * The project form of src/components/ProjectUpload.tsx. The component owns
 * the form (whether it is open, the project being filled in and the
 * technology being typed); the list of projects belongs to the wizard, so
 * the handlers that change it return the list they hand to
 * `onProjectsUpdate`, or nothing when they do not call it.
 */
module ProjectUpload {
  import opened Wrappers
  import opened Text
  import opened Seqs
  import opened Projects

  /** `newProject.title.trim() && newProject.description.trim()`: both are more than white space. */
  predicate FormReady(draft: ProjectDraft)
  {
    Trim(draft.title) != [] && Trim(draft.description) != []
  }

  /** `projects.filter(p => p.id !== id)` */
  function RemoveProject(projects: seq<Project>, id: string): (r: seq<Project>)
    ensures forall p :: p in r <==> p in projects && p.id != id
    ensures IsSubsequence(r, projects)
    ensures forall p :: multiset(r)[p] == if p.id != id then multiset(projects)[p] else 0
  {
    var keep := (p: Project) => p.id != id;
    FilterSpec(projects, keep);
    FilterIsSubsequence(projects, keep);
    FilterCount(projects, keep);
    Filter(projects, keep)
  }

  /** A project added under an id no other project has is removed again by that id, and nothing else is. */
  lemma AddThenRemoveProject(projects: seq<Project>, draft: ProjectDraft, id: string)
    requires forall p :: p in projects ==> p.id != id
    ensures RemoveProject(projects + [WithId(draft, id)], id) == projects
  {
    var keep := (p: Project) => p.id != id;
    FilterAppend(projects, [WithId(draft, id)], keep);
    FilterKeepsAll(projects, keep);
    assert FilterFrom([WithId(draft, id)], 1, keep) == [];
  }

  /**
   * `handleAddTechnology` on the list: the trimmed input is appended when it
   * is not blank and not already listed; otherwise the list is unchanged.
   */
  function AddTechnology(technologies: seq<string>, input: string): (r: seq<string>)
    ensures Trim(input) != [] && Trim(input) !in technologies ==> r == technologies + [Trim(input)]
    ensures Trim(input) == [] || Trim(input) in technologies ==> r == technologies
    ensures Trim(input) in r <==> Trim(input) != [] || Trim(input) in technologies
  {
    var t := Trim(input);
    if t != [] && t !in technologies then technologies + [t] else technologies
  }

  /** The form's technologies: each trimmed and non-empty, none listed twice. */
  predicate TechnologiesValid(technologies: seq<string>)
  {
    NoDup(technologies) && forall i :: 0 <= i < |technologies| ==> technologies[i] != [] && IsTrimmed(technologies[i])
  }

  /** Adding a technology keeps the list valid. */
  lemma AddTechnologyValid(technologies: seq<string>, input: string)
    requires TechnologiesValid(technologies)
    ensures TechnologiesValid(AddTechnology(technologies, input))
  {
    TrimSpec(input);
  }

  /** Removing a technology keeps the list valid. */
  lemma RemoveTechnologyValid(technologies: seq<string>, tech: string)
    requires TechnologiesValid(technologies)
    ensures TechnologiesValid(RemoveAll(technologies, tech))
  {
    RemoveAllNoDup(technologies, tech);
    var r := RemoveAll(technologies, tech);
    forall i | 0 <= i < |r|
      ensures r[i] != [] && IsTrimmed(r[i])
    {
      assert r[i] in technologies;
    }
  }

  /** A technology that was added is removed again by name, leaving the list as it was. */
  lemma AddThenRemoveTechnology(technologies: seq<string>, input: string)
    requires Trim(input) != [] && Trim(input) !in technologies
    ensures RemoveAll(AddTechnology(technologies, input), Trim(input)) == technologies
  {
    AppendThenRemoveAll(technologies, Trim(input));
  }

  /** The text inputs of the form. */
  datatype DraftField = Title | Description | GithubUrl | LiveUrl

  /** `{ ...prev, [field]: value }` for a text input of the form. */
  function WithDraftField(draft: ProjectDraft, field: DraftField, value: string): (r: ProjectDraft)
    ensures r.technologies == draft.technologies && r.screenshot == draft.screenshot
    ensures r.title == (if field == Title then value else draft.title)
    ensures r.description == (if field == Description then value else draft.description)
    ensures r.githubUrl == (if field == GithubUrl then value else draft.githubUrl)
    ensures r.liveUrl == (if field == LiveUrl then value else draft.liveUrl)
  {
    match field
    case Title => draft.(title := value)
    case Description => draft.(description := value)
    case GithubUrl => draft.(githubUrl := value)
    case LiveUrl => draft.(liveUrl := value)
  }

  class ProjectUploader {
    var showAddForm: bool
    var newProject: ProjectDraft
    var newTechnology: string

    /** The technologies of the project being filled in are trimmed, non-empty and distinct. */
    predicate Valid()
      reads this
    {
      TechnologiesValid(newProject.technologies)
    }

    /** The form starts closed and empty. */
    constructor ()
      ensures Valid()
      ensures !showAddForm && newProject == EmptyDraft && newTechnology == ""
    {
      showAddForm := false;
      newProject := EmptyDraft;
      newTechnology := "";
    }

    /** The "Add Project" button, or the close and cancel buttons. */
    method SetShowAddForm(show: bool)
      requires Valid()
      modifies this
      ensures Valid()
      ensures showAddForm == show && newProject == old(newProject) && newTechnology == old(newTechnology)
    {
      showAddForm := show;
    }

    /** Typing into one of the text inputs changes only that field of the project. */
    method SetDraftField(field: DraftField, value: string)
      requires Valid()
      modifies this
      ensures Valid()
      ensures newProject == WithDraftField(old(newProject), field, value)
      ensures showAddForm == old(showAddForm) && newTechnology == old(newTechnology)
    {
      newProject := WithDraftField(newProject, field, value);
    }

    /** Typing into the technology input. */
    method SetNewTechnology(value: string)
      requires Valid()
      modifies this
      ensures Valid()
      ensures newTechnology == value
      ensures showAddForm == old(showAddForm) && newProject == old(newProject)
    {
      newTechnology := value;
    }

    /**
     * `handleImageUpload`, once the file has been read: the screenshot becomes
     * the data URL the reader produced.
     */
    method HandleImageLoaded(dataUrl: string)
      requires Valid()
      modifies this
      ensures Valid()
      ensures newProject == old(newProject).(screenshot := dataUrl)
      ensures showAddForm == old(showAddForm) && newTechnology == old(newTechnology)
    {
      newProject := newProject.(screenshot := dataUrl);
    }

    /**
     * `handleAddProject`: a project whose title and description are not blank
     * is appended, as typed, under the given id; the form is then reset and
     * closed. Otherwise nothing is handed on and nothing changes.
     */
    method HandleAddProject(projects: seq<Project>, id: string) returns (update: Option<seq<Project>>)
      requires Valid()
      modifies this
      ensures Valid()
      ensures FormReady(old(newProject)) ==>
        update == Some(projects + [WithId(old(newProject), id)])
        && newProject == EmptyDraft && !showAddForm
      ensures !FormReady(old(newProject)) ==>
        update == None && newProject == old(newProject) && showAddForm == old(showAddForm)
      ensures newTechnology == old(newTechnology)
    {
      if Trim(newProject.title) != [] && Trim(newProject.description) != [] {
        update := Some(projects + [WithId(newProject, id)]);
        newProject := EmptyDraft;
        showAddForm := false;
      } else {
        update := None;
      }
    }

    /** `handleRemoveProject`: the list without the projects carrying that id. */
    method HandleRemoveProject(projects: seq<Project>, id: string) returns (update: seq<Project>)
      ensures update == RemoveProject(projects, id)
      ensures forall p :: p in update ==> p.id != id
    {
      update := RemoveProject(projects, id);
    }

    /**
     * `handleAddTechnology`: a new, non-blank technology is appended trimmed
     * and the input cleared; otherwise nothing changes.
     */
    method HandleAddTechnology()
      requires Valid()
      modifies this
      ensures Valid()
      ensures newProject == old(newProject).(technologies := AddTechnology(old(newProject).technologies, old(newTechnology)))
      ensures newTechnology ==
        (if Trim(old(newTechnology)) != [] && Trim(old(newTechnology)) !in old(newProject).technologies
         then "" else old(newTechnology))
      ensures showAddForm == old(showAddForm)
    {
      AddTechnologyValid(newProject.technologies, newTechnology);
      var t := Trim(newTechnology);
      if t != [] && t !in newProject.technologies {
        newProject := newProject.(technologies := newProject.technologies + [t]);
        newTechnology := "";
      }
    }

    /** `handleRemoveTechnology`: every occurrence of the name is dropped. */
    method HandleRemoveTechnology(tech: string)
      requires Valid()
      modifies this
      ensures Valid()
      ensures newProject == old(newProject).(technologies := RemoveAll(old(newProject).technologies, tech))
      ensures showAddForm == old(showAddForm) && newTechnology == old(newTechnology)
    {
      RemoveTechnologyValid(newProject.technologies, tech);
      newProject := newProject.(technologies := RemoveAll(newProject.technologies, tech));
    }
  }
}
