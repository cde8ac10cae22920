/**
 * The project records of src/types/project.ts. The optional URL and
 * screenshot fields are strings in which "" stands for "not given": the
 * upload form always fills them with a string, and every reader of them
 * treats "" and a missing field alike.
 */
module Projects {

  /** `Project` */
  datatype Project = Project(
    id: string,
    title: string,
    description: string,
    technologies: seq<string>,
    githubUrl: string,
    liveUrl: string,
    screenshot: string)

  /** `Omit<Project, 'id'>`: the project being filled in by the upload form. */
  datatype ProjectDraft = ProjectDraft(
    title: string,
    description: string,
    technologies: seq<string>,
    githubUrl: string,
    liveUrl: string,
    screenshot: string)

  /** `{ ...draft, id }` */
  function WithId(draft: ProjectDraft, id: string): Project
  {
    Project(id, draft.title, draft.description, draft.technologies, draft.githubUrl, draft.liveUrl, draft.screenshot)
  }

  /** The form's empty state. */
  const EmptyDraft: ProjectDraft := ProjectDraft("", "", [], "", "", "")
}
