/**
 * The six-step wizard of src/App.tsx: the current step and the user's data,
 * and the handlers the steps call. React's state setters become
 * assignments to the two fields; every handler runs to completion before
 * the next one starts.
 */
module App {
  import opened Wrappers
  import opened Projects
  import opened ResumeParser

  /** `UserData`: the parsed résumé, the chosen role, the uploaded file and the projects. */
  datatype UserData = UserData(
    data: ParsedResumeData,
    targetRole: string,
    resumeFile: Option<FileInfo>,
    projects: seq<Project>)

  /** The parsed résumé with every field empty. */
  const EmptyResume: ParsedResumeData := ParsedResumeData("", "", "", "", "", [], [], [], "")

  /** The state the wizard starts from and returns to. */
  const InitialUserData: UserData := UserData(EmptyResume, "", None, [])

  /** The first and the last step. */
  const FirstStep: nat := 1
  const LastStep: nat := 6

  /** The step the results are shown on, and the one the portfolio is deployed from. */
  const ResultsStep: nat := 5
  const PortfolioStep: nat := 6

  class Wizard {
    var currentStep: nat
    var userData: UserData

    /** The wizard is always on one of its six steps. */
    predicate Valid()
      reads this
    {
      FirstStep <= currentStep <= LastStep
    }

    /** The initial state: step 1 and no data. */
    constructor ()
      ensures Valid()
      ensures currentStep == FirstStep && userData == InitialUserData
    {
      currentStep := FirstStep;
      userData := InitialUserData;
    }

    /** A parsed upload replaces the résumé, clears role and projects, keeps the file and moves to step 2. */
    method HandleFileUpload(file: FileInfo, extractedData: ParsedResumeData)
      requires Valid()
      modifies this
      ensures Valid()
      ensures userData == UserData(extractedData, "", Some(file), [])
      ensures currentStep == 2
    {
      userData := UserData(extractedData, "", Some(file), []);
      currentStep := 2;
    }

    /** Choosing a role changes only the role and moves to step 3. */
    method HandleRoleSelection(role: string)
      requires Valid()
      modifies this
      ensures Valid()
      ensures userData == old(userData).(targetRole := role)
      ensures currentStep == 3
    {
      userData := userData.(targetRole := role);
      currentStep := 3;
    }

    /** The edited résumé overwrites the parsed one; role, file and projects stay; step 4. */
    method HandleDataUpdate(updatedData: ParsedResumeData)
      requires Valid()
      modifies this
      ensures Valid()
      ensures userData == old(userData).(data := updatedData)
      ensures currentStep == 4
    {
      userData := userData.(data := updatedData);
      currentStep := 4;
    }

    /** A new project list replaces the old one; nothing else changes, the step included. */
    method HandleProjectsUpdate(projects: seq<Project>)
      requires Valid()
      modifies this
      ensures Valid()
      ensures userData == old(userData).(projects := projects)
      ensures currentStep == old(currentStep)
    {
      userData := userData.(projects := projects);
    }

    /** Continue from the projects to the results, whatever the step. */
    method HandleProjectsContinue()
      requires Valid()
      modifies this
      ensures Valid()
      ensures currentStep == ResultsStep && userData == old(userData)
    {
      currentStep := ResultsStep;
    }

    /** On to the portfolio deployment, whatever the step. */
    method HandlePortfolioDeployment()
      requires Valid()
      modifies this
      ensures Valid()
      ensures currentStep == PortfolioStep && userData == old(userData)
    {
      currentStep := PortfolioStep;
    }

    /** Back from the deployment to the results, whatever the step. */
    method HandleBackToResults()
      requires Valid()
      modifies this
      ensures Valid()
      ensures currentStep == ResultsStep && userData == old(userData)
    {
      currentStep := ResultsStep;
    }

    /** Start over: step 1 and the same empty data the wizard started with. */
    method HandleRestart()
      requires Valid()
      modifies this
      ensures Valid()
      ensures currentStep == FirstStep && userData == InitialUserData
    {
      currentStep := FirstStep;
      userData := EmptyUserData();
    }
  }

  /** The record `handleRestart` writes out field by field. */
  function EmptyUserData(): (u: UserData)
    ensures u == InitialUserData
    ensures u.data.name == "" && u.data.skills == [] && u.data.rawText == ""
    ensures u.targetRole == "" && u.resumeFile.None? && u.projects == []
  {
    UserData(ParsedResumeData("", "", "", "", "", [], [], [], ""), "", None, [])
  }
}
