/**
 * The two-step "create a study project" dialog
 * (src/components/CreateProjectModal.tsx): step 1 asks for a name, step 2
 * collects reference files, and "Continue" hands the name to the parent.
 * The callbacks the dialog invokes are recorded in order as notices.
 */
module CreateProjectModal {
  import opened Text
  import opened Api

  /** A callback the dialog invoked: `onCreateProject(name)` or `onClose()`. */
  datatype Notice = ProjectCreated(name: string) | Closed

  /** The dialog's state slots. */
  class CreateProjectWizard {
    var step: int
    var projectName: string
    var files: seq<File>
    var notices: seq<Notice>

    /** The dialog only ever shows step 1 or step 2. */
    ghost predicate Valid()
      reads this
    {
      step == 1 || step == 2
    }

    constructor ()
      ensures Valid() && step == 1 && projectName == "" && files == [] && notices == []
    {
      step := 1;
      projectName := "";
      files := [];
      notices := [];
    }

    /** The name field's `onChange`. */
    method SetProjectName(name: string)
      requires Valid()
      modifies this
      ensures Valid() && projectName == name
      ensures step == old(step) && files == old(files) && notices == old(notices)
    {
      projectName := name;
    }

    /** "Create project" is disabled exactly when the name is blank. */
    function CreateDisabled(): (disabled: bool)
      reads this
      ensures disabled <==> IsBlank(projectName)
    {
      TrimEmptyIffBlank(projectName);
      Trim(projectName) == []
    }

    /** `handleNext`: from step 1 with a non-blank name, go to step 2; otherwise nothing. */
    method HandleNext()
      requires Valid()
      modifies this
      ensures Valid()
      ensures step == if old(step) == 1 && !IsBlank(old(projectName)) then 2 else old(step)
      ensures projectName == old(projectName) && files == old(files) && notices == old(notices)
    {
      TrimEmptyIffBlank(projectName);
      if step == 1 && Trim(projectName) != [] {
        step := 2;
      }
    }

    /** `handleCreate`: hand the name to the parent, return to the initial state, then close. */
    method HandleCreate()
      requires Valid()
      modifies this
      ensures Valid() && step == 1 && projectName == "" && files == []
      ensures notices == old(notices) + [ProjectCreated(old(projectName)), Closed]
    {
      notices := notices + [ProjectCreated(projectName)];
      step := 1;
      projectName := "";
      files := [];
      notices := notices + [Closed];
    }

    /** `handleFileUpload`: the chosen files go after those already listed. */
    method HandleFileUpload(selected: seq<File>)
      requires Valid()
      modifies this
      ensures Valid() && files == old(files) + selected
      ensures step == old(step) && projectName == old(projectName) && notices == old(notices)
    {
      files := files + selected;
    }

    /** `handleReset` (the close button, Cancel and dismissing the dialog): initial state, then close. */
    method HandleReset()
      requires Valid()
      modifies this
      ensures Valid() && step == 1 && projectName == "" && files == []
      ensures notices == old(notices) + [Closed]
    {
      step := 1;
      projectName := "";
      files := [];
      notices := notices + [Closed];
    }
  }
}
