/**
 * The two-step "create a syllabus" dialog
 * (src/components/CreateSyllabusModal.tsx): step 1 creates the syllabus on
 * the backend, step 2 collects files and uploads them one by one, stopping at
 * the first failure, before handing the syllabus to the parent. Awaited calls
 * are parameters; the callbacks the dialog invokes are recorded as notices.
 */
module CreateSyllabusModal {
  import opened Wrappers
  import opened Text
  import opened Api

  /** A callback the dialog invoked: `onCreateSyllabus(id, name)` or `onClose()`. */
  datatype Notice = SyllabusCreated(syllabusId: string, name: string) | Closed

  /** The syllabus creation request; its body holds the name and the description generated from it. */
  datatype CreateRequest = CreateRequest(name: string)
  {
    function Description(): string {
      SyllabusDescription(name)
    }
  }

  /** The description the dialog generates for a new syllabus. */
  function SyllabusDescription(name: string): string {
    "A syllabus for studying " + name + " materials, where Claude helps create personalized learning resources, "
    + "visualize key concepts, and build comprehensive study strategies tailored to your learning needs."
  }

  /** The upload progress after `done` of `total` files: `(done / total) * 100`. */
  function ProgressAfter(done: nat, total: nat): real
    requires total > 0
  {
    (done as real / total as real) * 100.0
  }

  /** Progress grows with every uploaded file, stays within 0..100 and reaches 100 with the last one. */
  lemma ProgressBounds(done: nat, total: nat)
    requires 0 < total && done < total
    ensures 0.0 <= ProgressAfter(done, total) < ProgressAfter(done + 1, total) <= 100.0
    ensures ProgressAfter(total, total) == 100.0
  {
    var t := total as real;
    assert (done + 1) as real / t - done as real / t == 1.0 / t;
    assert (done + 1) as real <= t;
  }

  /** How many uploads succeed before the first failure among `total` attempts. */
  function LeadingSuccesses(attempt: nat -> bool, total: nat): (k: nat)
    ensures k <= total
    ensures forall j :: 0 <= j < k ==> attempt(j)
    ensures k < total ==> !attempt(k)
  {
    SuccessesFrom(attempt, 0, total)
  }

  function SuccessesFrom(attempt: nat -> bool, from: nat, total: nat): (k: nat)
    requires from <= total
    ensures from <= k <= total
    ensures forall j :: from <= j < k ==> attempt(j)
    ensures k < total ==> !attempt(k)
    decreases total - from
  {
    if from == total || !attempt(from) then from else SuccessesFrom(attempt, from + 1, total)
  }

  /**
   * The upload loop of `handleCreate`: upload the files in order, where
   * `attempt(i)` is whether the i-th upload succeeds; the first failure ends
   * the loop. Returns the files whose upload was attempted, the progress set
   * after each success, and whether an upload failed.
   */
  method UploadInOrder(files: seq<File>, attempt: nat -> bool)
    returns (attempted: seq<File>, progressTrace: seq<real>, failed: bool)
    requires |files| > 0
    ensures var n := |files|;
      var k := LeadingSuccesses(attempt, n);
      && (failed <==> k < n)
      && attempted == files[..if k < n then k + 1 else k]
      && |progressTrace| == k
      && (forall j :: 0 <= j < k ==> progressTrace[j] == ProgressAfter(j + 1, n))
    ensures forall j :: 0 <= j < |progressTrace| ==> 0.0 <= progressTrace[j] <= 100.0
  {
    var n := |files|;
    attempted, progressTrace, failed := [], [], false;
    var i := 0;
    while i < n && !failed
      invariant 0 <= i <= n
      invariant forall j :: 0 <= j < i ==> attempt(j)
      invariant failed ==> i < n && !attempt(i)
      invariant attempted == files[..if failed then i + 1 else i]
      invariant |progressTrace| == i
      invariant forall j :: 0 <= j < i ==> progressTrace[j] == ProgressAfter(j + 1, n)
      invariant forall j :: 0 <= j < i ==> 0.0 <= progressTrace[j] <= 100.0
      decreases n - i, if failed then 0 else 1
    {
      attempted := attempted + [files[i]];
      if attempt(i) {
        ProgressBounds(i, n);
        progressTrace := progressTrace + [ProgressAfter(i + 1, n)];
        i := i + 1;
      } else {
        failed := true;
      }
    }
  }

  /** The dialog's state slots. */
  class CreateSyllabusWizard {
    var step: int
    var syllabusName: string
    var files: seq<File>
    var syllabusId: Option<string>
    var uploading: bool
    var uploadProgress: real
    var creatingSyllabus: bool
    var notices: seq<Notice>

    /**
     * Between handlers: the dialog shows step 1 or 2, step 2 is only reached
     * with a created syllabus, no request is in flight and the progress is a
     * percentage.
     */
    ghost predicate Valid()
      reads this
    {
      (step == 1 || step == 2) && (step == 2 ==> syllabusId.Some?)
      && !uploading && !creatingSyllabus && 0.0 <= uploadProgress <= 100.0
    }

    constructor ()
      ensures Valid() && step == 1 && syllabusName == "" && files == [] && syllabusId == None
      ensures uploadProgress == 0.0 && notices == []
    {
      step := 1;
      syllabusName := "";
      files := [];
      syllabusId := None;
      uploading := false;
      uploadProgress := 0.0;
      creatingSyllabus := false;
      notices := [];
    }

    /** The name field's `onChange` (the handler it names is not defined; this is the setter it means). */
    method SetSyllabusName(name: string)
      requires Valid()
      modifies this
      ensures Valid() && syllabusName == name
      ensures step == old(step) && files == old(files) && syllabusId == old(syllabusId)
      ensures uploadProgress == old(uploadProgress) && notices == old(notices)
    {
      syllabusName := name;
    }

    /** "Next" is disabled while the name is blank or a creation is in flight. */
    function NextDisabled(): (disabled: bool)
      reads this
      ensures disabled <==> IsBlank(syllabusName) || creatingSyllabus
    {
      TrimEmptyIffBlank(syllabusName);
      Trim(syllabusName) == [] || creatingSyllabus
    }

    /**
     * `handleNext`: from step 1 with a non-blank name, post the creation
     * request; on success remember the id and go to step 2, on failure stay.
     * `creatingSyllabus` is cleared however the request ends.
     */
    method HandleNext(outcome: Result<string, Failure>) returns (request: Option<CreateRequest>)
      requires Valid()
      modifies this
      ensures Valid()
      ensures request.Some? <==> old(step) == 1 && !IsBlank(old(syllabusName))
      ensures request.Some? ==> request.value == CreateRequest(old(syllabusName))
      ensures request.Some? && outcome.Ok? ==> syllabusId == Some(outcome.value) && step == 2
      ensures request.None? || outcome.Err? ==> syllabusId == old(syllabusId) && step == old(step)
      ensures !creatingSyllabus
      ensures syllabusName == old(syllabusName) && files == old(files)
      ensures uploadProgress == old(uploadProgress) && notices == old(notices)
    {
      request := None;
      TrimEmptyIffBlank(syllabusName);
      if step != 1 || Trim(syllabusName) == [] {
        return;
      }
      var name := syllabusName;
      creatingSyllabus := true;
      request := Some(CreateRequest(name));
      if outcome.Ok? {
        syllabusId := Some(outcome.value);
        step := 2;
      }
      creatingSyllabus := false;
    }

    /** The "Back" button of step 2. */
    method Back()
      requires Valid()
      modifies this
      ensures Valid() && step == 1
      ensures syllabusName == old(syllabusName) && files == old(files) && syllabusId == old(syllabusId)
      ensures uploadProgress == old(uploadProgress) && notices == old(notices)
    {
      step := 1;
    }

    /**
     * `handleCreate`: without a syllabus id (none, or the empty string),
     * nothing. Otherwise upload the files in order, where `attempt(i)` is
     * whether the i-th upload succeeds; the first failure ends the loop. After the i-th success the progress is
     * (i+1)/n * 100. Then, whether or not an upload failed, hand the syllabus
     * to the parent, return to the initial state and close.
     */
    method HandleCreate(attempt: nat -> bool)
      returns (attempted: seq<File>, progressTrace: seq<real>, completeToast: bool, errorToast: bool)
      requires Valid()
      modifies this
      ensures Valid()
      ensures !Truthy(old(syllabusId)) ==>
        attempted == [] && progressTrace == [] && !completeToast && !errorToast
        && step == old(step) && syllabusName == old(syllabusName) && files == old(files)
        && syllabusId == old(syllabusId) && uploadProgress == old(uploadProgress) && notices == old(notices)
      ensures Truthy(old(syllabusId)) ==>
        var n := |old(files)|;
        var k := LeadingSuccesses(attempt, n);
        && attempted == old(files)[..if k < n then k + 1 else k]
        && |progressTrace| == k
        && (forall j :: 0 <= j < k ==> progressTrace[j] == ProgressAfter(j + 1, n))
        && (completeToast <==> n > 0 && k == n)
        && (errorToast <==> k < n)
        && notices == old(notices) + [SyllabusCreated(old(syllabusId).value, old(syllabusName)), Closed]
        && step == 1 && syllabusName == "" && files == [] && syllabusId == None && uploadProgress == 0.0
    {
      attempted, progressTrace, completeToast, errorToast := [], [], false, false;
      if !Truthy(syllabusId) {
        return;
      }
      var n := |files|;
      if n > 0 {
        uploading := true;
        uploadProgress := 0.0;
        var failed;
        attempted, progressTrace, failed := UploadInOrder(files, attempt);
        if |progressTrace| > 0 {
          uploadProgress := progressTrace[|progressTrace| - 1];
        }
        completeToast := !failed;
        errorToast := failed;
        uploading := false;
      }
      var created := SyllabusCreated(syllabusId.value, syllabusName);
      step, syllabusName, files, syllabusId, uploadProgress := 1, "", [], None, 0.0;
      notices := notices + [created, Closed];
    }

    /** `handleFileUpload`: the chosen files go after those already listed. */
    method HandleFileUpload(selected: seq<File>)
      requires Valid()
      modifies this
      ensures Valid() && files == old(files) + selected
      ensures step == old(step) && syllabusName == old(syllabusName) && syllabusId == old(syllabusId)
      ensures uploadProgress == old(uploadProgress) && notices == old(notices)
    {
      files := files + selected;
    }

    /**
     * `handleReset` (the close button, Cancel and dismissing the dialog):
     * step 1, empty name and file list, then close. The created syllabus id
     * and the upload progress are left as they were.
     */
    method HandleReset()
      requires Valid()
      modifies this
      ensures Valid() && step == 1 && syllabusName == "" && files == []
      ensures syllabusId == old(syllabusId) && uploadProgress == old(uploadProgress)
      ensures notices == old(notices) + [Closed]
    {
      step := 1;
      syllabusName := "";
      files := [];
      notices := notices + [Closed];
    }

    /** The reset the dialog evidently intends: every slot back to its initial value, then close. */
    method ResetToInitial()
      requires Valid()
      modifies this
      ensures Valid() && step == 1 && syllabusName == "" && files == []
      ensures syllabusId == None && uploadProgress == 0.0
      ensures notices == old(notices) + [Closed]
    {
      step := 1;
      syllabusName := "";
      files := [];
      syllabusId := None;
      uploadProgress := 0.0;
      notices := notices + [Closed];
    }
  }

  /**
   * Create a syllabus, then cancel at step 2: the dialog is back at step 1
   * yet still holds the id of the syllabus it created.
   */
  method CancelAfterCreateKeepsId() returns (leftover: Option<string>)
    ensures leftover == Some("s1")
  {
    var w := new CreateSyllabusWizard();
    var name := "Physics";
    assert !IsWhitespace(name[0]);
    w.SetSyllabusName(name);
    var _ := w.HandleNext(Ok("s1"));
    assert w.syllabusId == Some("s1");
    w.HandleReset();
    leftover := w.syllabusId;
  }

  /** The same sequence with the intended reset leaves no id behind. */
  method CancelAfterCreateWithFullReset() returns (leftover: Option<string>)
    ensures leftover == None
  {
    var w := new CreateSyllabusWizard();
    w.SetSyllabusName("Physics");
    var _ := w.HandleNext(Ok("s1"));
    w.ResetToInitial();
    leftover := w.syllabusId;
  }
}
