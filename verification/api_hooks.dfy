/**
 * The data hooks (src/hooks/useApi.ts). Each hook owns state slots that its
 * callbacks overwrite after an awaited API call: a cached list or record, a
 * `loading` flag and an `error` message. The awaited call is a parameter: the
 * value it resolved to, or what it threw. Toasts are not modelled.
 */
module ApiHooks {
  import opened Wrappers
  import opened Api

  /** A course as the hooks use it. */
  datatype Course = Course(id: string, name: string, description: string)

  function CourseId(c: Course): string { c.id }

  function DocumentId(d: Document): string { d.id }

  /** `items.filter(item => item.id !== id)`. */
  function WithoutId<T>(items: seq<T>, idOf: T -> string, id: string): (r: seq<T>)
    ensures |r| <= |items|
    ensures forall i :: 0 <= i < |r| ==> idOf(r[i]) != id && r[i] in items
    ensures forall i :: 0 <= i < |items| && idOf(items[i]) != id ==> items[i] in r
  {
    if items == [] then []
    else if idOf(items[0]) == id then WithoutId(items[1..], idOf, id)
    else [items[0]] + WithoutId(items[1..], idOf, id)
  }

  /** The filter works piece by piece, so the items it keeps stay in their order. */
  lemma {:induction false} WithoutIdDistributes<T>(a: seq<T>, b: seq<T>, idOf: T -> string, id: string)
    ensures WithoutId(a + b, idOf, id) == WithoutId(a, idOf, id) + WithoutId(b, idOf, id)
    decreases |a|
  {
    if a == [] {
      assert a + b == b;
    } else {
      assert (a + b)[1..] == a[1..] + b;
      WithoutIdDistributes(a[1..], b, idOf, id);
    }
  }

  /** A list holding no item with the id is left exactly as it was. */
  lemma {:induction false} WithoutIdAbsent<T>(items: seq<T>, idOf: T -> string, id: string)
    requires forall i :: 0 <= i < |items| ==> idOf(items[i]) != id
    ensures WithoutId(items, idOf, id) == items
    decreases |items|
  {
    if items != [] {
      WithoutIdAbsent(items[1..], idOf, id);
    }
  }

  /** Deleting twice removes nothing more. */
  lemma WithoutIdIdempotent<T>(items: seq<T>, idOf: T -> string, id: string)
    ensures WithoutId(WithoutId(items, idOf, id), idOf, id) == WithoutId(items, idOf, id)
  {
    var r := WithoutId(items, idOf, id);
    WithoutIdAbsent(r, idOf, id);
  }

  /** `useCourses`: the course list and its flags. */
  class CoursesHook {
    var courses: seq<Course>
    var loading: bool
    var error: Option<string>

    constructor ()
      ensures courses == [] && loading && error == None
    {
      courses := [];
      loading := true;
      error := None;
    }

    /** `fetchCourses`: replace the list on success, record the message on failure, stop loading either way. */
    method FetchCourses(outcome: Result<seq<Course>, Failure>)
      modifies this
      ensures !loading
      ensures outcome.Ok? ==> courses == outcome.value && error == None
      ensures outcome.Err? ==>
        courses == old(courses) && error == Some(MessageOr(outcome.error, "Failed to fetch courses"))
    {
      loading := true;
      match outcome {
        case Ok(data) =>
          courses := data;
          error := None;
        case Err(e) =>
          error := Some(MessageOr(e, "Failed to fetch courses"));
      }
      loading := false;
    }

    /** `createCourse`: the new course goes first once created; a failure is rethrown and changes nothing. */
    method CreateCourse(outcome: Result<Course, Failure>) returns (r: Result<Course, Failure>)
      modifies this
      ensures r == outcome
      ensures courses == if outcome.Ok? then [outcome.value] + old(courses) else old(courses)
      ensures loading == old(loading) && error == old(error)
    {
      if outcome.Ok? {
        courses := [outcome.value] + courses;
      }
      r := outcome;
    }

    /** `deleteCourse`: drop every course with the id once the deletion succeeded. */
    method DeleteCourse(courseId: string, outcome: Result<(), Failure>) returns (r: Result<(), Failure>)
      modifies this
      ensures r == outcome
      ensures courses == if outcome.Ok? then WithoutId(old(courses), CourseId, courseId) else old(courses)
      ensures loading == old(loading) && error == old(error)
    {
      if outcome.Ok? {
        courses := WithoutId(courses, CourseId, courseId);
      }
      r := outcome;
    }
  }

  /** `useDocuments(courseId)`: the document list of one syllabus. */
  class DocumentsHook {
    const courseId: string
    var documents: seq<Document>
    var loading: bool
    var error: Option<string>

    constructor (courseId: string)
      ensures this.courseId == courseId && documents == [] && loading && error == None
    {
      this.courseId := courseId;
      documents := [];
      loading := true;
      error := None;
    }

    /** `fetchDocuments`: nothing at all without an id; otherwise as `fetchCourses`. */
    method FetchDocuments(outcome: Result<seq<Document>, Failure>) returns (issued: bool)
      modifies this
      ensures issued <==> courseId != ""
      ensures !issued ==> documents == old(documents) && loading == old(loading) && error == old(error)
      ensures issued ==> !loading
      ensures issued && outcome.Ok? ==> documents == outcome.value && error == None
      ensures issued && outcome.Err? ==>
        documents == old(documents) && error == Some(MessageOr(outcome.error, "Failed to fetch documents"))
    {
      issued := courseId != "";
      if !issued {
        return;
      }
      loading := true;
      match outcome {
        case Ok(data) =>
          documents := data;
          error := None;
        case Err(e) =>
          error := Some(MessageOr(e, "Failed to fetch documents"));
      }
      loading := false;
    }

    /** `uploadDocument`: the new document goes first once uploaded; a failure is rethrown. */
    method UploadDocument(file: File, outcome: Result<Document, Failure>) returns (r: Result<Document, Failure>)
      modifies this
      ensures r == outcome
      ensures documents == if outcome.Ok? then [outcome.value] + old(documents) else old(documents)
      ensures loading == old(loading) && error == old(error)
    {
      if outcome.Ok? {
        documents := [outcome.value] + documents;
      }
      r := outcome;
    }

    /** `deleteDocument`: drop every document with the id once the deletion succeeded. */
    method DeleteDocument(documentId: string, outcome: Result<(), Failure>) returns (r: Result<(), Failure>)
      modifies this
      ensures r == outcome
      ensures documents == if outcome.Ok? then WithoutId(old(documents), DocumentId, documentId) else old(documents)
      ensures loading == old(loading) && error == old(error)
    {
      if outcome.Ok? {
        documents := WithoutId(documents, DocumentId, documentId);
      }
      r := outcome;
    }
  }

  /** `useCourse`, `useChapter` and `useSubchapter`: one record fetched by id. */
  class RecordHook<T> {
    const recordId: string
    const fallback: string
    var data: Option<T>
    var loading: bool
    var error: Option<string>

    constructor (recordId: string, fallback: string)
      ensures this.recordId == recordId && this.fallback == fallback
      ensures data == None && loading && error == None
    {
      this.recordId := recordId;
      this.fallback := fallback;
      data := None;
      loading := true;
      error := None;
    }

    /** The fetch callback: nothing at all without an id; otherwise store or report, then stop loading. */
    method Fetch(outcome: Result<T, Failure>) returns (issued: bool)
      modifies this
      ensures issued <==> recordId != ""
      ensures !issued ==> data == old(data) && loading == old(loading) && error == old(error)
      ensures issued ==> !loading
      ensures issued && outcome.Ok? ==> data == Some(outcome.value) && error == None
      ensures issued && outcome.Err? ==> data == old(data) && error == Some(MessageOr(outcome.error, fallback))
    {
      issued := recordId != "";
      if !issued {
        return;
      }
      loading := true;
      match outcome {
        case Ok(v) =>
          data := Some(v);
          error := None;
        case Err(e) =>
          error := Some(MessageOr(e, fallback));
      }
      loading := false;
    }
  }

  /**
   * The cached lesson of `useSubchapter`: the record the backend sent plus the
   * `completion_status` key that `markComplete` spreads into it (absent until then).
   */
  datatype CachedSubchapter = CachedSubchapter(record: Subchapter, completionStatus: Option<bool>)

  /** `prev ? { ...prev, completion_status: completed } : null`. */
  function WithCompletionStatus(prev: Option<CachedSubchapter>, completed: bool): Option<CachedSubchapter> {
    match prev
    case None => None
    case Some(c) => Some(c.(completionStatus := Some(completed)))
  }

  /**
   * As written, marking a lesson complete never changes the lesson record: its
   * `is_completed`, which the checkbox and the completed badge read, keeps its
   * old value, and a missing lesson stays missing.
   */
  lemma MarkCompleteLeavesRecord(prev: Option<CachedSubchapter>, completed: bool)
    ensures prev.None? ==> WithCompletionStatus(prev, completed).None?
    ensures prev.Some? ==>
      var next := WithCompletionStatus(prev, completed);
      next.Some? && next.value.record == prev.value.record && next.value.completionStatus == Some(completed)
    ensures prev.Some? && prev.value.record.isCompleted != completed ==>
      WithCompletionStatus(prev, completed).value.record.isCompleted != completed
  {
  }

  /** The update `markComplete` evidently intends: set the record's `is_completed`. */
  function WithIsCompleted(prev: Option<CachedSubchapter>, completed: bool): Option<CachedSubchapter> {
    match prev
    case None => None
    case Some(c) => Some(c.(record := c.record.(isCompleted := completed)))
  }

  /** The corrected update sets `is_completed` to the argument and changes no other field. */
  lemma WithIsCompletedSetsFlag(prev: Option<CachedSubchapter>, completed: bool)
    ensures WithIsCompleted(prev, completed).Some? <==> prev.Some?
    ensures prev.Some? ==>
      var next := WithIsCompleted(prev, completed).value;
      next.record.isCompleted == completed
      && next.record.(isCompleted := prev.value.record.isCompleted) == prev.value.record
      && next.completionStatus == prev.value.completionStatus
  {
  }

  /** `markComplete`: after the call succeeds, spread `completion_status` into the cached lesson; rethrow a failure. */
  method MarkComplete(hook: RecordHook<CachedSubchapter>, completed: bool, outcome: Result<CompletionReply, Failure>)
    returns (r: Result<CompletionReply, Failure>)
    modifies hook
    ensures r == outcome
    ensures hook.data == if outcome.Ok? then WithCompletionStatus(old(hook.data), completed) else old(hook.data)
    ensures hook.loading == old(hook.loading) && hook.error == old(hook.error)
  {
    if outcome.Ok? {
      hook.data := WithCompletionStatus(hook.data, completed);
    }
    r := outcome;
  }

  /** The guard of `fetchStatus`: a chapter id and the enabled flag. */
  predicate PollAllowed(chapterId: string, enabled: bool) {
    chapterId != "" && enabled
  }

  /** `useVideoStatusPolling(chapterId, enabled)`: the last good status of a chapter's video jobs. */
  class VideoStatusPoller {
    var chapterId: string
    var enabled: bool
    var status: Option<ChapterVideoStatus>
    var loading: bool
    var error: Option<string>

    constructor (chapterId: string, enabled: bool)
      ensures this.chapterId == chapterId && this.enabled == enabled
      ensures status == None && !loading && error == None
    {
      this.chapterId := chapterId;
      this.enabled := enabled;
      status := None;
      loading := false;
      error := None;
    }

    /**
     * `fetchStatus`, run by the effect and by every timer tick: a no-op unless
     * allowed; a success replaces the status and clears the error; a failure
     * keeps the last good status and records the message.
     */
    method FetchStatus(outcome: Result<ChapterVideoStatus, Failure>) returns (issued: bool)
      modifies this
      ensures chapterId == old(chapterId) && enabled == old(enabled)
      ensures issued <==> PollAllowed(chapterId, enabled)
      ensures !issued ==> status == old(status) && loading == old(loading) && error == old(error)
      ensures issued ==> !loading
      ensures issued && outcome.Ok? ==> status == Some(outcome.value) && error == None
      ensures issued && outcome.Err? ==>
        status == old(status) && error == Some(MessageOr(outcome.error, "Failed to fetch video status"))
    {
      issued := PollAllowed(chapterId, enabled);
      if !issued {
        return;
      }
      loading := true;
      match outcome {
        case Ok(data) =>
          status := Some(data);
          error := None;
        case Err(e) =>
          error := Some(MessageOr(e, "Failed to fetch video status"));
      }
      loading := false;
    }

    /** The effect body: when disabled, forget the status and issue nothing; otherwise fetch at once. */
    method RunEffect(outcome: Result<ChapterVideoStatus, Failure>) returns (issued: bool)
      modifies this
      ensures chapterId == old(chapterId) && enabled == old(enabled)
      ensures !enabled ==> !issued && status == None && loading == old(loading) && error == old(error)
      ensures issued <==> PollAllowed(chapterId, enabled)
      ensures issued && outcome.Ok? ==> status == Some(outcome.value) && error == None && !loading
      ensures issued && outcome.Err? ==>
        status == old(status) && error == Some(MessageOr(outcome.error, "Failed to fetch video status")) && !loading
      ensures enabled && !issued ==> status == old(status) && loading == old(loading) && error == old(error)
    {
      if !enabled {
        status := None;
        issued := false;
        return;
      }
      issued := FetchStatus(outcome);
    }

    /** A re-render with new hook arguments: the effect runs again only when an argument changed. */
    method Rerender(newChapterId: string, newEnabled: bool, outcome: Result<ChapterVideoStatus, Failure>)
      returns (ranEffect: bool, issued: bool)
      modifies this
      ensures chapterId == newChapterId && enabled == newEnabled
      ensures ranEffect <==> newChapterId != old(chapterId) || newEnabled != old(enabled)
      ensures !ranEffect ==> !issued && status == old(status) && loading == old(loading) && error == old(error)
      ensures ranEffect && !newEnabled ==> status == None && !issued
      ensures issued <==> ranEffect && PollAllowed(newChapterId, newEnabled)
      ensures issued && outcome.Ok? ==> status == Some(outcome.value) && error == None && !loading
      ensures issued && outcome.Err? ==>
        status == old(status) && error == Some(MessageOr(outcome.error, "Failed to fetch video status")) && !loading
      ensures ranEffect && !issued ==> loading == old(loading) && error == old(error)
      ensures ranEffect && newEnabled && !issued ==> status == old(status)
    {
      ranEffect := newChapterId != chapterId || newEnabled != enabled;
      chapterId, enabled := newChapterId, newEnabled;
      issued := false;
      if ranEffect {
        issued := RunEffect(outcome);
      }
    }
  }
}
