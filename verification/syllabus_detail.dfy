/**
 * The syllabus page (src/pages/SyllabusDetail.tsx): the chapter sidebar with
 * its expanded set and lazily fetched subchapters, the selected chapter and
 * lesson, the rounded overall progress, the condition that auto-triggers video
 * generation, and the flag that enables status polling. Awaited API calls are
 * parameters holding the value they resolved to or what they threw.
 */
module SyllabusDetail {
  import opened Wrappers
  import opened Text
  import opened Api
  import opened ExpandedSet
  import ApiHooks
  import VideoPlayer

  /**
   * The auto-trigger condition: the lesson has no video file and its status is
   * none of the lower-case in-progress or finished states.
   */
  predicate NeedsVideoGeneration(sub: Subchapter) {
    !Truthy(sub.videoFilePath)
    && sub.videoStatus != "completed"
    && sub.videoStatus != "queued"
    && sub.videoStatus != "generating_script"
    && sub.videoStatus != "rendering_video"
  }

  /**
   * Over the statuses the record type declares, generation is re-triggered
   * exactly for a failed lesson without a video file.
   */
  lemma NeedsVideoGenerationOnTypedStatus(sub: Subchapter, s: VideoStatus)
    requires sub.videoStatus == TypedSpelling(s)
    ensures NeedsVideoGeneration(sub) <==> !Truthy(sub.videoFilePath) && s == Failed
  {
  }

  /**
   * Over the upper-case statuses the player and the sidebar compare against,
   * every lesson without a video file counts as needing generation, a queued
   * or rendering one included.
   */
  lemma NeedsVideoGenerationOnUpperStatus(sub: Subchapter, s: VideoStatus)
    requires sub.videoStatus == VideoPlayer.UpperSpelling(s)
    ensures NeedsVideoGeneration(sub) <==> !Truthy(sub.videoFilePath)
  {
    assert sub.videoStatus[0] != 'c' && sub.videoStatus[0] != 'q' && sub.videoStatus[0] != 'g' && sub.videoStatus[0] != 'r';
  }

  /** `chapters.flatMap(ch => ch.subchapters || [])`. */
  function AllSubchapters(chapters: seq<Chapter>): seq<Subchapter> {
    if chapters == [] then []
    else (if chapters[0].subchapters.Some? then chapters[0].subchapters.value else []) + AllSubchapters(chapters[1..])
  }

  /** The number of completed lessons. */
  function CompletedCount(subs: seq<Subchapter>): (c: nat)
    ensures c <= |subs|
    ensures c == 0 <==> forall i :: 0 <= i < |subs| ==> !subs[i].isCompleted
    ensures c == |subs| <==> forall i :: 0 <= i < |subs| ==> subs[i].isCompleted
  {
    if subs == [] then 0
    else (if subs[0].isCompleted then 1 else 0) + CompletedCount(subs[1..])
  }

  /** `a <= b` is kept by multiplying both sides with a non-negative factor. */
  lemma MulMonotone(d: nat, a: int, b: int)
    requires a <= b
    ensures d * a <= d * b
  {
    assert d * b - d * a == d * (b - a);
  }

  /** The quotient is the only multiple of `d` that lies at most `d - 1` below `n`. */
  lemma QuotientUnique(n: int, d: nat, q: int, k: int)
    requires d > 0
    requires d * q <= n < d * q + d
    requires d * k <= n < d * k + d
    ensures q == k
  {
    if q < k {
      MulMonotone(d, q + 1, k);
    } else if k < q {
      MulMonotone(d, k + 1, q);
    }
  }

  /** `Math.round(c / t * 100)` for `c` completed out of `t > 0`, on integers: the nearest percentage, halves up. */
  function RoundedPercent(c: nat, t: nat): (r: nat)
    requires 0 < t && c <= t
    ensures r <= 100
    ensures (2 * t) * r <= 200 * c + t < (2 * t) * r + 2 * t
  {
    var n, d := 200 * c + t, 2 * t;
    var q := n / d;
    assert d * q <= n < d * q + d;
    assert q <= 100 by {
      if q > 100 {
        MulMonotone(d, 101, q);
      }
    }
    q
  }

  /** Every lesson completed rounds to 100%, none completed to 0%. */
  lemma RoundedPercentExtremes(t: nat)
    requires t > 0
    ensures RoundedPercent(t, t) == 100
    ensures RoundedPercent(0, t) == 0
  {
    QuotientUnique(200 * t + t, 2 * t, RoundedPercent(t, t), 100);
    QuotientUnique(t, 2 * t, RoundedPercent(0, t), 0);
  }

  /**
   * `calculateOverallProgress`: 0 without chapters or without lessons,
   * otherwise the rounded percentage of completed lessons.
   */
  function OverallProgress(chapters: seq<Chapter>): (r: nat)
    ensures r <= 100
    ensures |AllSubchapters(chapters)| == 0 ==> r == 0
    ensures |AllSubchapters(chapters)| > 0 ==>
      r == RoundedPercent(CompletedCount(AllSubchapters(chapters)), |AllSubchapters(chapters)|)
  {
    if |chapters| == 0 then 0
    else
      var all := AllSubchapters(chapters);
      if |all| == 0 then 0 else RoundedPercent(CompletedCount(all), |all|)
  }

  /** All lessons completed shows 100%; none completed (or none at all) shows 0%. */
  lemma OverallProgressExtremes(chapters: seq<Chapter>)
    ensures var all := AllSubchapters(chapters);
      |all| > 0 && CompletedCount(all) == |all| ==> OverallProgress(chapters) == 100
    ensures CompletedCount(AllSubchapters(chapters)) == 0 ==> OverallProgress(chapters) == 0
  {
    var all := AllSubchapters(chapters);
    if |all| > 0 {
      RoundedPercentExtremes(|all|);
    }
  }

  /**
   * The merge of `fetchChapterDetails`: every chapter with the id gets the
   * fetched subchapters, everything else is left as it was.
   */
  function MergeSubchapters(chapters: seq<Chapter>, chapterId: string, subs: Option<seq<Subchapter>>): (r: seq<Chapter>)
    ensures |r| == |chapters|
    ensures forall i :: 0 <= i < |r| ==> r[i].(subchapters := chapters[i].subchapters) == chapters[i]
    ensures forall i :: 0 <= i < |r| && chapters[i].id == chapterId ==> r[i].subchapters == subs
    ensures forall i :: 0 <= i < |r| && chapters[i].id != chapterId ==> r[i] == chapters[i]
  {
    if chapters == [] then []
    else
      var head := if chapters[0].id == chapterId then chapters[0].(subchapters := subs) else chapters[0];
      var rest := MergeSubchapters(chapters[1..], chapterId, subs);
      assert forall i :: 1 <= i <= |rest| ==> ([head] + rest)[i] == rest[i - 1] && chapters[i] == chapters[1..][i - 1];
      [head] + rest
  }

  /** Merging the same details twice is merging them once. */
  lemma MergeIdempotent(chapters: seq<Chapter>, chapterId: string, subs: Option<seq<Subchapter>>)
    ensures MergeSubchapters(MergeSubchapters(chapters, chapterId, subs), chapterId, subs)
         == MergeSubchapters(chapters, chapterId, subs)
  {
    var once := MergeSubchapters(chapters, chapterId, subs);
    var twice := MergeSubchapters(once, chapterId, subs);
    forall i | 0 <= i < |once| ensures twice[i] == once[i] {
      assert once[i].id == chapters[i].id;
    }
  }

  /** `chapters.find(ch => ch.id === id)`, as the index of the first match. */
  function FirstWithId(chapters: seq<Chapter>, id: string): (r: Option<nat>)
    ensures r.Some? ==> r.value < |chapters| && chapters[r.value].id == id
    ensures r.Some? ==> forall j :: 0 <= j < r.value ==> chapters[j].id != id
    ensures r.None? ==> forall j :: 0 <= j < |chapters| ==> chapters[j].id != id
  {
    if chapters == [] then None
    else if chapters[0].id == id then Some(0)
    else match FirstWithId(chapters[1..], id)
      case Some(k) => Some(k + 1)
      case None => None
  }

  /** `ch.subchapters?.some(sub => sub.id === selected)`; no lesson id equals `null`. */
  predicate HasSubchapter(ch: Chapter, selected: Option<string>) {
    selected.Some? && ch.subchapters.Some?
    && exists j :: 0 <= j < |ch.subchapters.value| && ch.subchapters.value[j].id == selected.value
  }

  /** `getCurrentChapter`: the index of the first chapter holding the selected lesson. */
  function CurrentChapterIndex(chapters: seq<Chapter>, selected: Option<string>): (r: Option<nat>)
    ensures r.Some? ==> r.value < |chapters| && HasSubchapter(chapters[r.value], selected)
    ensures r.Some? ==> forall j :: 0 <= j < r.value ==> !HasSubchapter(chapters[j], selected)
    ensures r.None? ==> forall j :: 0 <= j < |chapters| ==> !HasSubchapter(chapters[j], selected)
  {
    if chapters == [] then None
    else if HasSubchapter(chapters[0], selected) then Some(0)
    else match CurrentChapterIndex(chapters[1..], selected)
      case Some(k) => Some(k + 1)
      case None => None
  }

  /** The id argument the page hands the polling hook: `selectedChapterId || ''`. */
  function PollingChapterId(selectedChapterId: Option<string>): string {
    if Truthy(selectedChapterId) then selectedChapterId.value else ""
  }

  /** The enabled argument: `videoGenerationStarted && !!selectedChapterId`. */
  predicate PollingEnabled(videoGenerationStarted: bool, selectedChapterId: Option<string>) {
    videoGenerationStarted && Truthy(selectedChapterId)
  }

  /**
   * The page only enables polling with a real chapter id, so the hook's own
   * guard lets every enabled poll through, and polls exactly when generation
   * has started for a selected chapter.
   */
  lemma PollingGateAgrees(videoGenerationStarted: bool, selectedChapterId: Option<string>)
    ensures ApiHooks.PollAllowed(PollingChapterId(selectedChapterId), PollingEnabled(videoGenerationStarted, selectedChapterId))
        <==> videoGenerationStarted && selectedChapterId.Some? && selectedChapterId.value != ""
    ensures PollingEnabled(videoGenerationStarted, selectedChapterId) ==>
      PollingChapterId(selectedChapterId) == selectedChapterId.value
  {
  }

  /** The chapters after `fetchChapterDetails` settles. */
  function ChaptersAfterDetails(chapters: seq<Chapter>, chapterId: string, outcome: Result<Chapter, Failure>): seq<Chapter> {
    if outcome.Ok? then MergeSubchapters(chapters, chapterId, outcome.value.subchapters) else chapters
  }

  /** The selected lesson after `fetchChapterDetails` settles. */
  function SelectionAfterDetails(selected: Option<string>, outcome: Result<Chapter, Failure>): (r: Option<string>)
    ensures r != selected ==>
      !Truthy(selected) && outcome.Ok? && outcome.value.subchapters.Some? && |outcome.value.subchapters.value| > 0
    ensures r != selected ==> r == Some(outcome.value.subchapters.value[0].id)
  {
    if !Truthy(selected) && outcome.Ok? && outcome.value.subchapters.Some? && |outcome.value.subchapters.value| > 0
    then Some(outcome.value.subchapters.value[0].id)
    else selected
  }

  /**
   * With nothing selected, fetching the details of a chapter the page lists
   * selects the fetched chapter's first lesson, and the current chapter is
   * then that chapter or an earlier one holding a lesson with the same id.
   */
  lemma AutoSelectFirstLesson(chapters: seq<Chapter>, chapterId: string, selected: Option<string>,
                              outcome: Result<Chapter, Failure>)
    requires !Truthy(selected) && outcome.Ok?
    requires outcome.value.subchapters.Some? && |outcome.value.subchapters.value| > 0
    requires FirstWithId(chapters, chapterId).Some?
    ensures SelectionAfterDetails(selected, outcome) == Some(outcome.value.subchapters.value[0].id)
    ensures var current := CurrentChapterIndex(ChaptersAfterDetails(chapters, chapterId, outcome),
                                               SelectionAfterDetails(selected, outcome));
      current.Some? && current.value <= FirstWithId(chapters, chapterId).value
  {
    var k := FirstWithId(chapters, chapterId).value;
    var merged := ChaptersAfterDetails(chapters, chapterId, outcome);
    assert merged[k].subchapters == outcome.value.subchapters;
    assert HasSubchapter(merged[k], SelectionAfterDetails(selected, outcome));
  }

  /** The page's state slots. */
  class SyllabusDetailPage {
    var chapters: seq<Chapter>
    var selectedChapterId: Option<string>
    var selectedSubchapterId: Option<string>
    var expandedChapters: set<string>
    var videoGenerationStarted: bool

    constructor ()
      ensures chapters == [] && selectedChapterId == None && selectedSubchapterId == None
      ensures expandedChapters == {} && !videoGenerationStarted
    {
      chapters := [];
      selectedChapterId := None;
      selectedSubchapterId := None;
      expandedChapters := {};
      videoGenerationStarted := false;
    }

    /** The chapter-loading effect: only once the syllabus is known; a failure is only logged. */
    method LoadChapters(syllabusLoaded: bool, outcome: Result<seq<Chapter>, Failure>) returns (issued: bool)
      modifies this
      ensures issued == syllabusLoaded
      ensures chapters == if issued && outcome.Ok? then outcome.value else old(chapters)
      ensures selectedChapterId == old(selectedChapterId) && selectedSubchapterId == old(selectedSubchapterId)
      ensures expandedChapters == old(expandedChapters) && videoGenerationStarted == old(videoGenerationStarted)
    {
      issued := syllabusLoaded;
      if issued && outcome.Ok? {
        chapters := outcome.value;
      }
    }

    /**
     * `handleChaptersGenerated`: store the list; a non-empty list expands and
     * selects exactly its first chapter and asks for that chapter's details.
     */
    method HandleChaptersGenerated(newChapters: seq<Chapter>) returns (detailsFor: Option<string>)
      modifies this
      ensures chapters == newChapters
      ensures |newChapters| > 0 ==>
        expandedChapters == {newChapters[0].id} && selectedChapterId == Some(newChapters[0].id)
        && detailsFor == Some(newChapters[0].id)
      ensures |newChapters| == 0 ==>
        expandedChapters == old(expandedChapters) && selectedChapterId == old(selectedChapterId) && detailsFor == None
      ensures selectedSubchapterId == old(selectedSubchapterId) && videoGenerationStarted == old(videoGenerationStarted)
    {
      chapters := newChapters;
      detailsFor := None;
      if |newChapters| > 0 {
        var first := newChapters[0];
        expandedChapters := {first.id};
        selectedChapterId := Some(first.id);
        detailsFor := Some(first.id);
      }
    }

    /** `fetchChapterDetails` once its request settles; a failure only shows the error toast. */
    method FetchChapterDetails(chapterId: string, outcome: Result<Chapter, Failure>) returns (errorToast: bool)
      modifies this
      ensures chapters == ChaptersAfterDetails(old(chapters), chapterId, outcome)
      ensures selectedSubchapterId == SelectionAfterDetails(old(selectedSubchapterId), outcome)
      ensures errorToast <==> outcome.Err?
      ensures selectedChapterId == old(selectedChapterId) && expandedChapters == old(expandedChapters)
      ensures videoGenerationStarted == old(videoGenerationStarted)
    {
      errorToast := outcome.Err?;
      match outcome {
        case Ok(details) =>
          chapters := MergeSubchapters(chapters, chapterId, details.subchapters);
          if !Truthy(selectedSubchapterId) && details.subchapters.Some? && |details.subchapters.value| > 0 {
            selectedSubchapterId := Some(details.subchapters.value[0].id);
          }
        case Err(_) =>
      }
    }

    /**
     * `handleChapterClick`: flip the chapter's membership in the expanded set;
     * on expanding a known chapter whose lessons were never fetched, await
     * the details first. Collapsing never fetches.
     */
    method HandleChapterClick(chapterId: string, outcome: Result<Chapter, Failure>) returns (fetched: bool)
      modifies this
      ensures expandedChapters == Toggled(old(expandedChapters), chapterId)
      ensures fetched <==>
        chapterId !in old(expandedChapters) && FirstWithId(old(chapters), chapterId).Some?
        && old(chapters)[FirstWithId(old(chapters), chapterId).value].subchapters.None?
      ensures fetched ==>
        chapters == ChaptersAfterDetails(old(chapters), chapterId, outcome)
        && selectedSubchapterId == SelectionAfterDetails(old(selectedSubchapterId), outcome)
      ensures !fetched ==> chapters == old(chapters) && selectedSubchapterId == old(selectedSubchapterId)
      ensures selectedChapterId == old(selectedChapterId) && videoGenerationStarted == old(videoGenerationStarted)
    {
      var wasExpanded := chapterId in expandedChapters;
      var newExpanded := expandedChapters;
      fetched := false;
      if wasExpanded {
        newExpanded := newExpanded - {chapterId};
      } else {
        newExpanded := newExpanded + {chapterId};
        var found := FirstWithId(chapters, chapterId);
        if found.Some? && chapters[found.value].subchapters.None? {
          fetched := true;
          var _ := FetchChapterDetails(chapterId, outcome);
        }
      }
      expandedChapters := newExpanded;
    }

    /** `handleOpenChapter`: once the open call succeeds, start tracking generation for that chapter. */
    method HandleOpenChapter(chapterId: string, outcome: Result<OpenChapterReply, Failure>)
      modifies this
      ensures outcome.Ok? ==> videoGenerationStarted && selectedChapterId == Some(chapterId)
      ensures outcome.Err? ==>
        videoGenerationStarted == old(videoGenerationStarted) && selectedChapterId == old(selectedChapterId)
      ensures chapters == old(chapters) && selectedSubchapterId == old(selectedSubchapterId)
      ensures expandedChapters == old(expandedChapters)
    {
      if outcome.Ok? {
        videoGenerationStarted := true;
        selectedChapterId := Some(chapterId);
      }
    }

    /** Clicking a lesson in the sidebar. */
    method SelectSubchapter(subchapterId: string)
      modifies this
      ensures selectedSubchapterId == Some(subchapterId)
      ensures chapters == old(chapters) && selectedChapterId == old(selectedChapterId)
      ensures expandedChapters == old(expandedChapters) && videoGenerationStarted == old(videoGenerationStarted)
    {
      selectedSubchapterId := Some(subchapterId);
    }

    /** The polling hook's arguments as the page computes them on each render. */
    function PollingArguments(): (r: (string, bool))
      reads this
      ensures r.1 <==> videoGenerationStarted && Truthy(selectedChapterId)
      ensures r.1 ==> r.0 == selectedChapterId.value && ApiHooks.PollAllowed(r.0, r.1)
    {
      (PollingChapterId(selectedChapterId), PollingEnabled(videoGenerationStarted, selectedChapterId))
    }

    /** The chapter whose order index the lesson header shows. */
    function CurrentChapter(): (r: Option<Chapter>)
      reads this
      ensures r.Some? ==> r.value in chapters && HasSubchapter(r.value, selectedSubchapterId)
      ensures r.Some? ==>
        exists i :: 0 <= i < |chapters| && r.value == chapters[i]
          && forall j :: 0 <= j < i ==> !HasSubchapter(chapters[j], selectedSubchapterId)
      ensures r.None? <==> forall j :: 0 <= j < |chapters| ==> !HasSubchapter(chapters[j], selectedSubchapterId)
    {
      match CurrentChapterIndex(chapters, selectedSubchapterId)
      case Some(i) => Some(chapters[i])
      case None => None
    }
  }
}
