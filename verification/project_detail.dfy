/**
 * The mock project page (src/pages/ProjectDetail.tsx): a fixed list of three
 * chapters, an expanded set toggled by clicks, and the lookup of the selected
 * lesson across all chapters, with the chapter badge shown above it.
 */
module ProjectDetail {
  import opened Wrappers
  import opened ExpandedSet

  datatype MockSubchapter = MockSubchapter(
    id: string, title: string, orderIndex: int, isCompleted: bool, contentGenerated: bool)

  datatype MockChapter = MockChapter(
    id: string, title: string, orderIndex: int, isGenerated: bool, completionPercentage: int,
    subchapters: seq<MockSubchapter>)

  /** The page's fixed chapters (descriptions omitted). */
  function MockChapters(): seq<MockChapter> {
    [ MockChapter("ch1", "Introduction to Psychology", 1, true, 75, [
        MockSubchapter("sub1", "What is Psychology?", 1, true, true),
        MockSubchapter("sub2", "History of Psychology", 2, true, true),
        MockSubchapter("sub3", "Research Methods", 3, false, true)]),
      MockChapter("ch2", "Biological Psychology", 2, true, 33, [
        MockSubchapter("sub4", "The Nervous System", 1, true, true),
        MockSubchapter("sub5", "Brain Structure", 2, false, true),
        MockSubchapter("sub6", "Neurotransmitters", 3, false, false)]),
      MockChapter("ch3", "Learning and Memory", 3, false, 0, []) ]
  }

  /** `subs.find(sub => sub.id === id)`. */
  function FindSubchapter(subs: seq<MockSubchapter>, id: string): (r: Option<MockSubchapter>)
    ensures r.Some? ==> r.value.id == id && exists j :: 0 <= j < |subs| && subs[j] == r.value
    ensures r.Some? ==> exists j :: 0 <= j < |subs| && subs[j] == r.value && forall i :: 0 <= i < j ==> subs[i].id != id
    ensures r.None? <==> forall j :: 0 <= j < |subs| ==> subs[j].id != id
  {
    if subs == [] then None
    else if subs[0].id == id then Some(subs[0])
    else
      var rest := FindSubchapter(subs[1..], id);
      if rest.Some? then
        var j :| 0 <= j < |subs[1..]| && subs[1..][j] == rest.value && forall i :: 0 <= i < j ==> subs[1..][i].id != id;
        assert subs[j + 1] == rest.value && forall i :: 0 <= i < j + 1 ==> subs[i].id != id;
        rest
      else rest
  }

  /** `c.subchapters.some(s => s.id === id)`. */
  predicate HoldsSubchapter(c: MockChapter, id: string) {
    exists j :: 0 <= j < |c.subchapters| && c.subchapters[j].id == id
  }

  /** The lesson the page shows: the first match, scanning the chapters in order. */
  function FirstSubchapterWithId(chapters: seq<MockChapter>, id: string): Option<MockSubchapter> {
    if chapters == [] then None
    else
      var here := FindSubchapter(chapters[0].subchapters, id);
      if here.Some? then here else FirstSubchapterWithId(chapters[1..], id)
  }

  /** `chapters.find(c => c.subchapters.some(s => s.id === id))`, as an index. */
  function BadgeChapterIndex(chapters: seq<MockChapter>, id: string): (r: Option<nat>)
    ensures r.Some? ==> r.value < |chapters| && HoldsSubchapter(chapters[r.value], id)
    ensures r.Some? ==> forall j :: 0 <= j < r.value ==> !HoldsSubchapter(chapters[j], id)
    ensures r.None? ==> forall j :: 0 <= j < |chapters| ==> !HoldsSubchapter(chapters[j], id)
  {
    if chapters == [] then None
    else if HoldsSubchapter(chapters[0], id) then Some(0)
    else match BadgeChapterIndex(chapters[1..], id)
      case Some(k) => Some(k + 1)
      case None => None
  }

  /**
   * The lesson shown and the badge above it agree: a lesson is shown exactly
   * when a badge is, the lesson has the selected id, and it is the first
   * match inside the chapter the badge names.
   */
  lemma {:induction false} BadgeMatchesCurrentSubchapter(chapters: seq<MockChapter>, id: string)
    ensures FirstSubchapterWithId(chapters, id).Some? <==> BadgeChapterIndex(chapters, id).Some?
    ensures FirstSubchapterWithId(chapters, id).Some? ==>
      FirstSubchapterWithId(chapters, id).value.id == id
      && FirstSubchapterWithId(chapters, id)
         == FindSubchapter(chapters[BadgeChapterIndex(chapters, id).value].subchapters, id)
    decreases |chapters|
  {
    if chapters != [] {
      var here := FindSubchapter(chapters[0].subchapters, id);
      if here.None? {
        assert !HoldsSubchapter(chapters[0], id);
        BadgeMatchesCurrentSubchapter(chapters[1..], id);
      } else {
        var j :| 0 <= j < |chapters[0].subchapters| && chapters[0].subchapters[j] == here.value;
        assert HoldsSubchapter(chapters[0], id);
      }
    }
  }

  /** The page's state slots; the chapters are a constant of the page. */
  class ProjectDetailPage {
    const chapters: seq<MockChapter>
    var selectedChapterId: string
    var selectedSubchapterId: string
    var expandedChapters: set<string>

    constructor ()
      ensures chapters == MockChapters()
      ensures selectedChapterId == "ch1" && selectedSubchapterId == "sub1" && expandedChapters == {"ch1"}
    {
      chapters := MockChapters();
      selectedChapterId := "ch1";
      selectedSubchapterId := "sub1";
      expandedChapters := {"ch1"};
    }

    /** `toggleChapter`: flip the chapter's membership in the expanded set. */
    method ToggleChapter(chapterId: string)
      modifies this
      ensures expandedChapters == Toggled(old(expandedChapters), chapterId)
      ensures selectedChapterId == old(selectedChapterId) && selectedSubchapterId == old(selectedSubchapterId)
    {
      var newExpanded := expandedChapters;
      if chapterId in newExpanded {
        newExpanded := newExpanded - {chapterId};
      } else {
        newExpanded := newExpanded + {chapterId};
      }
      expandedChapters := newExpanded;
    }

    /** Clicking a lesson in the sidebar. */
    method SelectSubchapter(subchapterId: string)
      modifies this
      ensures selectedSubchapterId == subchapterId
      ensures selectedChapterId == old(selectedChapterId) && expandedChapters == old(expandedChapters)
    {
      selectedSubchapterId := subchapterId;
    }

    /** `getCurrentSubchapter`: scan the chapters in order and return the first lesson with the selected id. */
    method GetCurrentSubchapter() returns (r: Option<MockSubchapter>)
      ensures r == FirstSubchapterWithId(chapters, selectedSubchapterId)
    {
      var id := selectedSubchapterId;
      var i := 0;
      while i < |chapters|
        invariant 0 <= i <= |chapters|
        invariant FirstSubchapterWithId(chapters[i..], id) == FirstSubchapterWithId(chapters, id)
      {
        var found := FindSubchapter(chapters[i].subchapters, id);
        if found.Some? {
          return found;
        }
        assert chapters[i..][1..] == chapters[i + 1..];
        i := i + 1;
      }
      return None;
    }

    /** The order index the chapter badge shows, if any chapter holds the selected lesson. */
    function Badge(): (r: Option<int>)
      reads this
      ensures r.Some? <==> FirstSubchapterWithId(chapters, selectedSubchapterId).Some?
      ensures r.Some? ==>
        exists i :: 0 <= i < |chapters| && chapters[i].orderIndex == r.value
          && HoldsSubchapter(chapters[i], selectedSubchapterId)
          && forall j :: 0 <= j < i ==> !HoldsSubchapter(chapters[j], selectedSubchapterId)
    {
      BadgeMatchesCurrentSubchapter(chapters, selectedSubchapterId);
      match BadgeChapterIndex(chapters, selectedSubchapterId)
      case Some(i) => Some(chapters[i].orderIndex)
      case None => None
    }
  }

  /** On first render the page shows "What is Psychology?" under the badge of chapter 1. */
  lemma InitialSelectionShowsFirstLesson()
    ensures FirstSubchapterWithId(MockChapters(), "sub1") == Some(MockSubchapter("sub1", "What is Psychology?", 1, true, true))
    ensures BadgeChapterIndex(MockChapters(), "sub1") == Some(0) && MockChapters()[0].orderIndex == 1
  {
    var chs := MockChapters();
    assert chs[0].subchapters[0].id == "sub1";
    assert HoldsSubchapter(chs[0], "sub1");
  }
}
