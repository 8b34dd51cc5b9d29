# Aula front end — a Dafny model of its page logic

Aula is a study platform. A learner creates a *syllabus* (a course),
uploads reference documents to it, lets the backend generate *chapters* and
*subchapters* (lessons), and then watches an AI-generated explainer video for
each lesson while ticking lessons off as complete. This project models the
logic of the React front end that drives this:

- the REST client (`src/lib/api.ts`): URLs, query-string defaults, the fetch
  configuration and the error messages a non-ok response becomes;
- the data hooks (`src/hooks/useApi.ts`): cached lists and records, their
  `loading`/`error` flags, `markComplete`, and the video-status poller;
- the syllabus page (`src/pages/SyllabusDetail.tsx`): chapter sidebar,
  lazily fetched lessons, overall progress, the auto-generation trigger and
  the polling gate;
- the media player (`src/components/VideoPlayer.tsx`): which view a video
  status selects, the `m:ss` clock and the playback flags;
- the two creation dialogs (`src/components/CreateSyllabusModal.tsx`,
  `src/components/CreateProjectModal.tsx`);
- the mock project page (`src/pages/ProjectDetail.tsx`).

Components and hooks whose state changes step by step are classes whose
fields are the `useState` slots; each handler is a method that states the
new value of every slot. An awaited API call is a parameter of the handler
holding what it resolved to (`Ok`) or what it threw (`Err`), so each handler
is proved for every outcome. Callbacks the dialogs invoke are recorded as a
sequence of notices. Pure helpers are functions with lemmas.

Files: `wrappers.dfy` (Option, Result), `text.dfy` (trim, decimal digits),
`expanded_set.dfy` (the expanded-chapter set), `api.dfy`, `api_hooks.dfy`,
`video_player.dfy`, `syllabus_detail.dfy`, `create_syllabus_modal.dfy`,
`create_project_modal.dfy`, `project_detail.dfy`.

Where the code and its own declarations disagree, the model follows the code
and records the disagreement under "## Findings". Three more places where
the code is not what its surroundings suggest:

- the syllabus name field calls `setProjectName`, which is not defined in
  the dialog (src/components/CreateSyllabusModal.tsx:156); the model uses the
  setter it evidently means (`SetSyllabusName`);
- the hook the syllabus page imports as `useSyllabus` is not defined in
  `src/hooks/useApi.ts`; the page's chapter effect takes "the syllabus has
  loaded" as a parameter;
- the hooks call course endpoints (`getCourses`, `createCourse`,
  `getCourseDocuments`, …) that `ApiClient` does not define; the hooks are
  modelled on their outcomes, whatever endpoint serves them.

## Model

| member | source | states |
|---|---|---|
| Text.TrimStart | src/components/CreateSyllabusModal.tsx:30 | the result is a suffix of the input and what it drops is blank; it starts with a non-space unless empty |
| Text.TrimEnd | src/components/CreateSyllabusModal.tsx:30 | the result is a prefix of the input and what it drops is blank; it ends with a non-space unless empty |
| Text.TrimEmptyIffBlank | src/components/CreateSyllabusModal.tsx:30 | `name.trim()` is falsy exactly when the name is all whitespace, which is what every "non-blank name" guard tests |
| Text.NatToString | src/lib/api.ts:147 | the decimal rendering of a status code or count is non-empty, all digits, with no leading zero |
| Text.NatToStringRoundTrip | src/lib/api.ts:147 | reading the digits back gives the number |
| Text.DigitRun | src/lib/api.ts:147 | the length of the longest prefix made of digits |
| Text.DigitRunOfDigitsThen | src/lib/api.ts:147 | a rendered number followed by a non-digit is exactly the digit run |
| Text.PadTwoBelowHundred | src/components/VideoPlayer.tsx:125 | `padStart(2, '0')` of a number below 100 is two digits whose value is the number |
| ExpandedSet.Toggled | src/pages/SyllabusDetail.tsx:138-153 | the clicked chapter's membership flips and every other chapter keeps its own |
| ExpandedSet.ToggleTwiceRestores | src/pages/ProjectDetail.tsx:104-112 | clicking the same chapter twice restores the expanded set |
| Api.BuildConfig | src/lib/api.ts:135-141 | method and body pass through; the JSON content type is the header set only when the caller passes no headers, otherwise the caller's headers replace it whole |
| Api.CallerHeadersDropContentType | src/lib/api.ts:135-141 | a request with any caller header (here an Authorization header) is sent with no Content-Type |
| Api.MergedConfigKeepsContentType | src/lib/api.ts:136-139 | the intended merge always has a content type, keeps every caller header, lets the caller override the default, and equals the as-written configuration when no headers are passed |
| Api.ErrorMessageRoundTrip | src/lib/api.ts:145-148 | the message `<prefix> <status>: <body>` can be read back into exactly the status and the response text |
| Api.ApiAndUploadErrorsDiffer | src/lib/api.ts:213-216 | an API error message and an upload error message are never equal |
| Api.CompleteRequest | src/lib/api.ts:143-150 | a request resolves exactly when the response is ok and its body parses as JSON, to that body; an ok response whose body does not parse (an empty reply to a DELETE, say) rejects with the parser's error message; any other response throws an Error whose message carries the status and text under "API Error" |
| Api.CompleteUpload | src/lib/api.ts:208-218 | as `CompleteRequest`, including the rejection of an ok body that is not JSON (218), but the message of a failed response carries the "Upload Error" prefix |
| Api.EndpointDefaults | src/lib/api.ts:161-163 | omitted arguments default to skip 0 / limit 20 for syllabi, skip 0 / limit 10 for a syllabus's documents (221-223) and auto_generate_videos=true for opening a chapter (194-201) |
| Api.ApiClient.constructor | src/lib/api.ts:126-128 | the client keeps the base URL it is given |
| Api.MediaUrlRoundTrip | src/lib/api.ts:287-293 | each media URL is the base URL plus its endpoint and reads back to the lesson id and the media kind |
| Api.MediaUrlsDistinct | src/lib/api.ts:287-293 | distinct lessons get distinct video and audio URLs, and no video URL is an audio URL |
| Api.UploadUrlNamesSyllabus | src/lib/api.ts:205-211 | `uploadDocument` posts to the request URL of the syllabus's documents path, which the documents listing (221-222) extends with its query; distinct syllabi get distinct upload URLs |
| ApiHooks.WithoutId | src/hooks/useApi.ts:54 | the filter keeps exactly the items whose id differs from the deleted one, and no more items than it had |
| ApiHooks.WithoutIdDistributes | src/hooks/useApi.ts:361 | filtering a concatenation filters each part, so the order of the kept items is preserved |
| ApiHooks.WithoutIdAbsent | src/hooks/useApi.ts:361 | deleting an id no item carries leaves the list unchanged |
| ApiHooks.WithoutIdIdempotent | src/hooks/useApi.ts:54 | deleting the same id twice is deleting it once |
| ApiHooks.CoursesHook.constructor | src/hooks/useApi.ts:7-9 | empty list, loading, no error |
| ApiHooks.CoursesHook.FetchCourses | src/hooks/useApi.ts:12-29 | success replaces the list and clears the error; failure keeps the list and stores the thrown message or the fallback; loading ends false either way |
| ApiHooks.CoursesHook.CreateCourse | src/hooks/useApi.ts:35-49 | a created course is put first; a failure is rethrown and changes nothing |
| ApiHooks.CoursesHook.DeleteCourse | src/hooks/useApi.ts:51-68 | a successful delete removes every course with that id; a failure is rethrown and changes nothing |
| ApiHooks.DocumentsHook.constructor | src/hooks/useApi.ts:308-310 | keeps the course id; no documents, loading, no error |
| ApiHooks.DocumentsHook.FetchDocuments | src/hooks/useApi.ts:313-332 | with an empty id nothing is issued or changed (loading stays as it was); otherwise as `FetchCourses` |
| ApiHooks.DocumentsHook.UploadDocument | src/hooks/useApi.ts:338-356 | an uploaded document is put first; a failure is rethrown and changes nothing |
| ApiHooks.DocumentsHook.DeleteDocument | src/hooks/useApi.ts:358-375 | a successful delete removes every document with that id; a failure changes nothing |
| ApiHooks.RecordHook.constructor | src/hooks/useApi.ts:81-83 | keeps the id and the fallback message; no record, loading, no error (also 184-186 for `useSubchapter`) |
| ApiHooks.RecordHook.Fetch | src/hooks/useApi.ts:87-106 | the fetch of `useCourse`, `useChapter` (127-146) and `useSubchapter` (189-208): no id, no request; success stores the record and clears the error; failure keeps the record and stores the message |
| ApiHooks.MarkCompleteLeavesRecord | src/hooks/useApi.ts:217 | as written, marking complete adds a `completion_status` key and leaves the lesson's `is_completed` at its old value |
| ApiHooks.WithIsCompletedSetsFlag | src/hooks/useApi.ts:214-217 | the intended update sets `is_completed` to the argument and changes no other field; a missing lesson stays missing |
| ApiHooks.MarkComplete | src/hooks/useApi.ts:214-232 | after a successful call the cached lesson is updated as written; a failure is rethrown and changes nothing |
| ApiHooks.VideoStatusPoller.constructor | src/hooks/useApi.ts:264-267 | keeps the chapter id and the enabled flag; no status, not loading, no error |
| ApiHooks.VideoStatusPoller.FetchStatus | src/hooks/useApi.ts:269-284 | issues a request exactly when there is a chapter id and polling is enabled; success replaces the status, failure keeps the last status and records the message |
| ApiHooks.VideoStatusPoller.RunEffect | src/hooks/useApi.ts:286-296 | when disabled the status is cleared and nothing else changes; otherwise one fetch runs at once, which when allowed stores the status and clears the error, or keeps the last status and records the failure's message or "Failed to fetch video status", and ends loading |
| ApiHooks.VideoStatusPoller.Rerender | src/hooks/useApi.ts:264-296 | the effect runs again only when the chapter id or the enabled flag changed, and then polls exactly when allowed; the poll it issues leaves the status, error and loading slots as `FetchStatus` states, and a run that issues nothing keeps loading and error (and the status too while enabled) |
| VideoPlayer.ClassifyView | src/components/VideoPlayer.tsx:129-200 | the generating view exactly for the three in-progress statuses, each with its own stage message (137-139), the bar only with progress above 0; failed view exactly for FAILED (retry button only with `onRetry`); the player exactly for COMPLETED with a file, the video element when there is a video file; otherwise "No Video Available" |
| VideoPlayer.TypedStatusNeverPlays | src/components/VideoPlayer.tsx:129-182 | every status spelled as the record type declares it (src/lib/api.ts:40) selects "No Video Available" |
| VideoPlayer.CanonicalViewHonoursTypedStatus | src/components/VideoPlayer.tsx:129-200 | the intended classification treats both spellings alike, so a completed lesson with a video file plays |
| VideoPlayer.FormatTimeRoundTrip | src/components/VideoPlayer.tsx:122-126 | the clock ends in a colon and two digits below 60, and reads back to the number of seconds |
| VideoPlayer.PlayerState.constructor | src/components/VideoPlayer.tsx:25-29 | not playing, no error; the first run of the listener effect (57-85) attaches the `ended` and `error` listeners exactly when a media element is mounted |
| VideoPlayer.PlayerState.OnMediaPathsChanged | src/components/VideoPlayer.tsx:57-85 | the effect re-runs on new media paths and the listeners sit on the element then mounted, none while an error shows; playback and error are untouched |
| VideoPlayer.PlayerState.TogglePlayPause | src/components/VideoPlayer.tsx:87-109 | without an element nothing happens; `isPlaying` flips only when play/pause succeeded; a failure raises the playback toast and leaves it |
| VideoPlayer.PlayerState.OnEnded | src/components/VideoPlayer.tsx:48-50 | playback stops exactly when the `ended` listener is attached (58, 65); otherwise nothing changes |
| VideoPlayer.PlayerState.OnMediaError | src/components/VideoPlayer.tsx:52-67 | one `error` event of the element: its `onError` prop (222, 245 for audio) shows the video or audio load message; when the effect's listener is attached (60, 67) it runs next, shows the media error message and stops playback, otherwise playback is untouched; the error panel then replaces the element and its listeners |
| VideoPlayer.PlayerState.TryAgain | src/components/VideoPlayer.tsx:204-211 | the error is cleared and the element remounts, but the listeners stay detached because the effect's dependencies (85) did not change |
| VideoPlayer.PlayerState.TryAgainReattaching | src/components/VideoPlayer.tsx:204-211 | corrected "Try Again": the error is cleared and the listeners are attached to the remounted element |
| VideoPlayer.EndedAfterTryAgainKeepsPlaying | src/components/VideoPlayer.tsx:57-85 | load error, Try Again, play, end of video: the player still shows as playing |
| VideoPlayer.EndedAfterReattachingStops | src/components/VideoPlayer.tsx:57-85 | the same sequence with the corrected Try Again stops playback |
| SyllabusDetail.NeedsVideoGenerationOnTypedStatus | src/pages/SyllabusDetail.tsx:67-72 | on the declared spellings, generation is triggered exactly for a failed lesson without a video file |
| SyllabusDetail.NeedsVideoGenerationOnUpperStatus | src/pages/SyllabusDetail.tsx:67-72 | on the upper-case spellings the sidebar compares against (390-401), every lesson without a video file triggers generation, even a queued one |
| SyllabusDetail.CompletedCount | src/pages/SyllabusDetail.tsx:203 | at most the number of lessons; 0 exactly when none is completed; all exactly when all are |
| SyllabusDetail.RoundedPercent | src/pages/SyllabusDetail.tsx:204 | the percentage of completed lessons rounded to the nearest integer, halves up, and at most 100 |
| SyllabusDetail.RoundedPercentExtremes | src/pages/SyllabusDetail.tsx:204 | all completed rounds to 100, none to 0 |
| SyllabusDetail.OverallProgress | src/pages/SyllabusDetail.tsx:197-205 | 0 without lessons, otherwise the rounded share of completed lessons across all chapters; never above 100 |
| SyllabusDetail.OverallProgressExtremes | src/pages/SyllabusDetail.tsx:197-205 | every lesson completed shows 100; none completed shows 0 |
| SyllabusDetail.MergeSubchapters | src/pages/SyllabusDetail.tsx:118-122 | same length; chapters with the id get the fetched lessons and nothing else changes; other chapters are untouched |
| SyllabusDetail.MergeIdempotent | src/pages/SyllabusDetail.tsx:118-122 | merging the same details twice is merging them once |
| SyllabusDetail.FirstWithId | src/pages/SyllabusDetail.tsx:147 | the index of the first chapter with the id, or none if no chapter has it |
| SyllabusDetail.CurrentChapterIndex | src/pages/SyllabusDetail.tsx:212-214 | the first chapter whose loaded lessons include the selected one, or none |
| SyllabusDetail.PollingGateAgrees | src/pages/SyllabusDetail.tsx:48-52 | the page's arguments pass the hook's guard (src/hooks/useApi.ts:270) exactly when generation started for a selected chapter, and then the hook polls that chapter |
| SyllabusDetail.SelectionAfterDetails | src/pages/SyllabusDetail.tsx:124-127 | the selection changes only when nothing was selected and the fetched chapter has lessons, and then to its first lesson |
| SyllabusDetail.AutoSelectFirstLesson | src/pages/SyllabusDetail.tsx:113-127 | with nothing selected, fetching a listed chapter whose details have lessons selects its first lesson, and the current chapter is that chapter or an earlier one holding the same lesson id |
| SyllabusDetail.SyllabusDetailPage.constructor | src/pages/SyllabusDetail.tsx:20-24 | no chapters, nothing selected or expanded, generation not started |
| SyllabusDetail.SyllabusDetailPage.LoadChapters | src/pages/SyllabusDetail.tsx:31-45 | chapters are replaced only after the syllabus has loaded and the call succeeded; a failure is only logged |
| SyllabusDetail.SyllabusDetailPage.HandleChaptersGenerated | src/pages/SyllabusDetail.tsx:100-111 | the list is stored; a non-empty list expands and selects exactly its first chapter and asks for its details |
| SyllabusDetail.SyllabusDetailPage.FetchChapterDetails | src/pages/SyllabusDetail.tsx:113-135 | success merges the lessons and may auto-select the first; failure raises the error toast and changes nothing |
| SyllabusDetail.SyllabusDetailPage.HandleChapterClick | src/pages/SyllabusDetail.tsx:137-154 | the chapter's expansion flips; details are fetched exactly when expanding a known chapter whose lessons were never loaded |
| SyllabusDetail.SyllabusDetailPage.HandleOpenChapter | src/pages/SyllabusDetail.tsx:156-175 | a successful open starts generation tracking and selects the chapter; a failure changes nothing |
| SyllabusDetail.SyllabusDetailPage.SelectSubchapter | src/pages/SyllabusDetail.tsx:374 | the clicked lesson becomes selected and nothing else changes |
| SyllabusDetail.SyllabusDetailPage.PollingArguments | src/pages/SyllabusDetail.tsx:48-52 | polling is enabled exactly when generation started and a chapter is selected, and then with that chapter's id, which the hook accepts |
| SyllabusDetail.SyllabusDetailPage.CurrentChapter | src/pages/SyllabusDetail.tsx:212-214 | the first chapter of the page holding the selected lesson, and none exactly when no chapter holds it |
| CreateSyllabusModal.ProgressBounds | src/components/CreateSyllabusModal.tsx:80 | the progress after each upload is within 0..100, strictly grows with each file and is 100 after the last |
| CreateSyllabusModal.LeadingSuccesses | src/components/CreateSyllabusModal.tsx:78-81 | the number of uploads before the first failure: all before it succeeded, the one at it failed |
| CreateSyllabusModal.UploadInOrder | src/components/CreateSyllabusModal.tsx:78-81 | the loop attempts the files in order up to and including the first failure, reports whether one failed, and after the i-th success sets the progress to i/n·100, always within 0..100 |
| CreateSyllabusModal.CreateSyllabusWizard.constructor | src/components/CreateSyllabusModal.tsx:18-24 | step 1, empty name and files, no id, progress 0 |
| CreateSyllabusModal.CreateSyllabusWizard.SetSyllabusName | src/components/CreateSyllabusModal.tsx:156 | the name field updates the name only |
| CreateSyllabusModal.CreateSyllabusWizard.NextDisabled | src/components/CreateSyllabusModal.tsx:169 | "Next" is disabled exactly when the name is blank or a creation is in flight |
| CreateSyllabusModal.CreateSyllabusWizard.HandleNext | src/components/CreateSyllabusModal.tsx:29-67 | a request with the name and generated description is sent exactly from step 1 with a non-blank name; success stores the id and moves to step 2; failure stays; the in-flight flag is cleared either way |
| CreateSyllabusModal.CreateSyllabusWizard.Back | src/components/CreateSyllabusModal.tsx:244 | back to step 1, nothing else changes |
| CreateSyllabusModal.CreateSyllabusWizard.HandleCreate | src/components/CreateSyllabusModal.tsx:69-108 | without a truthy id (none or empty) nothing happens; otherwise files are uploaded in order up to and including the first failure, progress after the i-th success is i/n·100, the completion or error toast matches, the parent gets the id and name, the dialog resets and closes |
| CreateSyllabusModal.CreateSyllabusWizard.HandleFileUpload | src/components/CreateSyllabusModal.tsx:110-113 | the chosen files are appended |
| CreateSyllabusModal.CreateSyllabusWizard.HandleReset | src/components/CreateSyllabusModal.tsx:115-120 | step 1, empty name and files, then close; the id and progress are kept |
| CreateSyllabusModal.CreateSyllabusWizard.ResetToInitial | src/components/CreateSyllabusModal.tsx:115-120 | the intended reset: every slot back to its initial value, then close |
| CreateSyllabusModal.CancelAfterCreateKeepsId | src/components/CreateSyllabusModal.tsx:115-120 | create "Physics", then cancel at step 2: the dialog still holds id "s1" |
| CreateSyllabusModal.CancelAfterCreateWithFullReset | src/components/CreateSyllabusModal.tsx:102-106 | the same sequence with the full reset holds no id |
| CreateProjectModal.CreateProjectWizard.constructor | src/components/CreateProjectModal.tsx:15-17 | step 1, empty name and files |
| CreateProjectModal.CreateProjectWizard.SetProjectName | src/components/CreateProjectModal.tsx:80 | the name field updates the name only |
| CreateProjectModal.CreateProjectWizard.CreateDisabled | src/components/CreateProjectModal.tsx:93 | "Next" is disabled exactly when the name is blank |
| CreateProjectModal.CreateProjectWizard.HandleNext | src/components/CreateProjectModal.tsx:19-23 | step 2 exactly from step 1 with a non-blank name; nothing else changes |
| CreateProjectModal.CreateProjectWizard.HandleCreate | src/components/CreateProjectModal.tsx:25-32 | the parent gets the name, the dialog returns to its initial state, then closes |
| CreateProjectModal.CreateProjectWizard.HandleFileUpload | src/components/CreateProjectModal.tsx:34-37 | the chosen files are appended |
| CreateProjectModal.CreateProjectWizard.HandleReset | src/components/CreateProjectModal.tsx:39-44 | back to the initial state, then close |
| ProjectDetail.FindSubchapter | src/pages/ProjectDetail.tsx:116 | the first lesson of a chapter with the id, or none exactly when no lesson has it |
| ProjectDetail.BadgeChapterIndex | src/pages/ProjectDetail.tsx:229 | the first chapter holding the selected lesson, or none |
| ProjectDetail.BadgeMatchesCurrentSubchapter | src/pages/ProjectDetail.tsx:114-120 | a lesson is shown exactly when a badge is, it has the selected id, and it is the first match inside the chapter the badge (229) names |
| ProjectDetail.InitialSelectionShowsFirstLesson | src/pages/ProjectDetail.tsx:14-30 | on first render the page shows "What is Psychology?" under the badge of chapter 1 |
| ProjectDetail.ProjectDetailPage.constructor | src/pages/ProjectDetail.tsx:14-16 | ch1 and sub1 selected, ch1 expanded, the mock chapters |
| ProjectDetail.ProjectDetailPage.ToggleChapter | src/pages/ProjectDetail.tsx:104-112 | the expanded set is the old one with the chapter toggled; selection unchanged |
| ProjectDetail.ProjectDetailPage.SelectSubchapter | src/pages/ProjectDetail.tsx:195 | the clicked lesson becomes selected |
| ProjectDetail.ProjectDetailPage.GetCurrentSubchapter | src/pages/ProjectDetail.tsx:114-120 | the loop returns the first lesson with the selected id, scanning chapters in order |
| ProjectDetail.ProjectDetailPage.Badge | src/pages/ProjectDetail.tsx:229 | a badge shows exactly when a current lesson exists, with the order index of the first chapter holding it |

## Left out

- Network, JSON decoding and `fetch`: every awaited call is a parameter
  holding its outcome. A response body is kept as text together with
  whether it parses as JSON, and if not, the parser's error message.
- Toasts and `console` logging: only whether a toast is raised is recorded,
  where a handler's meaning depends on it.
- Timers: the 15-second `setInterval` of the poller and of the page's
  auto-generation effect are not modelled; one tick is one call of
  `FetchStatus`. The page's auto-generation effect itself (which calls
  `generateVideo`) is modelled only through its condition
  `NeedsVideoGeneration`.
- Concurrency between in-flight requests and React's batching of state
  updates: each handler runs to completion with the state it started with.
  `fetchChapterDetails` reads the `selectedSubchapterId` captured by its
  closure; the model reads the current slot.
- `generateVideo`, `openChapter` of `useChapter`, and the other
  `ApiClient` methods that forward to `request` with a fixed path
  (`getChapter`, `deleteSyllabus`, `searchSyllabus`, …): their URL is
  `RequestUrl` of that path and their outcome `CompleteRequest`. Their
  default arguments are not modelled: `searchSyllabus` sends
  `max_results` 10 unless told otherwise (src/lib/api.ts:309), and
  `generateChapters`, `generateSubchapterVideo` and `generateChapterVideos`
  send the empty options object by default (177, 238, 248).
- The page's syllabus fetch and the dialog's direct `fetch` to
  `VITE_API_BASE_URL`: the environment variable is not part of this model.
- SyllabusDetail.OverallProgress: rounds the exact ratio half up in
  integer arithmetic, while the page applies `Math.round` to a
  floating-point product whose error can fall below the half: 23 of 40
  lessons give 57.49999999999999 and 57 on the page but 58 in the model,
  and 29, 57 or 113 of 200 differ the same way. Upload progress is an
  exact `real`.
- VideoPlayer.FormatTimeRoundTrip: `formatTime` is modelled on whole
  non-negative seconds; fractional, negative and NaN times are not covered.
- Text.NatToString: JavaScript prints numbers from 1e21 upward in
  exponent notation; the model always prints plain digits.
- Text.TrimStart, Text.TrimEnd: whitespace is the ASCII controls `trim` strips plus
  no-break space, byte-order mark and the line/paragraph separators;
  JavaScript's `trim` also removes the other Unicode space separators.
- Volume, current time, duration, seeking, fullscreen, the transcript and
  quiz panels, `showFullContent`, navigation and all rendering other than the
  view choice, the sidebar badge and the progress figure.
- src/components/DrawingCanvas.tsx, DrawingToolbar.tsx, AITutorWidget.tsx,
  ChapterStructureGenerator.tsx and src/pages/Dashboard.tsx are not part of
  this model.
- Nothing on the syllabus page reads the status the poller stores; the
  model keeps it in the poller as the hook does.
- With an empty id the document and record hooks never clear `loading`;
  the model states exactly that (an unissued fetch changes nothing).

## Findings

| source | as written | input that shows it | evidently intended | confidence | as-written member | corrected member |
|---|---|---|---|---|---|---|
| src/hooks/useApi.ts:217 | `markComplete` spreads `completion_status: completed` into the cached lesson | any cached lesson with `is_completed` false, then `markComplete(true)`: `is_completed` stays false | set `is_completed`, the field the record type declares and the page reads | high (not executed) | ApiHooks.MarkCompleteLeavesRecord | ApiHooks.WithIsCompletedSetsFlag |
| src/components/VideoPlayer.tsx:129-182 | the player compares `videoStatus` with `QUEUED`, `COMPLETED`, … while the record type declares lower-case values (src/lib/api.ts:40) | a lesson with `video_status` `completed` and a video file: "No Video Available" | compare on the status whichever way it is spelled | medium (not executed) | VideoPlayer.TypedStatusNeverPlays | VideoPlayer.CanonicalViewHonoursTypedStatus |
| src/lib/api.ts:135-141 | `...options` is spread after the merged `headers`, so the caller's `headers` replace it | `request(e, { headers: { Authorization: "Bearer t" } })` sends no Content-Type | keep the default content type under the caller's headers | medium (not executed) | Api.CallerHeadersDropContentType | Api.MergedConfigKeepsContentType |
| src/components/CreateSyllabusModal.tsx:115-120 | `handleReset` leaves `syllabusId` and `uploadProgress` as they were | name "Physics", Next succeeds with id "s1", then Cancel: the dialog still holds "s1" | reset every slot as `handleCreate` does (102-106) | low (not executed) | CreateSyllabusModal.CancelAfterCreateKeepsId | CreateSyllabusModal.CancelAfterCreateWithFullReset |
| src/components/VideoPlayer.tsx:57-85 | the `ended` and `error` listeners are attached by an effect that depends only on the media paths, and "Try Again" (208) remounts the element without re-running it | a video that fails to load, then Try Again, play, and the video ends: the player still shows as playing | attach the listeners whenever the element is mounted | medium (not executed) | VideoPlayer.EndedAfterTryAgainKeepsPlaying | VideoPlayer.EndedAfterReattachingStops |
