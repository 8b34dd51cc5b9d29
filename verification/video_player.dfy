/**
 * The lesson media player (src/components/VideoPlayer.tsx): which of four
 * views a lesson's video status selects, the `m:ss` clock, and the playback
 * flags that handlers and media events update.
 */
module VideoPlayer {
  import opened Wrappers
  import opened Text
  import opened Api

  /** The three generation stages the "Generating Video Content" view distinguishes. */
  datatype GenerationStage = StageQueued | StageScript | StageRendering

  /** The element that plays a finished lesson. */
  datatype Media = VideoElement | AudioElement

  /** The view the player renders. */
  datatype View =
    | Generating(stage: GenerationStage, progressBar: bool)
    | GenerationFailed(retryButton: bool)
    | NoVideoAvailable
    | Player(media: Media)

  /**
   * The view selected by the props `videoStatus`, `videoProgress`,
   * `videoFilePath`, `audioFilePath` and whether `onRetry` was passed. The
   * status is compared with upper-case literals.
   */
  function ClassifyView(videoStatus: string, videoProgress: int, videoFilePath: Option<string>,
                        audioFilePath: Option<string>, hasRetry: bool): (v: View)
    ensures v.Generating? <==>
      videoStatus == "QUEUED" || videoStatus == "GENERATING_SCRIPT" || videoStatus == "RENDERING_VIDEO"
    ensures v.Generating? ==> (v.progressBar <==> videoProgress > 0)
    ensures v.Generating? ==> (v.stage == StageQueued <==> videoStatus == "QUEUED")
    ensures v.Generating? ==> (v.stage == StageScript <==> videoStatus == "GENERATING_SCRIPT")
    ensures v.Generating? ==> (v.stage == StageRendering <==> videoStatus == "RENDERING_VIDEO")
    ensures v.GenerationFailed? <==> videoStatus == "FAILED"
    ensures v.GenerationFailed? ==> (v.retryButton <==> hasRetry)
    ensures v.Player? <==> videoStatus == "COMPLETED" && (Truthy(videoFilePath) || Truthy(audioFilePath))
    ensures v.Player? ==> (v.media == VideoElement <==> Truthy(videoFilePath))
    ensures v.Player? && v.media == AudioElement ==> Truthy(audioFilePath) && !Truthy(videoFilePath)
  {
    if videoStatus == "QUEUED" then Generating(StageQueued, videoProgress > 0)
    else if videoStatus == "GENERATING_SCRIPT" then Generating(StageScript, videoProgress > 0)
    else if videoStatus == "RENDERING_VIDEO" then Generating(StageRendering, videoProgress > 0)
    else if videoStatus == "FAILED" then GenerationFailed(hasRetry)
    else if videoStatus != "COMPLETED" || (!Truthy(videoFilePath) && !Truthy(audioFilePath)) then NoVideoAvailable
    else Player(if Truthy(videoFilePath) then VideoElement else AudioElement)
  }

  /**
   * A status spelled as the `Subchapter` record type declares it never reaches
   * the generating, failed or playing view: every one of them, `completed`
   * with a video file included, shows "No Video Available".
   */
  lemma TypedStatusNeverPlays(s: VideoStatus, progress: int, videoFilePath: Option<string>,
                              audioFilePath: Option<string>, hasRetry: bool)
    ensures ClassifyView(TypedSpelling(s), progress, videoFilePath, audioFilePath, hasRetry) == NoVideoAvailable
  {
    var t := TypedSpelling(s);
    assert t[0] != 'Q' && t[0] != 'G' && t[0] != 'R' && t[0] != 'F' && t[0] != 'C';
  }

  /** The upper-case spelling the player's comparisons expect. */
  function UpperSpelling(s: VideoStatus): string {
    match s
    case Queued => "QUEUED"
    case GeneratingScript => "GENERATING_SCRIPT"
    case RenderingVideo => "RENDERING_VIDEO"
    case Completed => "COMPLETED"
    case Failed => "FAILED"
  }

  /** Reads a status in either spelling. */
  function ParseStatus(raw: string): Option<VideoStatus> {
    if raw == "queued" || raw == "QUEUED" then Some(Queued)
    else if raw == "generating_script" || raw == "GENERATING_SCRIPT" then Some(GeneratingScript)
    else if raw == "rendering_video" || raw == "RENDERING_VIDEO" then Some(RenderingVideo)
    else if raw == "completed" || raw == "COMPLETED" then Some(Completed)
    else if raw == "failed" || raw == "FAILED" then Some(Failed)
    else None
  }

  /** The classification the player evidently intends: on the status, whichever way it is spelled. */
  function ClassifyViewCanonical(videoStatus: string, videoProgress: int, videoFilePath: Option<string>,
                                 audioFilePath: Option<string>, hasRetry: bool): View
  {
    match ParseStatus(videoStatus)
    case Some(s) => ClassifyView(UpperSpelling(s), videoProgress, videoFilePath, audioFilePath, hasRetry)
    case None => NoVideoAvailable
  }

  /**
   * With the canonical classification, the typed spelling selects the same view
   * as the upper-case one, so a completed lesson with a file plays and a
   * queued one shows its generation stage.
   */
  lemma CanonicalViewHonoursTypedStatus(s: VideoStatus, progress: int, videoFilePath: Option<string>,
                                        audioFilePath: Option<string>, hasRetry: bool)
    ensures ClassifyViewCanonical(TypedSpelling(s), progress, videoFilePath, audioFilePath, hasRetry)
         == ClassifyView(UpperSpelling(s), progress, videoFilePath, audioFilePath, hasRetry)
    ensures ClassifyViewCanonical(UpperSpelling(s), progress, videoFilePath, audioFilePath, hasRetry)
         == ClassifyView(UpperSpelling(s), progress, videoFilePath, audioFilePath, hasRetry)
    ensures s == Completed && Truthy(videoFilePath) ==>
      ClassifyViewCanonical(TypedSpelling(s), progress, videoFilePath, audioFilePath, hasRetry) == Player(VideoElement)
  {
    assert ParseStatus(TypedSpelling(s)) == Some(s);
    assert ParseStatus(UpperSpelling(s)) == Some(s);
  }

  /** `formatTime` on a whole number of seconds: minutes, a colon, two-digit seconds. */
  function FormatTime(seconds: nat): string {
    NatToString(seconds / 60) + ":" + PadTwo(seconds % 60)
  }

  /** Reads an `m:ss` clock back into seconds; `None` for anything else. */
  function ParseClock(s: string): Option<nat> {
    var k := DigitRun(s);
    if k == 0 || |s| != k + 3 || s[k] != ':' || !IsDigit(s[k + 1]) || !IsDigit(s[k + 2]) then None
    else
      var ss := DigitsValue(s[k + 1..]);
      if ss < 60 then Some(DigitsValue(s[..k]) * 60 + ss) else None
  }

  /**
   * The clock loses nothing: it ends in exactly two digits after the colon,
   * those seconds are below 60, and reading the clock back gives the time.
   */
  lemma FormatTimeRoundTrip(seconds: nat)
    ensures var s := FormatTime(seconds);
      |s| >= 4 && s[|s| - 3] == ':' && AllDigits(s[|s| - 2..]) && DigitsValue(s[|s| - 2..]) < 60
    ensures ParseClock(FormatTime(seconds)) == Some(seconds)
  {
    var m := NatToString(seconds / 60);
    var p := PadTwo(seconds % 60);
    PadTwoBelowHundred(seconds % 60);
    NatToStringRoundTrip(seconds / 60);
    var s := FormatTime(seconds);
    assert s == m + (":" + p);
    DigitRunOfDigitsThen(m, ":" + p);
    assert s[..|m|] == m;
    assert s[|m| + 1..] == p;
    assert s[|s| - 2..] == p;
  }

  const MediaErrorMessage: string := "Failed to load media. Please try again."

  /**
   * The playback state of the player once its "ready" view is rendered.
   * The `ended` and `error` listeners are attached by an effect that re-runs
   * only when the media paths change; it attaches them to the element that
   * is mounted at that moment, if any. Showing an error unmounts the
   * element, so the listeners go with it.
   */
  class PlayerState {
    var isPlaying: bool
    var error: Option<string>
    var listenersAttached: bool

    /** Listeners can only be attached to a mounted element, and none is mounted while an error shows. */
    ghost predicate Valid()
      reads this
    {
      error.Some? ==> !listenersAttached
    }

    /**
     * First render: the effect attaches the listeners only when the media
     * element is rendered at once (`mediaMounted`).
     */
    constructor (mediaMounted: bool)
      ensures Valid()
      ensures !isPlaying && error == None && listenersAttached == mediaMounted
    {
      isPlaying := false;
      error := None;
      listenersAttached := mediaMounted;
    }

    /**
     * The effect re-runs after the media paths change: the listeners now sit
     * on the element mounted at that moment, and there is none while an error
     * shows.
     */
    method OnMediaPathsChanged(mediaMounted: bool)
      requires Valid()
      modifies this
      ensures Valid()
      ensures listenersAttached == (mediaMounted && error.None?)
      ensures isPlaying == old(isPlaying) && error == old(error)
    {
      listenersAttached := mediaMounted && error.None?;
    }

    /**
     * `togglePlayPause`: nothing happens without a media element; otherwise
     * `isPlaying` flips only once `play()` or `pause()` has succeeded, and a
     * failure leaves it as it was and raises the playback error toast.
     */
    method TogglePlayPause(hasElement: bool, succeeded: bool) returns (playbackErrorToast: bool)
      requires Valid()
      modifies this
      ensures Valid()
      ensures isPlaying == if hasElement && succeeded then !old(isPlaying) else old(isPlaying)
      ensures error == old(error) && listenersAttached == old(listenersAttached)
      ensures playbackErrorToast <==> hasElement && !succeeded
    {
      playbackErrorToast := false;
      if !hasElement {
        return;
      }
      if succeeded {
        isPlaying := !isPlaying;
      } else {
        playbackErrorToast := true;
      }
    }

    /** The media `ended` event: it stops playback only when the listener is attached. */
    method OnEnded()
      requires Valid()
      modifies this
      ensures Valid()
      ensures isPlaying == (old(isPlaying) && !listenersAttached)
      ensures error == old(error) && listenersAttached == old(listenersAttached)
    {
      if listenersAttached {
        isPlaying := false;
      }
    }

    /**
     * One `error` event of the `<video>` or `<audio>` element. The element's
     * `onError` prop always runs and shows the load message for its kind;
     * when the effect's listener is attached it runs next, replacing that
     * message with the generic media error and stopping playback. Either way
     * the error panel then replaces the element and its listeners.
     */
    method OnMediaError(media: Media)
      requires Valid()
      modifies this
      ensures Valid()
      ensures old(listenersAttached) ==> !isPlaying && error == Some(MediaErrorMessage)
      ensures !old(listenersAttached) ==>
        isPlaying == old(isPlaying)
        && error == Some(if media == VideoElement then "Failed to load video" else "Failed to load audio")
      ensures !listenersAttached
    {
      error := Some(if media == VideoElement then "Failed to load video" else "Failed to load audio");
      if listenersAttached {
        error := Some(MediaErrorMessage);
        isPlaying := false;
      }
      listenersAttached := false;
    }

    /**
     * The "Try Again" button of the error panel as written: the element is
     * mounted again, but the effect does not re-run, so the new element has
     * no `ended` or `error` listener.
     */
    method TryAgain()
      requires Valid()
      modifies this
      ensures Valid()
      ensures error == None && isPlaying == old(isPlaying) && listenersAttached == old(listenersAttached)
    {
      error := None;
    }

    /**
     * "Try Again" with the listener effect keyed on the mounted element as
     * well: the remounted element gets its listeners back.
     */
    method TryAgainReattaching()
      requires Valid()
      modifies this
      ensures Valid()
      ensures error == None && isPlaying == old(isPlaying) && listenersAttached
    {
      error := None;
      listenersAttached := true;
    }
  }

  /**
   * As written: after a load error and "Try Again", a video played to its
   * end still shows as playing, because its `ended` event reaches no listener.
   */
  method EndedAfterTryAgainKeepsPlaying() returns (playing: bool)
    ensures playing
  {
    var player := new PlayerState(true);
    player.OnMediaError(VideoElement);
    player.TryAgain();
    var toast := player.TogglePlayPause(true, true);
    player.OnEnded();
    playing := player.isPlaying;
  }

  /** With the listeners re-attached on "Try Again", the same sequence ends playback. */
  method EndedAfterReattachingStops() returns (playing: bool)
    ensures !playing
  {
    var player := new PlayerState(true);
    player.OnMediaError(VideoElement);
    player.TryAgainReattaching();
    var toast := player.TogglePlayPause(true, true);
    player.OnEnded();
    playing := player.isPlaying;
  }
}
