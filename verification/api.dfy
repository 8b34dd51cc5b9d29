/**
 * The REST client of the front end (src/lib/api.ts): the records the backend
 * returns, the `ApiClient` class that turns an endpoint into a URL and a
 * fetch configuration, the query strings with their defaults, the media URLs,
 * and the error messages a non-ok response becomes. The fetch itself is not
 * modelled: a response is a value handed to the model.
 */
module Api {
  import opened Wrappers
  import opened Text

  /** The video generation states as the `Subchapter` type spells them. */
  datatype VideoStatus = Queued | GeneratingScript | RenderingVideo | Completed | Failed

  /** The lower-case spelling of `video_status` declared by the record type. */
  function TypedSpelling(v: VideoStatus): string {
    match v
    case Queued => "queued"
    case GeneratingScript => "generating_script"
    case RenderingVideo => "rendering_video"
    case Completed => "completed"
    case Failed => "failed"
  }

  /** A lesson. `videoStatus` is kept as the raw string the backend sent. */
  datatype Subchapter = Subchapter(
    id: string,
    chapterId: string,
    title: string,
    orderIndex: int,
    videoFilePath: Option<string>,
    audioFilePath: Option<string>,
    videoStatus: string,
    videoProgress: int,
    videoMessage: Option<string>,
    isCompleted: bool)

  /** A chapter; `subchapters` is absent until the chapter's details are fetched. */
  datatype Chapter = Chapter(
    id: string,
    syllabusId: string,
    title: string,
    orderIndex: int,
    isGenerated: bool,
    subchapters: Option<seq<Subchapter>>)

  /** An uploaded reference document. */
  datatype Document = Document(id: string, filename: string, status: string)

  /** A file picked in the browser. */
  datatype File = File(name: string, size: nat)

  /** One lesson's entry in the chapter video status. */
  datatype SubchapterVideoStatus = SubchapterVideoStatus(
    subchapterId: string, title: string, videoStatus: string, videoProgress: int,
    videoMessage: string, videoFilePath: Option<string>)

  /** The aggregate video status of one chapter, as the status endpoint returns it. */
  datatype ChapterVideoStatus = ChapterVideoStatus(
    chapterId: string, chapterTitle: string, overallStatus: string,
    subchapters: seq<SubchapterVideoStatus>, overallProgress: int)

  /** The reply to opening a chapter. */
  datatype OpenChapterReply = OpenChapterReply(
    message: string, chapterId: string, subchaptersFound: nat, videoGenerationStarted: bool)

  /** The reply to marking a lesson complete. */
  datatype CompletionReply = CompletionReply(subchapterId: string, isCompleted: bool, message: string)

  /** What an awaited call can throw: an `Error` with its message, or any other value. */
  datatype Failure = ErrorWithMessage(message: string) | OtherThrown

  /** `err instanceof Error ? err.message : fallback`, the idiom of every catch block. */
  function MessageOr(f: Failure, fallback: string): string {
    match f
    case ErrorWithMessage(m) => m
    case OtherThrown => fallback
  }

  /**
   * The parts of a `fetch` response the client reads: `parseError` is None
   * when the body parses as JSON, otherwise the message of the `SyntaxError`
   * that `response.json()` throws.
   */
  datatype HttpResponse = HttpResponse(ok: bool, status: nat, text: string, parseError: Option<string>)

  type Headers = map<string, string>

  /** The keys of a `RequestInit` the client passes on; `None` is a key the caller left out. */
  datatype RequestOptions = RequestOptions(httpMethod: Option<string>, headers: Option<Headers>, body: Option<string>)

  /** The configuration handed to fetch. */
  datatype RequestConfig = RequestConfig(httpMethod: Option<string>, headers: Headers, body: Option<string>)

  const JsonContentType: Headers := map["Content-Type" := "application/json"]

  /**
   * The configuration built from the caller's options:
   * `{ headers: { 'Content-Type': ..., ...options.headers }, ...options }`.
   * Because `...options` comes last, a caller's `headers` key replaces the
   * merged object, so the default content type survives only when the
   * caller passes no headers at all.
   */
  function BuildConfig(options: RequestOptions): (c: RequestConfig)
    ensures c.httpMethod == options.httpMethod && c.body == options.body
    ensures options.headers.None? ==> c.headers == JsonContentType
    ensures options.headers.Some? ==> c.headers == options.headers.value
  {
    var merged := if options.headers.Some? then JsonContentType + options.headers.value else JsonContentType;
    RequestConfig(options.httpMethod, if options.headers.Some? then options.headers.value else merged, options.body)
  }

  /** A caller adding any header loses the JSON content type. */
  lemma CallerHeadersDropContentType()
    ensures var options := RequestOptions(Some("POST"), Some(map["Authorization" := "Bearer t"]), Some("{}"));
            "Content-Type" !in BuildConfig(options).headers
  {
    var h := map["Authorization" := "Bearer t"];
    assert "Content-Type" !in h;
  }

  /** The configuration the header merge evidently intends: defaults, then the caller's headers. */
  function MergedConfig(options: RequestOptions): RequestConfig {
    RequestConfig(options.httpMethod,
      if options.headers.Some? then JsonContentType + options.headers.value else JsonContentType,
      options.body)
  }

  /**
   * The merged configuration always carries a content type, keeps every header
   * the caller passed, lets the caller override the default, and agrees with
   * the configuration as written whenever the caller passes no headers.
   */
  lemma MergedConfigKeepsContentType(options: RequestOptions)
    ensures "Content-Type" in MergedConfig(options).headers
    ensures options.headers.Some? ==>
      forall k :: k in options.headers.value ==>
        k in MergedConfig(options).headers && MergedConfig(options).headers[k] == options.headers.value[k]
    ensures options.headers.None? || "Content-Type" !in options.headers.value ==>
      MergedConfig(options).headers["Content-Type"] == "application/json"
    ensures options.headers.None? ==> MergedConfig(options) == BuildConfig(options)
  {
  }

  /** `${prefix} ${status}: ${body}`, the message of the Error a non-ok response throws. */
  function ErrorMessage(prefix: string, status: nat, body: string): string {
    prefix + " " + NatToString(status) + ": " + body
  }

  function ApiErrorMessage(status: nat, body: string): string {
    ErrorMessage("API Error", status, body)
  }

  function UploadErrorMessage(status: nat, body: string): string {
    ErrorMessage("Upload Error", status, body)
  }

  /** Reads a message of the form `${prefix} ${status}: ${body}` back into status and body. */
  function ParseErrorMessage(prefix: string, msg: string): Option<(nat, string)> {
    var head := prefix + " ";
    if |msg| < |head| || msg[..|head|] != head then None
    else
      var rest := msg[|head|..];
      var k := DigitRun(rest);
      if k == 0 || |rest| < k + 2 || rest[k..k + 2] != ": " then None
      else Some((DigitsValue(rest[..k]), rest[k + 2..]))
  }

  /** The error message keeps the status code and the whole response text. */
  lemma ErrorMessageRoundTrip(prefix: string, status: nat, body: string)
    ensures ParseErrorMessage(prefix, ErrorMessage(prefix, status, body)) == Some((status, body))
  {
    var head := prefix + " ";
    var digits := NatToString(status);
    var msg := ErrorMessage(prefix, status, body);
    assert msg == head + (digits + (": " + body));
    assert msg[..|head|] == head;
    var rest := msg[|head|..];
    assert rest == digits + (": " + body);
    DigitRunOfDigitsThen(digits, ": " + body);
    assert rest[..|digits|] == digits;
    assert rest[|digits|..|digits| + 2] == ": ";
    assert rest[|digits| + 2..] == body;
    NatToStringRoundTrip(status);
  }

  /** A failed API call and a failed upload can never produce the same message. */
  lemma ApiAndUploadErrorsDiffer(s1: nat, b1: string, s2: nat, b2: string)
    ensures ApiErrorMessage(s1, b1) != UploadErrorMessage(s2, b2)
  {
    assert ApiErrorMessage(s1, b1)[0] == 'A';
    assert UploadErrorMessage(s2, b2)[0] == 'U';
  }

  /**
   * `request`: an ok response resolves to its body when that parses as JSON and
   * rejects with the parser's `SyntaxError` otherwise; any other response
   * rejects with the API error message.
   */
  function CompleteRequest(response: HttpResponse): (r: Result<string, Failure>)
    ensures r.Ok? <==> response.ok && response.parseError.None?
    ensures r.Ok? ==> r.value == response.text
    ensures response.ok && response.parseError.Some? ==> r == Err(ErrorWithMessage(response.parseError.value))
    ensures !response.ok ==>
      r.Err? && r.error.ErrorWithMessage?
      && ParseErrorMessage("API Error", r.error.message) == Some((response.status, response.text))
  {
    if response.ok then
      match response.parseError
      case None => Ok(response.text)
      case Some(m) => Err(ErrorWithMessage(m))
    else
      ErrorMessageRoundTrip("API Error", response.status, response.text);
      Err(ErrorWithMessage(ApiErrorMessage(response.status, response.text)))
  }

  /** `uploadDocument`: as `request`, but a failure carries the upload prefix. */
  function CompleteUpload(response: HttpResponse): (r: Result<string, Failure>)
    ensures r.Ok? <==> response.ok && response.parseError.None?
    ensures r.Ok? ==> r.value == response.text
    ensures response.ok && response.parseError.Some? ==> r == Err(ErrorWithMessage(response.parseError.value))
    ensures !response.ok ==>
      r.Err? && r.error.ErrorWithMessage?
      && ParseErrorMessage("Upload Error", r.error.message) == Some((response.status, response.text))
  {
    if response.ok then
      match response.parseError
      case None => Ok(response.text)
      case Some(m) => Err(ErrorWithMessage(m))
    else
      ErrorMessageRoundTrip("Upload Error", response.status, response.text);
      Err(ErrorWithMessage(UploadErrorMessage(response.status, response.text)))
  }

  /** `getSyllabi(skip = 0, limit = 20)`. */
  function SyllabiEndpoint(skip: Option<nat>, limit: Option<nat>): string {
    var s := if skip.Some? then skip.value else 0;
    var l := if limit.Some? then limit.value else 20;
    "/api/v1/syllabi/?skip=" + NatToString(s) + "&limit=" + NatToString(l)
  }

  /** `getSyllabusDocuments(syllabusId, skip = 0, limit = 10)`. */
  function SyllabusDocumentsEndpoint(syllabusId: string, skip: Option<nat>, limit: Option<nat>): string {
    var s := if skip.Some? then skip.value else 0;
    var l := if limit.Some? then limit.value else 10;
    "/api/v1/syllabi/" + syllabusId + "/documents?skip=" + NatToString(s) + "&limit=" + NatToString(l)
  }

  /** `openChapter(chapterId, autoGenerateVideos = true)`. */
  function OpenChapterEndpoint(chapterId: string, autoGenerateVideos: Option<bool>): string {
    var auto := if autoGenerateVideos.Some? then autoGenerateVideos.value else true;
    "/api/v1/chapters/" + chapterId + "/open?auto_generate_videos=" + (if auto then "true" else "false")
  }

  /** The defaults of the three paged or flagged endpoints. */
  lemma EndpointDefaults(syllabusId: string, chapterId: string)
    ensures SyllabiEndpoint(None, None) == "/api/v1/syllabi/?skip=0&limit=20"
    ensures SyllabusDocumentsEndpoint(syllabusId, None, None)
      == "/api/v1/syllabi/" + syllabusId + "/documents?skip=0&limit=10"
    ensures OpenChapterEndpoint(chapterId, None)
      == "/api/v1/chapters/" + chapterId + "/open?auto_generate_videos=true"
  {
    assert NatToString(20) == NatToString(2) + ['0'];
    assert NatToString(10) == NatToString(1) + ['0'];
  }

  /** The prefix every media URL of a lesson starts with after the base URL. */
  const SubchaptersPath: string := "/api/v1/subchapters/"

  /** The API client; its base URL is fixed when it is constructed. */
  class ApiClient {
    const baseUrl: string

    constructor (baseUrl: string)
      ensures this.baseUrl == baseUrl
    {
      this.baseUrl := baseUrl;
    }

    /** The URL `request` fetches for an endpoint. */
    function RequestUrl(endpoint: string): string {
      baseUrl + endpoint
    }

    /** `getVideoUrl`. */
    function VideoUrl(subchapterId: string): string {
      baseUrl + SubchaptersPath + subchapterId + "/video"
    }

    /** `getAudioUrl`. */
    function AudioUrl(subchapterId: string): string {
      baseUrl + SubchaptersPath + subchapterId + "/audio"
    }

    /** The URL `uploadDocument` posts a file to. */
    function UploadUrl(syllabusId: string): string {
      baseUrl + "/api/v1/syllabi/" + syllabusId + "/documents"
    }

    /** The lesson id and media kind a media URL of this client names, if it is one. */
    function ParseMediaUrl(url: string): Option<(string, string)> {
      var head := baseUrl + SubchaptersPath;
      if |url| < |head| + 6 || url[..|head|] != head then None
      else
        var tail := url[|url| - 6..];
        if tail == "/video" then Some((url[|head|..|url| - 6], "video"))
        else if tail == "/audio" then Some((url[|head|..|url| - 6], "audio"))
        else None
    }
  }

  /** A URL made of the client's media prefix, an id and a six-character media suffix reads back to both. */
  lemma MediaUrlParts(c: ApiClient, subchapterId: string, suffix: string)
    requires suffix == "/video" || suffix == "/audio"
    ensures c.ParseMediaUrl(c.baseUrl + SubchaptersPath + subchapterId + suffix) == Some((subchapterId, suffix[1..]))
  {
    var head := c.baseUrl + SubchaptersPath;
    var u := head + subchapterId + suffix;
    assert u[..|head|] == head && u[|u| - 6..] == suffix && u[|head|..|u| - 6] == subchapterId;
  }

  /**
   * The media URLs of a client name the lesson they were built for: the URL is
   * the base URL followed by the endpoint, and reading it back gives the id and
   * the kind of media.
   */
  lemma MediaUrlRoundTrip(c: ApiClient, subchapterId: string)
    ensures c.ParseMediaUrl(c.VideoUrl(subchapterId)) == Some((subchapterId, "video"))
    ensures c.ParseMediaUrl(c.AudioUrl(subchapterId)) == Some((subchapterId, "audio"))
    ensures c.VideoUrl(subchapterId) == c.RequestUrl(SubchaptersPath + subchapterId + "/video")
    ensures c.AudioUrl(subchapterId) == c.RequestUrl(SubchaptersPath + subchapterId + "/audio")
  {
    var head := c.baseUrl + SubchaptersPath;
    assert "/video"[1..] == "video" && "/audio"[1..] == "audio";
    MediaUrlParts(c, subchapterId, "/video");
    MediaUrlParts(c, subchapterId, "/audio");
    assert c.baseUrl + (SubchaptersPath + subchapterId + "/video") == head + subchapterId + "/video";
    assert c.baseUrl + (SubchaptersPath + subchapterId + "/audio") == head + subchapterId + "/audio";
  }

  /** Distinct lessons get distinct media URLs, and a video URL is never an audio URL. */
  lemma MediaUrlsDistinct(c: ApiClient, a: string, b: string)
    ensures c.VideoUrl(a) == c.VideoUrl(b) ==> a == b
    ensures c.AudioUrl(a) == c.AudioUrl(b) ==> a == b
    ensures c.VideoUrl(a) != c.AudioUrl(b)
  {
    MediaUrlRoundTrip(c, a);
    MediaUrlRoundTrip(c, b);
  }

  /** The syllabus id sits between the fixed head and the "/documents" tail of an upload URL. */
  lemma UploadUrlIdSlice(c: ApiClient, syllabusId: string)
    ensures var u := c.UploadUrl(syllabusId);
      |u| >= |c.baseUrl| + 26 && u[|c.baseUrl| + 16..|u| - 10] == syllabusId
  {
    var head := c.baseUrl + "/api/v1/syllabi/";
    var u := head + syllabusId + "/documents";
    assert u[|head|..|u| - 10] == syllabusId;
  }

  /** The upload URL is the request URL of the documents collection path. */
  lemma UploadUrlIsRequestUrl(c: ApiClient, syllabusId: string)
    ensures c.UploadUrl(syllabusId) == c.RequestUrl("/api/v1/syllabi/" + syllabusId + "/documents")
  {
    var u := c.UploadUrl(syllabusId);
    var r := c.RequestUrl("/api/v1/syllabi/" + syllabusId + "/documents");
    assert |u| == |r|;
    forall k | 0 <= k < |u| ensures u[k] == r[k] { }
  }

  /** The documents listing URL is the upload URL followed by its query. */
  lemma ListingExtendsUploadUrl(c: ApiClient, syllabusId: string, skip: Option<nat>, limit: Option<nat>)
    ensures c.UploadUrl(syllabusId) + "?" <= c.RequestUrl(SyllabusDocumentsEndpoint(syllabusId, skip, limit))
  {
    var u := c.UploadUrl(syllabusId) + "?";
    var endpoint := SyllabusDocumentsEndpoint(syllabusId, skip, limit);
    var head := "/api/v1/syllabi/" + syllabusId + "/documents?skip=";
    assert endpoint[..|head|] == head;
    var url := c.RequestUrl(endpoint);
    assert |u| <= |url|;
    forall k | 0 <= k < |u| ensures u[k] == url[k] { }
  }

  /**
   * `uploadDocument` posts to the request URL of the syllabus's documents
   * collection, the same collection `getSyllabusDocuments` lists (its URL is
   * the upload URL followed by the query string), and distinct syllabi get
   * distinct upload URLs.
   */
  lemma UploadUrlNamesSyllabus(c: ApiClient, a: string, b: string, skip: Option<nat>, limit: Option<nat>)
    ensures c.UploadUrl(a) == c.RequestUrl("/api/v1/syllabi/" + a + "/documents")
    ensures c.UploadUrl(a) + "?" <= c.RequestUrl(SyllabusDocumentsEndpoint(a, skip, limit))
    ensures c.UploadUrl(a) == c.UploadUrl(b) ==> a == b
  {
    UploadUrlIsRequestUrl(c, a);
    ListingExtendsUploadUrl(c, a, skip, limit);
    UploadUrlIdSlice(c, a);
    UploadUrlIdSlice(c, b);
  }
}
