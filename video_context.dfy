/** The server-side view logic of the XBlock: `get_video_context`, the
    decision ladder that fetches a video's description from the Videofront
    API and reports at most one message, `get_downloads_context`, and the
    context that `student_view` assembles from them. */
module VideoContext {
  import opened Common

  datatype Level = Error | Warning | Info

  /** The messages `get_video_context` can report. */
  datatype Notice =
    | MissingVideoId
    | MissingHost
    | MissingToken
    | Unreachable
    | AuthenticationError
    | IncorrectVideoId
    | UnknownError
    | BeingProcessed(progress: real)
    | ProcessingFailed

  /** A `(level, content)` pair of the `messages` list. */
  datatype Message = Message(level: Level, notice: Notice) {
    /** The content shown to the user, untranslated. */
    function Content(): string { Wording(notice) }
  }

  /** One entry of the video's `formats` list. */
  datatype Format = Format(name: string, url: string)

  /** The decoded JSON description of a video; `formats` is `None` when the
      key is absent. */
  datatype VideoDoc = VideoDoc(processingStatus: string, progress: real, formats: Option<seq<Format>>)

  /** The GET request sent to the API. */
  datatype Request = Request(url: string, authorization: string)

  /** What `requests.get` gives back: a connection error or a response whose
      body has been decoded. */
  datatype HttpOutcome = ConnectionError | Response(status: int, body: VideoDoc)

  datatype Download = Download(url: string, displayLabel: string)

  /** The English text of each message, before translation. */
  function Wording(n: Notice): string {
    match n
    case MissingVideoId => "You need to define a valid Videofront video ID."
    case MissingHost => "Undefined Videofront hostname. Contact your platform administrator."
    case MissingToken => "Undefined Videofront auth token. Contact your platform administrator."
    case Unreachable => "Could not reach Videofront server. Contact your platform administrator"
    case AuthenticationError => "Authentication error"
    case IncorrectVideoId => "Incorrect video id"
    case UnknownError => "An unknown error has occurred"
    case BeingProcessed(_) => "Video is currently being processed ({:.2f}%)"
    case ProcessingFailed => "Video processing failed: try again with a different video ID"
  }

  /** Python truthiness of an optional string: not `None` and not empty. */
  predicate Truthy(s: Option<string>) {
    s.Some? && |s.value| > 0
  }

  /** The text has only ASCII characters. Python 2's `str.format` encodes a
      `unicode` argument with the ASCII codec, so any other character makes
      it raise `UnicodeEncodeError`. */
  predicate Ascii(s: string) {
    forall k :: 0 <= k < |s| ==> s[k] <= '\U{007F}'
  }

  /** `settings.get(key)`. */
  function Setting(settings: map<string, string>, key: string): Option<string> {
    if key in settings then Some(settings[key]) else None
  }

  /** `'{}/api/v1/videos/{}/'.format(host, id)` with the header `'Token ' + token`. */
  function VideoRequest(host: string, videoId: string, token: string): Request {
    Request(host + "/api/v1/videos/" + videoId + "/", "Token " + token)
  }

  /** The one message for an HTTP status of 400 or more. */
  function StatusMessage(status: int): Message {
    if status == 403 then Message(Error, AuthenticationError)
    else if status == 404 then Message(Warning, IncorrectVideoId)
    else Message(Error, UnknownError)
  }

  /** The message for the processing status of a video that was found. */
  function ProcessingMessages(doc: VideoDoc): seq<Message> {
    if doc.processingStatus == "processing" then [Message(Info, BeingProcessed(doc.progress))]
    else if doc.processingStatus == "failed" then [Message(Warning, ProcessingFailed)]
    else []
  }

  /** The outcome `get_video_context` must produce, rung by rung: the id,
      then the host, then the token, then the building of the URL (which
      raises on a non-ASCII host or id), then the transport, then the status
      code, then the processing status. `raised` says an exception escapes;
      nothing is returned then, and the model leaves the outputs empty. */
  ghost predicate ContextOutcome(videoId: Option<string>, settings: map<string, string>,
                                 fetch: Request -> HttpOutcome, video: Option<VideoDoc>,
                                 messages: seq<Message>, request: Option<Request>, raised: bool)
  {
    var host := Setting(settings, "HOST");
    var token := Setting(settings, "TOKEN");
    if !Truthy(videoId) then
      !raised && video == None && messages == [Message(Warning, MissingVideoId)] && request == None
    else if !Truthy(host) then
      !raised && video == None && messages == [Message(Warning, MissingHost)] && request == None
    else if !Truthy(token) then
      !raised && video == None && messages == [Message(Warning, MissingToken)] && request == None
    else if !Ascii(host.value) || !Ascii(videoId.value) then
      raised && video == None && messages == [] && request == None
    else
      var req := VideoRequest(host.value, videoId.value, token.value);
      !raised && request == Some(req) &&
      match fetch(req)
      case ConnectionError =>
        video == None && messages == [Message(Error, Unreachable)]
      case Response(status, body) =>
        if status >= 400 then video == None && messages == [StatusMessage(status)]
        else video == Some(body) && messages == ProcessingMessages(body)
  }

  /** `get_video_context(video_id)`: `messages` grows by `append` along a
      chain of early returns. The HTTP call is the parameter `fetch`; the
      request made, if any, is returned, and `raised` reports the
      `UnicodeEncodeError` of the URL formatting, which no `except` catches. */
  method GetVideoContext(videoId: Option<string>, settings: map<string, string>,
                         fetch: Request -> HttpOutcome)
    returns (video: Option<VideoDoc>, messages: seq<Message>, request: Option<Request>, raised: bool)
    ensures ContextOutcome(videoId, settings, fetch, video, messages, request, raised)
  {
    messages := [];
    video := None;
    request := None;
    raised := false;
    if !Truthy(videoId) {
      messages := messages + [Message(Warning, MissingVideoId)];
      return;
    }
    var apiHost := Setting(settings, "HOST");
    var apiToken := Setting(settings, "TOKEN");
    if !Truthy(apiHost) {
      messages := messages + [Message(Warning, MissingHost)];
      return;
    }
    if !Truthy(apiToken) {
      messages := messages + [Message(Warning, MissingToken)];
      return;
    }
    if !Ascii(apiHost.value) || !Ascii(videoId.value) {
      raised := true;
      return;
    }
    var req := VideoRequest(apiHost.value, videoId.value, apiToken.value);
    request := Some(req);
    var response := fetch(req);
    if response.ConnectionError? {
      messages := messages + [Message(Error, Unreachable)];
      return;
    }
    if response.status >= 400 {
      if response.status == 403 {
        messages := messages + [Message(Error, AuthenticationError)];
      } else if response.status == 404 {
        messages := messages + [Message(Warning, IncorrectVideoId)];
      } else {
        messages := messages + [Message(Error, UnknownError)];
      }
      return;
    }
    video := Some(response.body);
    if response.body.processingStatus == "processing" {
      messages := messages + [Message(Info, BeingProcessed(response.body.progress))];
    } else if response.body.processingStatus == "failed" {
      messages := messages + [Message(Warning, ProcessingFailed)];
    }
  }

  /** Every path reports at most one message; every returning path that
      leaves the video empty reports exactly one, and it is never a mere `info`. */
  lemma AtMostOneMessage(videoId: Option<string>, settings: map<string, string>,
                         fetch: Request -> HttpOutcome, video: Option<VideoDoc>,
                         messages: seq<Message>, request: Option<Request>, raised: bool)
    requires ContextOutcome(videoId, settings, fetch, video, messages, request, raised)
    ensures |messages| <= 1
    ensures !raised && video.None? ==> |messages| == 1 && messages[0].level != Info
    ensures |messages| == 1 && messages[0].level == Info ==> video.Some?
  {
    var host, token := Setting(settings, "HOST"), Setting(settings, "TOKEN");
    if Truthy(videoId) && Truthy(host) && Truthy(token) && Ascii(host.value) && Ascii(videoId.value) {
      var req := VideoRequest(host.value, videoId.value, token.value);
      match fetch(req)
      case ConnectionError =>
      case Response(status, body) =>
        if status < 400 {
          assert messages == ProcessingMessages(body);
        }
    }
  }

  /** The ladder leaves no freedom: one outcome per input. */
  lemma ContextOutcomeIsUnique(videoId: Option<string>, settings: map<string, string>,
                               fetch: Request -> HttpOutcome,
                               video1: Option<VideoDoc>, messages1: seq<Message>, request1: Option<Request>, raised1: bool,
                               video2: Option<VideoDoc>, messages2: seq<Message>, request2: Option<Request>, raised2: bool)
    requires ContextOutcome(videoId, settings, fetch, video1, messages1, request1, raised1)
    requires ContextOutcome(videoId, settings, fetch, video2, messages2, request2, raised2)
    ensures video1 == video2 && messages1 == messages2 && request1 == request2 && raised1 == raised2
  {
    var host, token := Setting(settings, "HOST"), Setting(settings, "TOKEN");
    if Truthy(videoId) && Truthy(host) && Truthy(token) && Ascii(host.value) && Ascii(videoId.value) {
      var req := VideoRequest(host.value, videoId.value, token.value);
      match fetch(req)
      case ConnectionError =>
      case Response(status, body) =>
    }
  }

  /** Without a video id the outcome is the same whatever the settings and
      the server would say: they are not consulted. */
  lemma MissingIdIgnoresSettings(videoId: Option<string>,
                                 settings1: map<string, string>, fetch1: Request -> HttpOutcome,
                                 settings2: map<string, string>, fetch2: Request -> HttpOutcome,
                                 video: Option<VideoDoc>, messages: seq<Message>, request: Option<Request>, raised: bool)
    requires !Truthy(videoId)
    requires ContextOutcome(videoId, settings1, fetch1, video, messages, request, raised)
    ensures ContextOutcome(videoId, settings2, fetch2, video, messages, request, raised)
    ensures messages == [Message(Warning, MissingVideoId)] && video.None? && request.None? && !raised
  {
  }

  /** The host is checked before the token: with the host missing or empty,
      the host is reported whatever the token. */
  lemma HostCheckedBeforeToken(videoId: Option<string>, settings: map<string, string>,
                               fetch: Request -> HttpOutcome, video: Option<VideoDoc>,
                               messages: seq<Message>, request: Option<Request>, raised: bool)
    requires Truthy(videoId) && !Truthy(Setting(settings, "HOST"))
    requires ContextOutcome(videoId, settings, fetch, video, messages, request, raised)
    ensures messages == [Message(Warning, MissingHost)] && !raised
  {
  }

  /** A request goes out exactly when id, host and token are all non-empty
      and the URL can be built, and then it names the video under the host's
      API and carries the token. An exception escapes exactly when the URL
      cannot be built. */
  lemma RequestOnlyWithCredentials(videoId: Option<string>, settings: map<string, string>,
                                   fetch: Request -> HttpOutcome, video: Option<VideoDoc>,
                                   messages: seq<Message>, request: Option<Request>, raised: bool)
    requires ContextOutcome(videoId, settings, fetch, video, messages, request, raised)
    ensures request.Some? <==>
              Truthy(videoId) && Truthy(Setting(settings, "HOST")) && Truthy(Setting(settings, "TOKEN")) &&
              Ascii(settings["HOST"]) && Ascii(videoId.value)
    ensures raised <==>
              Truthy(videoId) && Truthy(Setting(settings, "HOST")) && Truthy(Setting(settings, "TOKEN")) &&
              !(Ascii(settings["HOST"]) && Ascii(videoId.value))
    ensures request.Some? ==>
              request.value.url == settings["HOST"] + "/api/v1/videos/" + videoId.value + "/" &&
              request.value.authorization == "Token " + settings["TOKEN"]
  {
  }

  /** What the id, host and token rungs say to the user, and at which level. */
  lemma SettingsWording(videoId: Option<string>, settings: map<string, string>,
                        fetch: Request -> HttpOutcome, video: Option<VideoDoc>,
                        messages: seq<Message>, request: Option<Request>, raised: bool)
    requires ContextOutcome(videoId, settings, fetch, video, messages, request, raised)
    ensures !Truthy(videoId) ==>
              messages[0].level == Warning &&
              messages[0].Content() == "You need to define a valid Videofront video ID."
    ensures Truthy(videoId) && !Truthy(Setting(settings, "HOST")) ==>
              messages[0].level == Warning &&
              messages[0].Content() == "Undefined Videofront hostname. Contact your platform administrator."
    ensures Truthy(videoId) && Truthy(Setting(settings, "HOST")) && !Truthy(Setting(settings, "TOKEN")) ==>
              messages[0].level == Warning &&
              messages[0].Content() == "Undefined Videofront auth token. Contact your platform administrator."
  {
    if !Truthy(videoId) {
      assert messages[0].notice == MissingVideoId;
    } else if !Truthy(Setting(settings, "HOST")) {
      assert messages[0].notice == MissingHost;
    } else if !Truthy(Setting(settings, "TOKEN")) {
      assert messages[0].notice == MissingToken;
    }
  }

  /** What the transport rung says to the user, and at which level. */
  lemma ConnectionWording(videoId: Option<string>, settings: map<string, string>,
                            fetch: Request -> HttpOutcome, video: Option<VideoDoc>,
                            messages: seq<Message>, request: Option<Request>, raised: bool)
    requires ContextOutcome(videoId, settings, fetch, video, messages, request, raised)
    ensures request.Some? && fetch(request.value).ConnectionError? ==>
              messages[0].level == Error &&
              messages[0].Content() == "Could not reach Videofront server. Contact your platform administrator"
  {
    var host, token := Setting(settings, "HOST"), Setting(settings, "TOKEN");
    if Truthy(videoId) && Truthy(host) && Truthy(token) && Ascii(host.value) && Ascii(videoId.value) {
      var req := VideoRequest(host.value, videoId.value, token.value);
      assert request == Some(req);
      match fetch(req)
      case ConnectionError =>
        assert messages[0].notice == Unreachable;
      case Response(_, _) =>
    }
  }

  /** What the status-code rung says to the user, and at which level. */
  lemma StatusWording(videoId: Option<string>, settings: map<string, string>,
                        fetch: Request -> HttpOutcome, video: Option<VideoDoc>,
                        messages: seq<Message>, request: Option<Request>, raised: bool)
    requires ContextOutcome(videoId, settings, fetch, video, messages, request, raised)
    ensures request.Some? && fetch(request.value).Response? && fetch(request.value).status == 403 ==>
              messages[0].level == Error && messages[0].Content() == "Authentication error"
    ensures request.Some? && fetch(request.value).Response? && fetch(request.value).status == 404 ==>
              messages[0].level == Warning && messages[0].Content() == "Incorrect video id"
    ensures request.Some? && fetch(request.value).Response? && fetch(request.value).status >= 400 &&
            fetch(request.value).status != 403 && fetch(request.value).status != 404 ==>
              messages[0].level == Error && messages[0].Content() == "An unknown error has occurred"
  {
    var host, token := Setting(settings, "HOST"), Setting(settings, "TOKEN");
    if Truthy(videoId) && Truthy(host) && Truthy(token) && Ascii(host.value) && Ascii(videoId.value) {
      var req := VideoRequest(host.value, videoId.value, token.value);
      assert request == Some(req);
      match fetch(req)
      case ConnectionError =>
      case Response(status, body) =>
        if status >= 400 {
          assert messages == [StatusMessage(status)];
          if status == 403 {
            assert messages[0].notice == AuthenticationError;
          } else if status == 404 {
            assert messages[0].notice == IncorrectVideoId;
          } else {
            assert messages[0].notice == UnknownError;
          }
        }
    }
  }

  /** What the processing-status rung says to the user, and at which level. */
  lemma ProcessingWording(videoId: Option<string>, settings: map<string, string>,
                          fetch: Request -> HttpOutcome, video: Option<VideoDoc>,
                          messages: seq<Message>, request: Option<Request>, raised: bool)
    requires ContextOutcome(videoId, settings, fetch, video, messages, request, raised)
    ensures request.Some? && fetch(request.value).Response? && fetch(request.value).status < 400 &&
            fetch(request.value).body.processingStatus == "processing" ==>
              messages[0].level == Info &&
              messages[0].Content() == "Video is currently being processed ({:.2f}%)"
    ensures request.Some? && fetch(request.value).Response? && fetch(request.value).status < 400 &&
            fetch(request.value).body.processingStatus == "failed" ==>
              messages[0].level == Warning &&
              messages[0].Content() == "Video processing failed: try again with a different video ID"
  {
    var host, token := Setting(settings, "HOST"), Setting(settings, "TOKEN");
    if Truthy(videoId) && Truthy(host) && Truthy(token) && Ascii(host.value) && Ascii(videoId.value) {
      var req := VideoRequest(host.value, videoId.value, token.value);
      assert request == Some(req);
      match fetch(req)
      case ConnectionError =>
      case Response(status, body) =>
        if status < 400 {
          assert messages == ProcessingMessages(body);
          if body.processingStatus == "processing" {
            assert messages[0].notice == BeingProcessed(body.progress);
          } else if body.processingStatus == "failed" {
            assert messages[0].notice == ProcessingFailed;
          }
        }
    }
  }

  /** The fixed labels of the known format names. */
  const DownloadLabels: map<string, string> :=
    map["HD" := "High (720p)", "SD" := "Standard (480p)", "LD" := "Mobile (320p)"]

  /** `download_labels.get(name, name)`. */
  function DownloadLabel(name: string): string {
    if name in DownloadLabels then DownloadLabels[name] else name
  }

  /** `video.get('formats', [])`, where an empty video is `{}`. */
  function Formats(video: Option<VideoDoc>): seq<Format> {
    match video
    case None => []
    case Some(doc) => match doc.formats case None => [] case Some(fs) => fs
  }

  /** The slice `s[::-1]`. */
  function Reverse<T>(s: seq<T>): (r: seq<T>)
    ensures |r| == |s|
    ensures forall i :: 0 <= i < |s| ==> r[i] == s[|s| - 1 - i]
  {
    if |s| == 0 then [] else [s[|s| - 1]] + Reverse(s[..|s| - 1])
  }

  /** `get_downloads_context(video)`: one download per format, the formats
      taken in reverse order, each keeping its url and getting the label of
      its name. */
  function GetDownloadsContext(video: Option<VideoDoc>): (downloads: seq<Download>)
    ensures var fs := Formats(video);
            |downloads| == |fs| &&
            forall i :: 0 <= i < |fs| ==>
              downloads[i].url == fs[|fs| - 1 - i].url &&
              downloads[i].displayLabel == DownloadLabel(fs[|fs| - 1 - i].name)
  {
    var formats := Reverse(Formats(video));
    seq(|formats|, i requires 0 <= i < |formats| => Download(formats[i].url, DownloadLabel(formats[i].name)))
  }

  /** A known format name never shows as itself; any other name shows unchanged. */
  lemma DownloadLabelShowsRawNameOnlyWhenUnknown(name: string)
    ensures DownloadLabel(name) == name <==> name !in {"HD", "SD", "LD"}
  {
  }

  /** Reading the downloads back to front gives the formats' urls in their own order. */
  lemma DownloadsReverseFormats(video: Option<VideoDoc>)
    ensures var d := GetDownloadsContext(video);
            Reverse(seq(|d|, i requires 0 <= i < |d| => d[i].url)) ==
            seq(|Formats(video)|, i requires 0 <= i < |Formats(video)| => Formats(video)[i].url)
  {
  }

  /** The whitespace characters that Python 2.7's `unicode.strip()` removes. */
  predicate IsSpace(c: char) {
    ('\t' <= c <= '\r') || ('\U{001C}' <= c <= ' ') || c == '\U{0085}' || c == '\U{00A0}' ||
    c == '\U{1680}' || c == '\U{180E}' || ('\U{2000}' <= c <= '\U{200A}') || c == '\U{2028}' ||
    c == '\U{2029}' || c == '\U{202F}' || c == '\U{205F}' || c == '\U{3000}'
  }

  predicate IsText(c: char) {
    !IsSpace(c)
  }

  /** Where the text of `s` starts: the number of leading whitespace characters. */
  function TextStart(s: string): (i: nat)
    ensures i <= |s|
    ensures forall k :: 0 <= k < i ==> IsSpace(s[k])
    ensures i < |s| ==> !IsSpace(s[i])
  {
    FirstIndex(s, IsText)
  }

  /** Where the text of `s` ends, scanning back from the end but not past `i`. */
  function TextEnd(s: string, i: nat): (j: nat)
    requires i <= |s|
    ensures i <= j <= |s|
    ensures forall k :: j <= k < |s| ==> IsSpace(s[k])
    ensures j > i ==> !IsSpace(s[j - 1])
    decreases |s| - i
  {
    if |s| == i then i
    else if IsSpace(s[|s| - 1]) then TextEnd(s[..|s| - 1], i)
    else |s|
  }

  /** `s.strip()`: `s` with its leading and trailing whitespace removed, and
      nothing else. */
  function Strip(s: string): (r: string)
    ensures exists i, j :: 0 <= i <= j <= |s| && r == s[i..j] &&
                           (forall k :: 0 <= k < i ==> IsSpace(s[k])) &&
                           (forall k :: j <= k < |s| ==> IsSpace(s[k]))
    ensures r == [] || (!IsSpace(r[0]) && !IsSpace(r[|r| - 1]))
    ensures r == [] <==> forall k :: 0 <= k < |s| ==> IsSpace(s[k])
  {
    var i := TextStart(s);
    var j := TextEnd(s, i);
    assert j > i ==> s[i..j][0] == s[i] && s[i..j][j - i - 1] == s[j - 1];
    s[i..j]
  }

  /** The context handed to the template. */
  datatype ViewContext = ViewContext(displayName: string, video: Option<VideoDoc>,
                                     messages: seq<Message>, downloads: seq<Download>)

  /** The context part of `student_view`: the id is stripped before use (and
      the stripped id is what the player's JavaScript receives), and the
      downloads list is empty unless downloads are allowed. */
  method StudentView(displayName: string, videoIdField: Option<string>, allowDownload: bool,
                     settings: map<string, string>, fetch: Request -> HttpOutcome)
    returns (context: ViewContext, jsVideoId: Option<string>, request: Option<Request>, raised: bool)
    ensures jsVideoId == (if videoIdField.None? then None else Some(Strip(videoIdField.value)))
    ensures ContextOutcome(jsVideoId, settings, fetch, context.video, context.messages, request, raised)
    ensures context.downloads == (if allowDownload then GetDownloadsContext(context.video) else [])
    ensures context.displayName == displayName
  {
    var videoId := if videoIdField.None? then None else Some(Strip(videoIdField.value));
    var video, messages, req, failed := GetVideoContext(videoId, settings, fetch);
    var downloads := if allowDownload then GetDownloadsContext(video) else [];
    context := ViewContext(displayName, video, messages, downloads);
    jsVideoId := videoId;
    request := req;
    raised := failed;
  }

  /** Stripping twice strips nothing more. */
  lemma StripIdempotent(s: string)
    ensures Strip(Strip(s)) == Strip(s)
  {
    var r := Strip(s);
    assert TextStart(r) == 0;
    assert TextEnd(r, 0) == |r|;
    assert r[0..|r|] == r;
  }
}
