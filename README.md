# Videofront XBlock: resolution switcher, transcript panel and view context

A Dafny model of the logic of the Videofront XBlock, an Open edX component
that plays videos hosted by a Videofront server in a modified video.js
player. It covers three parts:

* **The resolution switcher plugin** (`xblock.js`). This part comprises:
  * the sources the player can play, each with `src`, `res`, `type` and
    `label` (module `Sources`);
  * the comparator `compareResolutions` and the sort `updateSrc` applies
    with it;
  * the default-source policy `chooseSrc`;
  * the player methods `setSrc`, `changeSrc` and `updateSrc` (module
    `ResolutionSwitcher`);
  * the menu button, and its items, whose labels and selection follow every
    `resolutionchange`.

  The player is a class whose fields hold:
  * the current source;
  * the playback position;
  * the paused flag;
  * the `vjs-has-started` marker;
  * the visibility of the big play button;
  * the menu slot of the control bar.

  A ghost sequence records the payload of every `resolutionchange`. Sources
  and menu items are objects, because the code compares sources with `===`,
  which compares object identity.
* **The transcript panel** (`xblock.js`, module `Transcript`). This part
  comprises:
  * the `change` listener on the text-track list;
  * `showTranscript`, which renders one line per cue, keyed by the cue's
    start time;
  * `disableTranscript`;
  * `oncuechange`, which highlights the lines of the active cues and scrolls
    to the last one;
  * the click-to-seek handler of each line.

  The DOM is class state: the rendered rows, the set of highlighted rows,
  the `transcript-enabled` marker, the player width and `scrollTop`.
* **The server-side view context** (`videofront_xblock.py`, module
  `VideoContext`). This part comprises:
  * `get_video_context`, a ladder of checks that reports at most one
    message. It checks, in order: the video id, the API host, the API token,
    the building of the request URL, the HTTP outcome and the processing
    status;
  * `get_downloads_context`, which lists the formats in reverse order with
    their display labels;
  * the part of `student_view` that strips the video id and gates the
    downloads.

  The HTTP call is a function parameter, `fetch`, from the request to its
  outcome. `GetVideoContext` returns the request it made, if any, and
  whether an exception escapes it. The module runs under Python 2, where
  `'{}/api/v1/videos/{}/'.format(host, id)` encodes `unicode` arguments with
  the ASCII codec. A host or id with any other character raises
  `UnicodeEncodeError` there, before any request. The `except` clause
  catches only `requests.ConnectionError`, so that error escapes.

Points where the model follows the code rather than the documentation of
the component:

* `disableTranscript` only removes the `transcript-enabled` class and widens
  the player again. The rendered lines and their highlights stay in place.
* `changeSrc` compares with `===`, which compares object identity.
  `switchResolution` builds a new object on every click. So a menu click
  always reloads the media, even for the resolution already playing.
* `showTranscript` asks for a retry when the cue list is missing or empty,
  but it does not return.
  * With an empty list it goes on to render an empty transcript.
  * With a `null` list, reading `cues.length` raises a TypeError. This ends
    the `change` listener before its disabling step. The model reports this
    as `raised`.
* `oncuechange` scrolls to the first line whose `begin` is the start time of
  the last active cue. When no line has that key, jQuery's `offset()` is
  undefined and reading `.top` raises. The model reports this as `raised`.
* `src.sort(compareResolutions)` uses a comparator that is not a consistent
  order once some `res` is missing, so the JavaScript engine's sort
  algorithm decides the outcome. The model takes a stable insertion sort.
  * The sorted list is proved to be a permutation of the input.
  * When every `res` is present, it is proved to be in non-increasing
    order.
  * Sources sharing a `res` are proved to keep their catalog order, so
    sorting never changes which of several sources carrying the default
    is chosen.
  * When no source has a `res`, the list is proved to be left as it is.
* The media engine's `src(...)` is taken as the HTML media load: the
  position returns to 0 and the media is paused. `play()` unpauses it and is
  counted.

## Model

| member | source | states |
|---|---|---|
| Sources.CompareResolutions | videofront_xblock/public/js/xblock.js:140-143 | zero when either `res` is missing or empty; otherwise negative exactly when `a` has the higher resolution and positive exactly when `b` has |
| Sources.InsertBack | videofront_xblock/public/js/xblock.js:128 | one insertion step of the sort adds exactly the new source to the list: length plus one, multiset plus the source |
| Sources.InsertBackKeepsDescending | videofront_xblock/public/js/xblock.js:128 | inserting a source with a `res` into a descending list of sources with a `res` keeps it descending |
| Sources.SortSources | videofront_xblock/public/js/xblock.js:128 | the sorted list is a permutation of the input; when every `res` is present it is in non-increasing order of resolution |
| Sources.SortKeepsOrderedInput | videofront_xblock/public/js/xblock.js:128 | a list where no pair is out of order for the comparator comes out of the sort unchanged |
| Sources.SortIdempotent | videofront_xblock/public/js/xblock.js:128 | when every `res` is present, sorting a sorted list changes nothing |
| Sources.SortLeavesUnrankedAlone | videofront_xblock/public/js/xblock.js:140-141 | a list of sources that all lack a `res` is not reordered |
| Sources.Keep | videofront_xblock/public/js/xblock.js:128 | the sources of the list carrying a given `res`, in list order: each is a member of the list with that `res`, and there are none when no source has it |
| Sources.KeepInsertBack | videofront_xblock/public/js/xblock.js:128 | one insertion step leaves the sources of every `res` in their order, with the inserted source at the end of its own `res` |
| Sources.SortIsStable | videofront_xblock/public/js/xblock.js:128 | sources sharing a `res` come out of the sort in their catalog order, for every list |
| Sources.KeepStartsAtFirstMatch | videofront_xblock/public/js/xblock.js:151-154 | the first source carrying a `res` is the first of the sources kept for that `res` |
| Sources.DefaultSource | videofront_xblock/public/js/xblock.js:150-157 | the first source in list order whose `res` equals the default; `sources[0]` when none does; `undefined` (null) exactly for an empty list |
| Sources.ChooseSrc | videofront_xblock/public/js/xblock.js:150-157 | the index loop returns exactly the source `DefaultSource` specifies |
| Sources.SortedChoiceHonoursDefault | videofront_xblock/public/js/xblock.js:128-131 | the source `updateSrc` sets is a member of the list it was given, and has the default `res` whenever some source of the list has it |
| Sources.SortKeepsDefaultChoice | videofront_xblock/public/js/xblock.js:128-131 | when some source carries the default `res`, `chooseSrc` picks the same source from the sorted list as from the catalog: the first of them in catalog order |
| Sources.ExampleDefaultChosen | videofront_xblock/public/js/xblock.js:184 | 720, 512, 1080 sort to 1080, 720, 512, and the configured default 512 is chosen |
| Sources.ExampleUnrankedBlocksReordering | videofront_xblock/public/js/xblock.js:140-143 | 720, (no res), 1080 is left in place by the sort and, with no 512 on offer, the first source is chosen |
| ResolutionSwitcher.MenuItem.constructor | videofront_xblock/public/js/xblock.js:25-30 | the item copies the four attributes of its source and starts unselected |
| ResolutionSwitcher.MenuItem.CheckIfSelected | videofront_xblock/public/js/xblock.js:43-52 | `aria-selected` is true exactly when the current source's `res` equals the item's `res`, and `vjs-selected` agrees with it |
| ResolutionSwitcher.MenuItem.SwitchResolution | videofront_xblock/public/js/xblock.js:35-42 | a click always swaps in a new source with the item's attributes, keeping position and play state (the swap `Swapped` describes) |
| ResolutionSwitcher.MenuButton.constructor | videofront_xblock/public/js/xblock.js:61-78 | one new unselected item per source, in source order, each mirroring its source |
| ResolutionSwitcher.MenuButton.UpdateLabel | videofront_xblock/public/js/xblock.js:79-87 | the value label becomes the current source's label; a source without a `label` leaves the previous text, since `html(undefined)` sets nothing |
| ResolutionSwitcher.MenuButton.Dispose | videofront_xblock/public/js/xblock.js:123-125 | the menu is disposed and nothing else about it changes |
| ResolutionSwitcher.Player.constructor | videofront_xblock/public/js/xblock.js:180-185 | a player with the configured default, no source, no menu ever attached, at position 0, paused, the big play button shown and no `resolutionchange` yet |
| ResolutionSwitcher.VideoPlayer | videofront_xblock/public/js/xblock.js:159-185 | the page's player is configured with the default resolution 512; with more than one `<source>` tag it comes back with one live menu over the sorted tags, the default source current and exactly one `resolutionchange`; otherwise with no source, no menu and no event |
| ResolutionSwitcher.AtMostOneLiveMenu | videofront_xblock/public/js/xblock.js:122-130 | of all the menus ever attached, only the one in the control-bar slot is not disposed |
| ResolutionSwitcher.Player.Load | videofront_xblock/public/js/xblock.js:90 | the engine loads the source: position 0, paused |
| ResolutionSwitcher.Player.Play | videofront_xblock/public/js/xblock.js:110 | the media is playing and one more play request was made |
| ResolutionSwitcher.Player.SetCurrentTime | videofront_xblock/public/js/xblock.js:108 | the position becomes the given value |
| ResolutionSwitcher.Player.SetSrc | videofront_xblock/public/js/xblock.js:89-94 | the source is loaded and current; exactly one `resolutionchange` carrying it is recorded; the live menu then shows it; no other field changes |
| ResolutionSwitcher.Player.ChangeSrc | videofront_xblock/public/js/xblock.js:95-117 | the very object already current changes nothing at all, and no event is recorded; any other source becomes current, hides the big play button, keeps the captured position and paused flag, plays again if it was playing and adds `vjs-has-started` if it was paused, recording one `resolutionchange` and attaching or disposing no menu |
| ResolutionSwitcher.Player.ReplaceMenu | videofront_xblock/public/js/xblock.js:122-130 | the menu in the control-bar slot, if any, is disposed, and a new one holding fresh items that mirror the given sources, in order, is attached and takes the slot; every other menu ever attached stays disposed |
| ResolutionSwitcher.Player.UpdateSrc | videofront_xblock/public/js/xblock.js:119-132 | the old menu is disposed and a new one, added to the attached menus and the only one not disposed, lists the sorted sources; the current source is `chooseSrc` of the sorted list, announced by exactly one `resolutionchange` and shown by the menu |
| Transcript.LastShowing | videofront_xblock/public/js/xblock.js:216-222 | the index of the last showing track, or -1 exactly when no track shows |
| Transcript.RetriedTracks | videofront_xblock/public/js/xblock.js:245-246 | the retried tracks are showing tracks of the list whose cues are missing or empty |
| Transcript.RetriedTracksComplete | videofront_xblock/public/js/xblock.js:245-246 | every showing track whose cues are missing or empty is among the retried tracks |
| Transcript.RetriedTracksSplit | videofront_xblock/public/js/xblock.js:216-222 | the retries of a list are those of its first part followed by those of the rest, so they follow the order of the tracks |
| Transcript.FirstRowKeyed | videofront_xblock/public/js/xblock.js:274-279 | the first line whose key is the given start time, or the number of lines when there is none |
| Transcript.TranscriptPanel.constructor | videofront_xblock/public/js/xblock.js:204-205 | an empty transcript with no highlight, not enabled, no retry pending |
| Transcript.TranscriptPanel.ShowTranscript | videofront_xblock/public/js/xblock.js:234-263 | a track that is not showing changes nothing; missing or empty cues ask for a retry; `null` cues raise without rendering; otherwise one line per cue in cue order keyed by start time, no highlight, enabled, width 61% |
| Transcript.TranscriptPanel.DisableTranscript | videofront_xblock/public/js/xblock.js:265-268 | the panel is not enabled and the width is 100% |
| Transcript.TranscriptPanel.OnTrackChange | videofront_xblock/public/js/xblock.js:213-226 | without a raise, the panel ends enabled exactly when some track is showing; the last showing track before any raise is the one rendered; with no showing track the transcript is disabled and its lines kept; retries are those of the tracks visited |
| Transcript.TranscriptPanel.RenderShowing | videofront_xblock/public/js/xblock.js:215-222 | the loop of the listener: up to the first track that raises, every showing track is rendered, so the last one shown is the one on screen; it reports whether some track was showing, and records the retries of the tracks it visited |
| Transcript.TranscriptPanel.OnCueChange | videofront_xblock/public/js/xblock.js:270-284 | the highlighted lines are exactly those whose key is the start time of some active cue; with an active cue the scroll target is `scrollTop - containerTop + rowTop` of the first line keyed by the last active cue, and it raises exactly when no such line exists; with none nothing scrolls |
| Transcript.TranscriptPanel.ClickRow | videofront_xblock/public/js/xblock.js:260-262 | clicking a line seeks the player to the line's key |
| VideoContext.GetVideoContext | videofront_xblock/videofront_xblock.py:99-170 | the outcome is the one `ContextOutcome` prescribes: id, then host, then token, then the URL (a non-ASCII host or id raises and escapes), then transport, then status code, then processing status |
| VideoContext.AtMostOneMessage | videofront_xblock/videofront_xblock.py:109-170 | at most one message; exactly one, never `info`, whenever the call returns with an empty video; an `info` message only comes with a video |
| VideoContext.ContextOutcomeIsUnique | videofront_xblock/videofront_xblock.py:109-170 | the ladder determines video, messages, request and whether it raises uniquely from its inputs |
| VideoContext.SettingsWording | videofront_xblock/videofront_xblock.py:111-128 | a missing id, host or token is reported as a `warning` with the text of its rung |
| VideoContext.ConnectionWording | videofront_xblock/videofront_xblock.py:138-144 | a connection error is reported as an `error` saying the server could not be reached |
| VideoContext.StatusWording | videofront_xblock/videofront_xblock.py:146-154 | 403 gives the `error` "Authentication error", 404 the `warning` "Incorrect video id", any other status of 400 or more the `error` "An unknown error has occurred" |
| VideoContext.ProcessingWording | videofront_xblock/videofront_xblock.py:156-167 | status `processing` gives an `info` with the processing text, status `failed` a `warning` with the failure text |
| VideoContext.MissingIdIgnoresSettings | videofront_xblock/videofront_xblock.py:111-116 | an empty or missing id yields one warning and no video or request, whatever the settings and the server |
| VideoContext.HostCheckedBeforeToken | videofront_xblock/videofront_xblock.py:117-128 | with the host missing or empty, the host is the one reported, whatever the token |
| VideoContext.RequestOnlyWithCredentials | videofront_xblock/videofront_xblock.py:131-137 | a request is made exactly when id, host and token are non-empty and host and id are ASCII, to `{host}/api/v1/videos/{id}/` with `Token {token}`; with the credentials present and a non-ASCII host or id, the call raises instead |
| VideoContext.Reverse | videofront_xblock/videofront_xblock.py:187 | element `i` of the result is element `n - 1 - i` of the input |
| VideoContext.GetDownloadsContext | videofront_xblock/videofront_xblock.py:172-194 | one download per format, formats in reverse order, url copied, label from the known names or the raw name; no formats give no downloads |
| VideoContext.DownloadLabelShowsRawNameOnlyWhenUnknown | videofront_xblock/videofront_xblock.py:191 | the label is the raw name exactly when the name is not HD, SD or LD |
| VideoContext.DownloadsReverseFormats | videofront_xblock/videofront_xblock.py:185-187 | the downloads read back to front give the format urls in their original order |
| VideoContext.TextStart | videofront_xblock/videofront_xblock.py:63 | the number of leading whitespace characters: all before it are whitespace, the one at it is not |
| VideoContext.TextEnd | videofront_xblock/videofront_xblock.py:63 | the end of the text: all after it are whitespace, the one before it is not |
| VideoContext.Strip | videofront_xblock/videofront_xblock.py:63 | the result is a slice of the input with only whitespace cut on either side, and it neither starts nor ends with whitespace; it is empty exactly when the input is all whitespace |
| VideoContext.StripIdempotent | videofront_xblock/videofront_xblock.py:62-63 | stripping an already stripped id changes nothing |
| VideoContext.StudentView | videofront_xblock/videofront_xblock.py:57-65 | the id is stripped (and that is what the JavaScript receives), the video and messages follow `ContextOutcome` for the stripped id, the downloads are empty unless downloads are allowed, the display name is passed through, and an escaping exception is reported |

## Left out

- `setup.py` is packaging metadata and a walk of the file system; it is not part of this model.
- Template rendering, `Fragment` construction, `pkg_resources` reads and `ugettext_lazy` translation in `student_view` are foreign calls: the model ends at the context dictionary. The message `Wording` is the untranslated English text.
- `requests.get` and `json.loads` are foreign calls. The HTTP outcome is the parameter `fetch`, already decoded. A body that is not JSON and the logging of errors are not modelled.
- VideoContext.GetVideoContext: the `KeyError` raised by a malformed success body is not modelled. This covers a body without `processing`, a `processing` object without `status`, and a `processing` status without `progress`. `VideoDoc` always has these fields.
- Exceptions of `requests.get` other than `requests.ConnectionError` are not modelled. Examples are `ReadTimeout`, `MissingSchema` or `InvalidURL` for a host without a scheme, and `TooManyRedirects`. The `except` does not catch them, so in the code they propagate out of `get_video_context` and `student_view`. `HttpOutcome` has no case for them.
- A format without a `url` or `name` key is not modelled. There, `source['url']` or `source['name']` raises `KeyError`; a `Format` always has both fields.
- A `formats` key whose value is JSON `null` is not modelled. There, `None[::-1]` raises `TypeError`; the model's `formats` is either absent or a list.
- The `{:.2f}` formatting of the processing progress is float formatting. The message carries the progress value instead.
- `settings.get_settings_bucket` is a runtime service; the settings are a map parameter.
- The RequireJS loading of video.js and the plugin registration are library wiring. The jQuery scan of the `<source>` tags is taken as its result: `VideoPlayer` receives the tags as sources, in document order, and applies the guard "more than one `<source>` tag" to them.
- A `<source>` tag without a `src` or `type` attribute gives `undefined` there. The model holds both as strings, because they are only passed to the engine, which is opaque. A missing `label` is modelled (`None`).
- ResolutionSwitcher.Player.UpdateSrc: the argument-less call `updateSrc()`, which returns the engine's current source, is not modelled. The precondition `|sources| > 0` reflects the only call site, whose guard it is. It also keeps `chooseSrc` from returning `undefined`.
- The CSS tweaks, the jQuery element mechanics and the 500 ms scroll animation are left out. The scroll is modelled as its target value. Pixel offsets are parameters (`containerTop`, `rowTop`).
- The `window.setTimeout` retry is event-loop timing. It is modelled as the record `retries` of tracks whose render was scheduled again, not as a later call.
- The track-list `change` listener and each track's `cuechange` listener are registered once, on the first `loadedmetadata`. A track added later never gets a `cuechange` listener. The model takes the listeners as registered and does not model when they are registered.
- Analytics logging (`logTime`, `logOnEvent`, `console.log`) is a telemetry sink and is not modelled.
- The internals of video.js are opaque, apart from the load/play effects stated on `Load` and `Play`. This covers media loading, error events, component trees and the `dispose` of child components.
- The `resolutionchange` listeners of a disposed menu stay attached to the player in the code, but their elements are gone. The model updates only the menu in the slot, and keeps the others in the ghost set `attached`, all disposed.
- `res` strings that are not decimal integers (which turn into `NaN` under `+`), or that are decimal but not canonical (such as "0512", which is not `===` "512"), are outside the `Res` datatype.
- `Array.prototype.sort` sorts the caller's array in place. The model returns a new sequence, so the aliasing of the caller's array is not captured.
- Sources.SortSources: for lists that mix sources with and without a `res`, the order proved is that of a stable insertion sort. The JavaScript engine's own algorithm may order them differently.
- The HTML of a cue's text is inserted unescaped into the page. A row holds the text as given.
- Transcript.TranscriptPanel.ClickRow: the `begin` attribute is read back as a string that video.js converts to a number. The model seeks to the key directly.
- Python 2's `unicode.strip()` whitespace set follows the Unicode database of its build. `IsSpace` fixes the set of Python 2.7.
