# getcourse_scraper — a verified model of the download pipeline

getcourse_scraper downloads the video lessons of a GetCourse portal. It logs
in once with an email and a password, and keeps the session cookie. For each
configured category it fetches the category's listing page and collects the
lesson links. For each lesson it then:

- reads the lesson page for its title and the URL of its embedded player;
- reads the player page for the inline `window.configs =` script and takes
  the master HLS playlist URL from it;
- picks the 1920x1080 rendition of that master playlist (RFC 8216);
- fetches the rendition's media playlist;
- writes every segment, in playlist order, into
  `<download dir>/<category name>/<index>. <title>.mp4`, with `index`
  counted from zero.

The first error, or the first failed `unwrap`, ends the whole run.

This project models that core in Dafny:

- `common.dfy` (`Common`) holds the error type `CmsError`, the three
  `unwrap` sites that can panic (`PanicSite`), and `Result` and `Option`.
- `text.dfy` (`Text`) holds the string operations the client uses:
  - substring search and `replace(pat, "")`;
  - Unicode `trim`;
  - deleting `"` characters;
  - `join(" ")`;
  - decimal formatting of the index;
  - the lesson file path.
- `markup.dfy` (`Markup`) holds the four scans over parsed HTML:
  - the `href`s of `ul a`;
  - the first `data-iframe-src` among `div[id^=vhi-root-]`;
  - the last `h2`;
  - the `script` loop that finds the master playlist URL.

  Each scan is a method with the source's loop, proved equal to a
  specification function.
- `hls.dfy` (`Hls`) holds playlists after parsing, the 1920x1080 selection
  loop, and what a fetched master or media playlist yields.
- `storage.dfy` (`Storage`) holds the file system as a class `Disk`:
  - a map from paths to contents;
  - a policy saying which paths can be created and how large a file can grow.

  `File::create` and `write_all` are its methods.
- `pipeline.dfy` (`Pipeline`) states each client operation as a function of
  the environment `Env`: the HTTP requests it sends, in order, its result
  and, for a lesson, the file it leaves. Lemmas state what a lesson writes.
- `client.dfy` (`Client`) holds the class `CmsClient`. It has two ghost logs:
  - `sent`, the requests the client issues, in order;
  - `calls`, the top-level calls made on the client.

  Each method is proved to append exactly the requests its `Pipeline`
  function sends and to return that function's result. `DownloadLesson` also
  states the whole new content of the disk.
- `orchestrator.dfy` (`Orchestrator`) models `main`:
  - the function `Run` gives the calls made and the result;
  - the independent `Plan` gives what a run is meant to do;
  - lemmas relate the two (login first and only once, the plan followed in
    order, stopping at the first error, lessons numbered by position);
  - the method `RunScraper` has the loops of `main` and is proved to make
    exactly the calls of `Run`.

The environment `Env` is the boundary of the model. It holds:

- the configuration (email, password, root URL, download directory);
- the server's reply to each request (`net`);
- the result of HTML parsing and CSS selection (`parseHtml`);
- the HLS parser (`parsePlaylist`);
- the JSON lookup of `masterPlaylistUrl` (`parseConfig`).

The `Disk` policy decides which file creations and writes fail.

## Model

| member | source | states |
|---|---|---|
| Text.Contains | src/cms/mod.rs:179 | the marker test; `Text.ContainsOccurs` proves it holds exactly when the pattern starts at some position of the text |
| Text.ContainsOccurs | src/cms/mod.rs:179 | `Contains` is substring occurrence: true exactly when some suffix of the text starts with the pattern |
| Text.RemoveAll | src/cms/mod.rs:183 | removing the marker never lengthens the text; the four lemmas below characterise the single left-to-right pass |
| Text.RemoveAllUntouched | src/cms/mod.rs:183 | a script text that does not contain the marker comes out of the marker removal unchanged |
| Text.RemoveAllShortens | src/cms/mod.rs:179-183 | a text that contains the marker loses at least the marker's length when every marker is removed |
| Text.RemoveAllLeading | src/cms/mod.rs:183 | a marker at the very start of the text is removed, and removal goes on with the text after it |
| Text.RemoveAllCanLeaveOccurrence | src/cms/mod.rs:183 | removal is a single left-to-right pass: removing "ab" from "aabb" leaves "ab", so the result can still contain the pattern |
| Text.Trim | src/cms/mod.rs:184 | the result has no whitespace at either end and is no longer than the input; `Text.TrimPadding` shows it is exactly the core between the leading and trailing whitespace |
| Text.TrimStart | src/cms/mod.rs:184 | the result is a suffix of the input, everything dropped is whitespace, and the result does not start with whitespace |
| Text.TrimEnd | src/cms/mod.rs:184 | the result is a prefix of the input, everything dropped is whitespace, and the result does not end with whitespace |
| Text.TrimPadding | src/cms/mod.rs:184 | trimming a text that is whitespace, then a core with no whitespace at either end, then whitespace, gives exactly the core |
| Text.TrimIdempotent | src/cms/mod.rs:184 | a trimmed text has no whitespace at either end, and trimming it again changes nothing |
| Text.StripQuotes | src/cms/mod.rs:187 | the result contains no double quote, is no longer than the input, and equals the input when the input has no quote |
| Text.StripQuotesLength | src/cms/mod.rs:187 | exactly the double quotes are deleted: the result is shorter than the input by the number of quotes in it |
| Text.StripQuotesAppend | src/cms/mod.rs:187 | quote deletion works piece by piece (the result for `a + b` is the result for `a` followed by the result for `b`), so every other character keeps its order |
| Text.Join | src/cms/mod.rs:156 | text nodes joined with a separator between neighbours; `Text.JoinSnoc` characterises it |
| Text.JoinSnoc | src/cms/mod.rs:156 | joining one more text node adds a single separator and then that node |
| Text.Decimal | src/cms/mod.rs:257 | the index is written as a non-empty string of decimal digits without a leading zero, except for zero itself |
| Text.DecimalRoundTrip | src/cms/mod.rs:257 | reading the decimal text of an index back as a number gives the index |
| Text.LessonPath | src/cms/mod.rs:257 | the lesson file path starts with `<dir>/<folder>/` and ends with `.mp4` |
| Text.LessonPathIndex | src/cms/mod.rs:257 | a lesson's file path starts with `<dir>/<folder>/`, and the digits that follow are its index |
| Text.LessonPathsDistinct | src/cms/mod.rs:257 | two lessons of one folder with different indices never write to the same file, whatever their titles |
| Markup.Hrefs | src/cms/mod.rs:116-128 | link discovery gives at most one link per matched anchor |
| Markup.HrefsAppend | src/cms/mod.rs:122-126 | the links of two runs of anchors are the links of the first followed by those of the second, so document order is kept |
| Markup.HrefsAllPresent | src/cms/mod.rs:122-126 | when every anchor has an `href`, the links are exactly those `href` values, one per anchor, in order |
| Markup.HrefsNoneEmpty | src/cms/mod.rs:122-126 | anchors without an `href` give no links |
| Markup.CollectHrefs | src/cms/mod.rs:116-128 | the collecting loop returns exactly the `href`s of the anchors, in document order |
| Markup.PlayerUrl | src/cms/mod.rs:135-152 | the player URL is the `data-iframe-src` of the first root element that has one, and the empty string when none has one |
| Markup.FindPlayerUrl | src/cms/mod.rs:144-152 | the loop that breaks at the first root element with the attribute returns that first player URL |
| Markup.LastHeading | src/cms/mod.rs:154-157 | the title is the text of the last `h2`, or "" without one; `Markup.LastHeadingIgnoresEarlier` and `Markup.HeadingTitle` state its properties |
| Markup.LastHeadingIgnoresEarlier | src/cms/mod.rs:154-157 | the title comes from the last `h2`: headings before a non-empty tail of headings do not matter |
| Markup.HeadingTitle | src/cms/mod.rs:134-157 | the title loop returns the joined text of the last `h2`, or "" when there is none |
| Markup.ConfigBody | src/cms/mod.rs:183-184 | the configuration text, with the marker removed, has no whitespace at either end and is no longer than the script text |
| Markup.ExtractMasterUrl | src/cms/mod.rs:183-187 | a marked script yields a URL without any double quote, or a panic (text not JSON, or `masterPlaylistUrl` missing), never an ordinary error |
| Markup.MasterPlaylistUrl | src/cms/mod.rs:172-188 | the script scan yields a URL free of quotes or a panic, never an ordinary error |
| Markup.MasterUrlPanicSticky | src/cms/mod.rs:185-187 | once a script panics, later scripts do not matter |
| Markup.MasterUrlSkipsUnmarked | src/cms/mod.rs:179-181 | a script without the marker, wherever it is, has no effect on the outcome |
| Markup.MasterUrlNoMarker | src/cms/mod.rs:172-188 | with no marked script the URL stays the empty string |
| Markup.MasterUrlLastMarkedWins | src/cms/mod.rs:176-188 | when the earlier scripts do not panic, the last marked script alone decides the outcome: later marked scripts overwrite earlier URLs |
| Markup.FindMasterPlaylistUrl | src/cms/mod.rs:172-188 | the loop with `continue` and the panicking `unwrap`s has exactly the outcome of the script scan |
| Hls.FirstFullHd | src/cms/mod.rs:201-207 | no URI exactly when no variant is 1920x1080; otherwise the URI of the first 1920x1080 variant in playlist order |
| Hls.SelectRendition | src/cms/mod.rs:201-207 | the selection loop returns the first 1920x1080 variant's URI, passing over variants without a resolution |
| Hls.StreamChoice | src/cms/mod.rs:196-213 | a URI only from a master playlist, and then the first 1920x1080 variant's; nothing for a media playlist, a parse error or a master playlist without such a variant |
| Hls.MediaSegments | src/cms/mod.rs:224-233 | a result exactly when the body parsed as a media playlist, and then it is that playlist's segments; otherwise `MediaPlaylistNotFound` |
| Storage.Append | src/cms/mod.rs:266 | a write completes exactly when the data fits, and then the file is the old content followed by the data; otherwise the file is the old content followed by part of the data, within the size limit |
| Storage.Disk.constructor | src/cms/mod.rs:262-266 | the disk starts with the given files under the given policy |
| Storage.Disk.Create | src/cms/mod.rs:262 | creation succeeds exactly when the path can be created, and leaves an empty file there; on failure it is an `IOError` and no file changes |
| Storage.Disk.WriteAll | src/cms/mod.rs:266 | only the written file changes: it gets the appended (or partly appended) content; the result is `IOError` exactly when the write did not complete |
| Pipeline.CheckedBody | src/cms/mod.rs:107-117 | a strictly checked response gives its body exactly when it is a 2xx reply with a readable body; a non-2xx status is `RequestFailed`; other failures are `ReqwestError` |
| Pipeline.LenientBody | src/cms/mod.rs:237-244 | a leniently read response gives its body for any status; only a transport or body failure is an error (`ReqwestError`) |
| Pipeline.Login | src/cms/mod.rs:78-104 | login sends one POST to `<root>/cms/system/login`; it succeeds exactly when the reply has a 2xx status, and a non-2xx reply is `LoginFailed` |
| Pipeline.Links | src/cms/mod.rs:106-129 | link discovery sends one GET to `<root><url>`; it fails exactly when that response is not a readable 2xx reply, a non-2xx status is `RequestFailed`, and an empty list of links is a success |
| Pipeline.Page | src/cms/mod.rs:131-161 | page resolution sends one GET to `<root><link>`; it fails exactly when that response is not a readable 2xx reply, and a non-2xx status is `RequestFailed` |
| Pipeline.Stream | src/cms/mod.rs:163-214 | stream resolution first GETs the player URL and then at most one more URL, and a success sent both; a player page that is not a readable 2xx reply ends it with that failure and nothing else sent (`RequestFailed` for a non-2xx status); an empty player URL fails with `ReqwestError` |
| Pipeline.StreamOutcome | src/cms/mod.rs:172-213 | once the player page is read: a panic in the script scan ends resolution with nothing more sent; otherwise the second request is the scanned URL, the empty one failing with `ReqwestError`; the result is a success exactly when that playlist's body is readable, and then it is the rendition choice of the parsed playlist |
| Pipeline.StreamWithoutMarker | src/cms/mod.rs:172-190 | a player page without any marked script leaves the master URL empty, so the run requests "" and fails with `ReqwestError` |
| Pipeline.MediaPlaylistOf | src/cms/mod.rs:216-234 | one GET; success exactly when the body is readable and parses as a media playlist, whose segments are the result; an unreadable reply is `ReqwestError`, any other body `MediaPlaylistNotFound` |
| Pipeline.Download | src/cms/mod.rs:236-245 | one GET of the segment URL; a result exactly when a reply with a readable body came back, whatever its status, and then it is that body; otherwise `ReqwestError` |
| Pipeline.Resolve | src/cms/mod.rs:248-261 | lesson resolution sends only GETs, at least one; a resolved lesson had its page, a stream and a selected rendition |
| Pipeline.ResolveOutcome | src/cms/mod.rs:248-261 | resolution stops at the first failing step with that step's failure; a page without a player URL fails with `ReqwestError`; no selected rendition is the `NoRenditionSelected` panic; otherwise the lesson's segments are exactly those of the selected rendition's media playlist |
| Pipeline.AppendSegments | src/cms/mod.rs:264-267 | the segment loop sends only GETs and fails only with `ReqwestError` or `IOError` |
| Pipeline.AppendSegmentsPrefix | src/cms/mod.rs:264-267 | whatever fails, segments are fetched in playlist order, each at most once, and the file holds a prefix of the segments' bytes concatenated in order |
| Pipeline.AppendSegmentsComplete | src/cms/mod.rs:264-267 | the segment loop succeeds exactly when every segment is fetched and all the bytes fit; then the file holds every segment's bytes in order and each segment was fetched exactly once, in order |
| Pipeline.AppendSegmentsFetchFailure | src/cms/mod.rs:264-267 | when a segment cannot be fetched the loop stops there, and the file holds exactly the bytes of the earlier segments, in order |
| Pipeline.Lesson | src/cms/mod.rs:247-270 | a lesson download sends only GET requests |
| Pipeline.LessonFile | src/cms/mod.rs:247-270 | a lesson writes only its own `<dir>/<folder>/<index>. <title>.mp4`, holding a prefix of its segments; it succeeds exactly when it resolves, the file can be created, every segment arrives and all fit; then the file holds all the segments and each was fetched once, after the resolution requests |
| Client.CmsClient.constructor | src/cms/mod.rs:66-77 | a new client holds its configuration and has sent nothing |
| Client.CmsClient.Send | src/cms/mod.rs:93-97 | one request is issued and logged; the answer is the server's, except that the empty URL fails before anything is sent |
| Client.CmsClient.Login | src/cms/mod.rs:78-104 | sends exactly the login request and returns the login outcome of `Pipeline.Login` |
| Client.CmsClient.GetLinks | src/cms/mod.rs:106-129 | sends exactly the listing request and returns the listing's links as `Pipeline.Links` gives them |
| Client.CmsClient.GetPlaylistUrl | src/cms/mod.rs:131-161 | sends exactly the page request and returns the title and player URL of `Pipeline.Page` |
| Client.CmsClient.GetStreamUrl | src/cms/mod.rs:163-214 | sends exactly the player-page and playlist requests of `Pipeline.Stream` and returns its choice of rendition |
| Client.CmsClient.GetMediaPlaylist | src/cms/mod.rs:216-234 | sends one request and returns the segments of `Pipeline.MediaPlaylistOf` |
| Client.CmsClient.DownloadMedia | src/cms/mod.rs:236-245 | sends one request and returns the segment's bytes as `Pipeline.Download` gives them |
| Client.CmsClient.ResolveLesson | src/cms/mod.rs:248-261 | page, stream, unwrap of the selected rendition and media playlist, in order, as `Pipeline.Resolve` says |
| Client.CmsClient.AppendSegment | src/cms/mod.rs:265-266 | one turn of the segment loop: one fetch, only the lesson's file changes, and the loop either ends here or continues with the remaining segments |
| Client.CmsClient.WriteSegments | src/cms/mod.rs:264-267 | the segment loop sends the requests, leaves the file content and returns the result of `Pipeline.AppendSegments` from an empty file, and changes no other file |
| Client.CmsClient.DownloadLesson | src/cms/mod.rs:247-270 | a lesson download sends the requests and returns the result of `Pipeline.Lesson`; the disk changes only at the lesson's file, which holds the lesson's output |
| Orchestrator.Category | src/main.rs:4-7 | a category is the URL of its listing page and the name of its folder |
| Orchestrator.Lessons | src/main.rs:31-34 | the lesson loop as a function: the calls made and the result; `Orchestrator.LessonsFollowPlan` proves what it does |
| Orchestrator.CategoryRun | src/main.rs:28-34 | one category as a function: the listing call, then the lesson loop; `Orchestrator.CategoriesFollowPlan` proves what it does |
| Orchestrator.Categories | src/main.rs:27-36 | the category loop as a function, stopping at the first failure; `Orchestrator.CategoriesFollowPlan` proves what it does |
| Orchestrator.Run | src/main.rs:25-36 | the whole program as a function: login, then the categories; `Orchestrator.RunFollowsPlan` and `Orchestrator.LoginExactlyOnce` prove what it does |
| Orchestrator.LessonCalls | src/main.rs:31-33 | the planned lesson calls are one per link, in listing order, each numbered by its position |
| Orchestrator.LessonsFollowPlan | src/main.rs:31-34 | the lessons of a listing are downloaded in listing order, numbered from zero, into the category's folder; a run that succeeds downloads all of them; every lesson but the last attempted succeeded, and a failure is the last lesson's error |
| Orchestrator.CategoriesFollowPlan | src/main.rs:27-36 | categories are processed in order, each listed and then downloaded; the calls made are a prefix of the plan, all of it on success; the run stops at the first failing call |
| Orchestrator.RunFollowsPlan | src/main.rs:25-36 | a run logs in first, then follows the plan; it stops at the first failing call with that call's error, and a failed login ends the run after the login |
| Orchestrator.PlanHasNoLogin | src/main.rs:27-36 | the category loop never logs in again |
| Orchestrator.LoginExactlyOnce | src/main.rs:26-36 | the login is the first call of every run and is never repeated |
| Orchestrator.PlanLessonsNumbered | src/main.rs:30-33 | every planned lesson call downloads link `i` of a category's listing, as lesson `i`, into the folder named after that category |
| Orchestrator.FilesAfterFrame | src/main.rs:31-34 | a path no lesson of a run of calls writes keeps its content, or stays absent |
| Orchestrator.FilesAfterLastWriter | src/main.rs:31-34 | the last lesson that writes a path decides what the file holds |
| Orchestrator.RunLeavesLessonFiles | src/main.rs:25-36 | after a successful run, every lesson's file `<dir>/<category>/<index>. <title>.mp4` holds all segments of its rendition in playlist order, unless a later lesson of the run wrote the same path |
| Orchestrator.DownloadListing | src/main.rs:31-34 | the lesson loop makes exactly the calls of `Lessons` and returns its result; every request it sends is a GET; the disk afterwards is what those calls leave (`FilesAfter`) |
| Orchestrator.DownloadCategory | src/main.rs:28-34 | one category makes the listing call and then the lesson calls of `CategoryRun`; every request it sends is a GET; the disk afterwards is what those calls leave |
| Orchestrator.DownloadCategories | src/main.rs:27-36 | the category loop makes exactly the calls of `Categories` and returns its result; every request it sends is a GET; the disk afterwards is what those calls leave |
| Orchestrator.RunScraper | src/main.rs:25-38 | the program makes exactly the calls of `Run` and ends with its result; the first request is the login POST and every later request is a GET; after a failed login nothing else is sent; the disk afterwards is what the run's lesson calls leave, in order |

## Left out

- HTTP transport, cookies and `async`: the reply to each request is `Env.net`, a function of the request alone. Two identical requests therefore get identical replies. The cookie jar that carries the session is not modelled.
- HTML parsing and the CSS selectors `ul a`, `div[id^=vhi-root-]`, `h2` and `script` are not modelled. A parsed page is the element sequences those selectors match (`Markup.Document`), given by `Env.parseHtml`.
- HLS parsing with m3u8-rs is not modelled: `Env.parsePlaylist` gives a master playlist, a media playlist or a parse error.
- JSON parsing with serde_json is not modelled. `Env.parseConfig` says whether the configuration text is JSON and, if it is, gives the serialised `masterPlaylistUrl` field.
- The login form's constant fields (`action`, `xdgetId`, `params[...]`) are not modelled. The login request carries only its URL, the email and the password.
- `create_dir_all` for the lesson folder is not modelled. Its outcome is only printed. Whether the file can then be created is decided by the disk policy.
- Every `println!` diagnostic is left out, including the "Downloading category" line of `main`.
- Reading `EMAIL`, `PASSWORD`, `ROOT_URL` and `DOWNLOAD_DIR` from the environment (with `.env`) is left out, and so is the fixed category list of `main`. They are parameters of `RunScraper`.
- Building the `reqwest` client cannot fail in the model.
- URL parsing by `reqwest` is modelled only for the empty string, which fails before anything is sent. Whether another string is an absolute URL is left to `Env.net`: a string that does not parse should be answered with a failed send.
- The error payloads of `CmsError` and its `Display`, `Error`, `Debug` and `From` implementations are left out. `ReqwestError`, `SerdeError` and `IOError` carry no inner error. `SerdeError` is never produced, because every JSON step is unwrapped.
- A panic from `unwrap` is modelled as a `Panic` outcome that ends the run, like an error does. Unwinding and the process exit are not modelled.
- Disk failures other than a refused path or a full disk are not modelled. Any other write failure behaves like the size limit: part of the data is written and the write fails.
- The `usize` lesson index is an unbounded `nat`.
- The ghost logs record the calls made and the requests sent. They do not record time or interleaving; the source runs everything sequentially.

## Behaviour of the code worth noting

- A status outside the success class is an error only for the login (`src/cms/mod.rs:99`), the listing page (112), the lesson page (137) and the player page (166). For the master playlist (191), the media playlist (219) and each segment (239) it is only printed, and the body is used (`Pipeline.LenientBody`).
- Three `unwrap`s panic instead of returning an error:
  - the configuration text is not JSON (185);
  - the JSON object has no `masterPlaylistUrl` (187);
  - no 1920x1080 rendition is found (258).
- When no script carries the configuration marker, `playlist_url` stays the empty string. The master playlist request at line 190 then fails with `ReqwestError` before anything is sent, because the empty string is not a URL (`Pipeline.StreamWithoutMarker`). A lesson page without `data-iframe-src` likewise gives the empty player URL, and the request at line 164 fails the same way.
- The configuration marker is removed with one left-to-right pass, so the text can still contain the marker afterwards (`Text.RemoveAllCanLeaveOccurrence`).
