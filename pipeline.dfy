/** The client's operations as values: for each one, the HTTP requests it
    sends, in order, and its result; for a lesson also the file it leaves
    behind. The network, the HTML parser, the playlist parser and the JSON
    lookup are parameters (`Env`), so every operation is a function of them.
    The client class is proved to behave as these functions say. */
module Pipeline {
  import opened Common
  import opened Text
  import opened Markup
  import opened Hls
  import opened Storage

  datatype Request =
    | Get(url: string)
    | PostLogin(url: string, email: string, password: string)

  /** What the transport gives back for a request: a failure to send, or a
      status code with the body (absent when reading the body failed). */
  datatype Exchange = SendFailed | Reply(status: nat, body: Option<Bytes>)

  /** The success class of HTTP status codes. */
  predicate IsSuccess(status: nat)
  {
    200 <= status < 300
  }

  /** The client's configuration and the capabilities it relies on: the
      server's answer to each request, the HTML selectors, the playlist
      parser and the JSON field lookup. */
  datatype Env = Env(
    email: string,
    password: string,
    rootUrl: string,
    downloadDir: string,
    net: Request -> Exchange,
    parseHtml: Bytes -> Document,
    parsePlaylist: Bytes -> Playlist,
    parseConfig: string -> ConfigLookup)

  /** What the client gets back for a request. The URL is parsed before
      anything goes out and the empty string is not a URL, so a request to it
      fails at once with a transport error; every other request is answered
      by `net`. */
  function Answer(env: Env, req: Request): Exchange
  {
    if req.url == "" then SendFailed else env.net(req)
  }

  predicate OnlyGets(requests: seq<Request>)
  {
    forall i :: 0 <= i < |requests| ==> requests[i].Get?
  }

  /** The requests an operation sent and what it returned. */
  datatype Traced<T> = Traced(sent: seq<Request>, result: Result<T>)

  /** The body of a page whose status is checked: a status outside the
      success class is `RequestFailed`, a transport failure `ReqwestError`. */
  function CheckedBody(ex: Exchange): (r: Result<Bytes>)
    ensures r.Ok? <==> ex.Reply? && IsSuccess(ex.status) && ex.body.Some?
    ensures r.Ok? ==> r.value == ex.body.value
    ensures ex.Reply? && !IsSuccess(ex.status) ==> r == Fail(Error(RequestFailed))
    ensures r.Fail? ==> r.fault in {Error(RequestFailed), Error(ReqwestError)}
  {
    match ex
    case SendFailed => Fail(Error(ReqwestError))
    case Reply(status, body) =>
      if !IsSuccess(status) then Fail(Error(RequestFailed))
      else match body
        case Some(b) => Ok(b)
        case None => Fail(Error(ReqwestError))
  }

  /** The body of a response whose status is only reported: any status is
      accepted, only a transport failure is an error. */
  function LenientBody(ex: Exchange): (r: Result<Bytes>)
    ensures r.Ok? <==> ex.Reply? && ex.body.Some?
    ensures r.Ok? ==> r.value == ex.body.value
    ensures r.Fail? ==> r.fault == Error(ReqwestError)
  {
    match ex
    case SendFailed => Fail(Error(ReqwestError))
    case Reply(_, body) =>
      match body
      case Some(b) => Ok(b)
      case None => Fail(Error(ReqwestError))
  }

  function LoginUrl(env: Env): string
  {
    env.rootUrl + "/cms/system/login"
  }

  function LoginRequest(env: Env): Request
  {
    PostLogin(LoginUrl(env), env.email, env.password)
  }

  /** Login posts the form once; success is judged by the status alone and
      the body is never read. */
  function Login(env: Env): (t: Traced<()>)
    ensures t.sent == [LoginRequest(env)]
    ensures t.result.Ok? <==>
              Answer(env, LoginRequest(env)).Reply? && IsSuccess(Answer(env, LoginRequest(env)).status)
    ensures Answer(env, LoginRequest(env)).Reply? && !IsSuccess(Answer(env, LoginRequest(env)).status) ==>
              t.result == Fail(Error(LoginFailed))
  {
    var req := LoginRequest(env);
    Traced([req],
      match Answer(env, req)
      case SendFailed => Fail(Error(ReqwestError))
      case Reply(status, _) => if IsSuccess(status) then Ok(()) else Fail(Error(LoginFailed)))
  }

  /** Link discovery on the listing page at `rootUrl + url`. */
  function Links(env: Env, url: string): (t: Traced<seq<string>>)
    ensures t.sent == [Get(env.rootUrl + url)]
    ensures t.result.Fail? <==> CheckedBody(Answer(env, Get(env.rootUrl + url))).Fail?
    ensures Answer(env, Get(env.rootUrl + url)).Reply? && !IsSuccess(Answer(env, Get(env.rootUrl + url)).status) ==>
              t.result == Fail(Error(RequestFailed))
  {
    var req := Get(env.rootUrl + url);
    Traced([req],
      match CheckedBody(Answer(env, req))
      case Fail(f) => Fail(f)
      case Ok(body) => Ok(Hrefs(env.parseHtml(body).listAnchors)))
  }

  /** A lesson page resolved: its title and the URL of its embedded player. */
  datatype LessonPage = LessonPage(title: string, playerUrl: string)

  /** Page resolution on the lesson page at `rootUrl + link`. */
  function Page(env: Env, link: string): (t: Traced<LessonPage>)
    ensures t.sent == [Get(env.rootUrl + link)]
    ensures t.result.Fail? <==> CheckedBody(Answer(env, Get(env.rootUrl + link))).Fail?
    ensures Answer(env, Get(env.rootUrl + link)).Reply? && !IsSuccess(Answer(env, Get(env.rootUrl + link)).status) ==>
              t.result == Fail(Error(RequestFailed))
  {
    var req := Get(env.rootUrl + link);
    Traced([req],
      match CheckedBody(Answer(env, req))
      case Fail(f) => Fail(f)
      case Ok(body) =>
        var doc := env.parseHtml(body);
        Ok(LessonPage(LastHeading(doc.headings), PlayerUrl(doc.playerRoots))))
  }

  /** The body of the player page at `playerUrl`, its status checked. */
  function PlayerPage(env: Env, playerUrl: string): Result<Bytes>
  {
    CheckedBody(Answer(env, Get(playerUrl)))
  }

  /** The master playlist URL the player page's scripts give. */
  function ScannedMasterUrl(env: Env, page: Bytes): Result<string>
  {
    MasterPlaylistUrl(env.parseConfig, env.parseHtml(page).scripts)
  }

  /** Manifest resolution: fetch the player page, find the master playlist
      URL in its scripts, fetch that playlist (whatever its status) and pick
      its 1920x1080 rendition. When no script carries the marker the URL is
      still the empty string and its request fails, so an empty player URL
      and a page without the marker both end in `ReqwestError`. */
  function Stream(env: Env, playerUrl: string): (t: Traced<Option<string>>)
    ensures 1 <= |t.sent| <= 2 && t.sent[0] == Get(playerUrl) && OnlyGets(t.sent)
    ensures t.result.Ok? ==> |t.sent| == 2
    ensures PlayerPage(env, playerUrl).Fail? ==>
              t == Traced([Get(playerUrl)], Fail(PlayerPage(env, playerUrl).fault))
    ensures Answer(env, Get(playerUrl)).Reply? && !IsSuccess(Answer(env, Get(playerUrl)).status) ==>
              t == Traced([Get(playerUrl)], Fail(Error(RequestFailed)))
    ensures playerUrl == "" ==> t == Traced([Get("")], Fail(Error(ReqwestError)))
  {
    var first := Get(playerUrl);
    match CheckedBody(Answer(env, first))
    case Fail(f) => Traced([first], Fail(f))
    case Ok(page) =>
      match MasterPlaylistUrl(env.parseConfig, env.parseHtml(page).scripts)
      case Fail(f) => Traced([first], Fail(f))
      case Ok(masterUrl) =>
        var second := Get(masterUrl);
        match LenientBody(Answer(env, second))
        case Fail(f) => Traced([first, second], Fail(f))
        case Ok(body) => Traced([first, second], Ok(StreamChoice(env.parsePlaylist(body))))
  }

  /** Once the player page is read, its scripts decide: a panic in the scan
      ends resolution with nothing more sent; otherwise the scanned URL is
      the second and last request, the empty one failing, and a success is
      the rendition choice of the playlist fetched from it. */
  lemma StreamOutcome(env: Env, playerUrl: string)
    requires PlayerPage(env, playerUrl).Ok?
    ensures var t := Stream(env, playerUrl);
            var scan := ScannedMasterUrl(env, PlayerPage(env, playerUrl).value);
            && (scan.Fail? ==> t == Traced([Get(playerUrl)], Fail(scan.fault)))
            && (scan == Ok("") ==> t == Traced([Get(playerUrl), Get("")], Fail(Error(ReqwestError))))
            && (scan.Ok? ==>
                  var master := LenientBody(Answer(env, Get(scan.value)));
                  && t.sent == [Get(playerUrl), Get(scan.value)]
                  && (t.result.Ok? <==> master.Ok?)
                  && (t.result.Ok? ==> t.result.value == StreamChoice(env.parsePlaylist(master.value))))
  {
  }

  /** A player page none of whose scripts carries the configuration marker
      leaves the master playlist URL empty, and the request for it fails. */
  lemma StreamWithoutMarker(env: Env, playerUrl: string)
    requires PlayerPage(env, playerUrl).Ok?
    requires forall i :: 0 <= i < |env.parseHtml(PlayerPage(env, playerUrl).value).scripts| ==>
               !Marked(env.parseHtml(PlayerPage(env, playerUrl).value).scripts[i])
    ensures Stream(env, playerUrl) == Traced([Get(playerUrl), Get("")], Fail(Error(ReqwestError)))
  {
    MasterUrlNoMarker(env.parseConfig, env.parseHtml(PlayerPage(env, playerUrl).value).scripts);
  }

  /** Media playlist acceptance: whatever the status, only a body that parses
      as a media playlist yields segments. */
  function MediaPlaylistOf(env: Env, url: string): (t: Traced<seq<Segment>>)
    ensures t.sent == [Get(url)]
    ensures t.result.Ok? <==>
              LenientBody(Answer(env, Get(url))).Ok? &&
              env.parsePlaylist(LenientBody(Answer(env, Get(url))).value).MediaPlaylist?
    ensures t.result.Ok? ==>
              t.result.value == env.parsePlaylist(LenientBody(Answer(env, Get(url))).value).segments
    ensures LenientBody(Answer(env, Get(url))).Fail? ==> t.result == Fail(Error(ReqwestError))
    ensures LenientBody(Answer(env, Get(url))).Ok? &&
            !env.parsePlaylist(LenientBody(Answer(env, Get(url))).value).MediaPlaylist? ==>
              t.result == Fail(Error(MediaPlaylistNotFound))
  {
    var req := Get(url);
    Traced([req],
      match LenientBody(Answer(env, req))
      case Fail(f) => Fail(f)
      case Ok(body) => MediaSegments(env.parsePlaylist(body)))
  }

  /** One segment's bytes, whatever the status: only a failed send or an
      unreadable body is an error. */
  function Download(env: Env, url: string): (t: Traced<Bytes>)
    ensures t.sent == [Get(url)]
    ensures t.result.Ok? <==> Answer(env, Get(url)).Reply? && Answer(env, Get(url)).body.Some?
    ensures t.result.Ok? ==> t.result.value == Answer(env, Get(url)).body.value
    ensures t.result.Fail? ==> t.result.fault == Error(ReqwestError)
  {
    var req := Get(url);
    Traced([req], LenientBody(Answer(env, req)))
  }

  /** What a lesson resolves to before its file is created. */
  datatype Resolved = Resolved(page: LessonPage, segments: seq<Segment>)

  /** The resolution steps of a lesson in order: page, stream, unwrap of the
      selected stream, media playlist. The first failure ends resolution; no
      selected rendition is a panic; a resolved lesson's segments are those
      of the selected rendition's media playlist. */
  function Resolve(env: Env, link: string): (t: Traced<Resolved>)
    ensures OnlyGets(t.sent) && |t.sent| >= 1
    ensures t.result.Ok? ==>
              && Page(env, link).result == Ok(t.result.value.page)
              && Stream(env, t.result.value.page.playerUrl).result.Ok?
              && Stream(env, t.result.value.page.playerUrl).result.value.Some?
  {
    var page := Page(env, link);
    match page.result
    case Fail(f) => Traced(page.sent, Fail(f))
    case Ok(p) =>
      var stream := Stream(env, p.playerUrl);
      var sent := page.sent + stream.sent;
      match stream.result
      case Fail(f) => Traced(sent, Fail(f))
      case Ok(None) => Traced(sent, Fail(Panic(NoRenditionSelected)))
      case Ok(Some(s)) =>
        var media := MediaPlaylistOf(env, s);
        match media.result
        case Fail(f) => Traced(sent + media.sent, Fail(f))
        case Ok(segments) => Traced(sent + media.sent, Ok(Resolved(p, segments)))
  }

  /** Resolution step by step: the first failure ends it with that failure;
      a page without a player URL fails at the stream request; no selected
      rendition is a panic; otherwise the lesson's segments are exactly those
      of the selected rendition's media playlist. */
  lemma ResolveOutcome(env: Env, link: string)
    ensures var t := Resolve(env, link);
            && (Page(env, link).result.Fail? ==>
                  t == Traced(Page(env, link).sent, Fail(Page(env, link).result.fault)))
            && (Page(env, link).result.Ok? ==>
                  var p := Page(env, link).result.value;
                  var stream := Stream(env, p.playerUrl);
                  var sent := Page(env, link).sent + stream.sent;
                  && (p.playerUrl == "" ==> t == Traced(sent, Fail(Error(ReqwestError))))
                  && (stream.result.Fail? ==> t == Traced(sent, Fail(stream.result.fault)))
                  && (stream.result == Ok(None) ==> t == Traced(sent, Fail(Panic(NoRenditionSelected))))
                  && (stream.result.Ok? && stream.result.value.Some? ==>
                        var media := MediaPlaylistOf(env, stream.result.value.value);
                        && t.sent == sent + media.sent
                        && (t.result.Ok? <==> media.result.Ok?)
                        && (t.result.Ok? ==> t.result == Ok(Resolved(p, media.result.value)))
                        && (media.result.Fail? ==> t.result == Fail(media.result.fault))))
  {
  }

  // ---------------------------------------------------------------------
  // Segment assembly

  datatype SegmentsRun = SegmentsRun(sent: seq<Request>, content: Bytes, result: Result<()>)

  /** The segment loop on a file holding `content`: fetch each segment in
      order and write its bytes; the first failure ends the loop. */
  function AppendSegments(env: Env, policy: DiskPolicy, segments: seq<Segment>, content: Bytes): (run: SegmentsRun)
    ensures OnlyGets(run.sent)
    ensures run.result.Fail? ==> run.result.fault in {Error(ReqwestError), Error(IOError)}
    decreases |segments|
  {
    if segments == [] then SegmentsRun([], content, Ok(()))
    else
      var fetched := Download(env, segments[0].uri);
      match fetched.result
      case Fail(f) => SegmentsRun(fetched.sent, content, Fail(f))
      case Ok(data) =>
        var w := Append(policy, content, data);
        if !w.complete then SegmentsRun(fetched.sent, w.content, Fail(Error(IOError)))
        else
          var rest := AppendSegments(env, policy, segments[1..], w.content);
          SegmentsRun(fetched.sent + rest.sent, rest.content, rest.result)
  }

  /** Regrouping the segment loop after one more fetch: a run that went on
      past request `req` is the requests so far, `req`, and the rest. */
  lemma RunStep(whole: SegmentsRun, done: seq<Request>, req: Request, all: SegmentsRun, rest: SegmentsRun)
    requires whole == SegmentsRun(done + all.sent, all.content, all.result)
    requires all == SegmentsRun([req] + rest.sent, rest.content, rest.result)
    ensures whole == SegmentsRun(done + [req] + rest.sent, rest.content, rest.result)
  {
    ConcatAssoc(done, [req], rest.sent);
  }

  /** The bytes a segment's fetch yields, empty when the fetch fails. */
  function Payload(env: Env, s: Segment): Bytes
  {
    match LenientBody(Answer(env, Get(s.uri)))
    case Ok(b) => b
    case Fail(_) => []
  }

  /** The intended file: every segment's bytes, in playlist order. */
  function Payloads(env: Env, segments: seq<Segment>): Bytes
    decreases |segments|
  {
    if segments == [] then [] else Payload(env, segments[0]) + Payloads(env, segments[1..])
  }

  /** One fetch per segment, in playlist order. */
  function SegmentRequests(segments: seq<Segment>): (rs: seq<Request>)
    ensures |rs| == |segments|
    ensures forall i :: 0 <= i < |segments| ==> rs[i] == Get(segments[i].uri)
  {
    seq(|segments|, i requires 0 <= i < |segments| => Get(segments[i].uri))
  }

  predicate AllFetched(env: Env, segments: seq<Segment>)
  {
    forall i :: 0 <= i < |segments| ==> LenientBody(Answer(env, Get(segments[i].uri))).Ok?
  }

  lemma AllFetchedCons(env: Env, segments: seq<Segment>)
    requires segments != []
    ensures AllFetched(env, segments) <==>
              LenientBody(Answer(env, Get(segments[0].uri))).Ok? && AllFetched(env, segments[1..])
  {
    var rest := segments[1..];
    assert forall i :: 0 <= i < |rest| ==> rest[i] == segments[i + 1];
    if LenientBody(Answer(env, Get(segments[0].uri))).Ok? && AllFetched(env, rest) {
      forall i | 0 <= i < |segments|
        ensures LenientBody(Answer(env, Get(segments[i].uri))).Ok?
      {
        if i > 0 {
          assert segments[i] == rest[i - 1];
        }
      }
    }
  }

  /** The segment loop fetches segments in order, each at most once, and the
      file always holds a prefix of the intended content, whatever fails. */
  lemma {:induction false} AppendSegmentsPrefix(env: Env, policy: DiskPolicy, segments: seq<Segment>, content: Bytes)
    ensures var run := AppendSegments(env, policy, segments, content);
            run.sent <= SegmentRequests(segments) && run.content <= content + Payloads(env, segments)
    decreases |segments|
  {
    if segments != [] {
      var first := segments[0];
      var rest := segments[1..];
      assert SegmentRequests(segments) == [Get(first.uri)] + SegmentRequests(rest);
      assert Payloads(env, segments) == Payload(env, first) + Payloads(env, rest);
      var fetched := Download(env, first.uri);
      if fetched.result.Ok? {
        var data := fetched.result.value;
        var w := Append(policy, content, data);
        assert content + Payloads(env, segments) == (content + data) + Payloads(env, rest);
        if w.complete {
          AppendSegmentsPrefix(env, policy, rest, w.content);
        }
      }
    }
  }

  /** The segment loop succeeds exactly when every fetch succeeds and all
      the bytes fit; then the file holds every segment's bytes in playlist
      order and each segment was fetched exactly once, in that order. */
  lemma {:induction false} AppendSegmentsComplete(env: Env, policy: DiskPolicy, segments: seq<Segment>, content: Bytes)
    requires |content| <= policy.maxFileSize
    ensures var run := AppendSegments(env, policy, segments, content);
            && (run.result.Ok? <==>
                  AllFetched(env, segments) && |content| + |Payloads(env, segments)| <= policy.maxFileSize)
            && (run.result.Ok? ==>
                  run.content == content + Payloads(env, segments) && run.sent == SegmentRequests(segments))
    decreases |segments|
  {
    if segments != [] {
      var first := segments[0];
      var rest := segments[1..];
      assert SegmentRequests(segments) == [Get(first.uri)] + SegmentRequests(rest);
      assert Payloads(env, segments) == Payload(env, first) + Payloads(env, rest);
      AllFetchedCons(env, segments);
      var fetched := Download(env, first.uri);
      if fetched.result.Ok? {
        var data := fetched.result.value;
        var w := Append(policy, content, data);
        if w.complete {
          AppendSegmentsComplete(env, policy, rest, w.content);
          assert content + Payloads(env, segments) == w.content + Payloads(env, rest);
        }
      }
    }
  }

  /** A failed fetch ends the segment loop at that segment: the file then
      holds exactly the bytes of the segments before it, in order. */
  lemma {:induction false} AppendSegmentsFetchFailure(env: Env, policy: DiskPolicy, segments: seq<Segment>, content: Bytes)
    ensures var run := AppendSegments(env, policy, segments, content);
            run.result == Fail(Error(ReqwestError)) ==>
              && 1 <= |run.sent| <= |segments|
              && LenientBody(Answer(env, Get(segments[|run.sent| - 1].uri))).Fail?
              && run.content == content + Payloads(env, segments[..|run.sent| - 1])
    decreases |segments|
  {
    if segments != [] {
      var first := segments[0];
      var rest := segments[1..];
      var run := AppendSegments(env, policy, segments, content);
      var fetched := Download(env, first.uri);
      if fetched.result.Fail? {
        assert segments[..0] == [];
      } else {
        var data := fetched.result.value;
        var w := Append(policy, content, data);
        if w.complete {
          AppendSegmentsFetchFailure(env, policy, rest, w.content);
          var tail := AppendSegments(env, policy, rest, w.content);
          if run.result == Fail(Error(ReqwestError)) {
            var k := |tail.sent|;
            assert |run.sent| == k + 1;
            assert segments[k] == rest[k - 1];
            var done := segments[..k];
            assert done[0] == first && done[1..] == rest[..k - 1];
            assert Payloads(env, done) == data + Payloads(env, rest[..k - 1]);
          }
        }
      }
    }
  }

  // ---------------------------------------------------------------------
  // A whole lesson

  datatype OutputFile = OutputFile(path: string, content: Bytes)

  /** The requests a lesson sent, the file it left (if it got as far as
      creating one) and its result. */
  datatype LessonRun = LessonRun(sent: seq<Request>, output: Option<OutputFile>, result: Result<()>)

  /** The disk after a lesson: its file, if it got as far as creating one,
      holds what the lesson wrote; every other path is left as it was. */
  function Leave(files: map<string, Bytes>, output: Option<OutputFile>): map<string, Bytes>
  {
    if output.Some? then files[output.value.path := output.value.content] else files
  }

  /** A lesson: resolve it, create its file under `<dir>/<folder>/` named
      after its index and title, then append its segments. */
  function Lesson(env: Env, policy: DiskPolicy, link: string, folder: string, index: nat): (run: LessonRun)
    ensures OnlyGets(run.sent)
  {
    var resolved := Resolve(env, link);
    match resolved.result
    case Fail(f) => LessonRun(resolved.sent, None, Fail(f))
    case Ok(r) =>
      var path := LessonPath(env.downloadDir, folder, index, r.page.title);
      if !policy.canCreate(path) then LessonRun(resolved.sent, None, Fail(Error(IOError)))
      else
        var segments := AppendSegments(env, policy, r.segments, []);
        LessonRun(resolved.sent + segments.sent, Some(OutputFile(path, segments.content)), segments.result)
  }

  /** A lesson writes only to its own path, which carries its folder, index
      and page title; what the file holds is always a prefix of the lesson's
      segments concatenated in order; the lesson succeeds exactly when it
      resolves, its file can be created, every segment is fetched and the
      whole fits, and then the file holds all segments and each was fetched
      once, in order, after the resolution requests. */
  lemma LessonFile(env: Env, policy: DiskPolicy, link: string, folder: string, index: nat)
    ensures var run := Lesson(env, policy, link, folder, index);
            var res := Resolve(env, link);
            && (run.output.Some? ==>
                  && res.result.Ok?
                  && run.output.value.path == LessonPath(env.downloadDir, folder, index, res.result.value.page.title)
                  && run.output.value.content <= Payloads(env, res.result.value.segments))
            && (run.result.Ok? <==>
                  && res.result.Ok?
                  && policy.canCreate(LessonPath(env.downloadDir, folder, index, res.result.value.page.title))
                  && AllFetched(env, res.result.value.segments)
                  && |Payloads(env, res.result.value.segments)| <= policy.maxFileSize)
            && (run.result.Ok? ==>
                  && run.output == Some(OutputFile(
                       LessonPath(env.downloadDir, folder, index, res.result.value.page.title),
                       Payloads(env, res.result.value.segments)))
                  && run.sent == res.sent + SegmentRequests(res.result.value.segments))
  {
    var res := Resolve(env, link);
    if res.result.Ok? {
      var r := res.result.value;
      AppendSegmentsPrefix(env, policy, r.segments, []);
      AppendSegmentsComplete(env, policy, r.segments, []);
      assert [] + Payloads(env, r.segments) == Payloads(env, r.segments);
    }
  }

  // ---------------------------------------------------------------------
  // The calls the program makes on the client

  datatype Call =
    | LoginCall
    | LinksCall(url: string)
    | LessonCall(link: string, folder: string, index: nat)
}
