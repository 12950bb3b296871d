/** The client object: one authenticated session through which every request
    goes, and a handle on the disk the lessons are written to. Two ghost logs
    record what an observer of the client sees: `sent`, every HTTP request in
    the order it was sent, and `calls`, the top-level calls made on the
    client. Every method is proved to do what the matching function of
    `Pipeline` says: the requests it appends to `sent`, its result and, for a
    lesson, the file it leaves. */
module Client {
  import opened Common
  import opened Text
  import opened Markup
  import opened Hls
  import opened Storage
  import opened Pipeline

  class CmsClient {
    const env: Env
    const disk: Disk
    ghost var sent: seq<Request>
    ghost var calls: seq<Call>

    constructor (env: Env, disk: Disk)
      ensures this.env == env && this.disk == disk
      ensures sent == [] && calls == []
    {
      this.env := env;
      this.disk := disk;
      sent := [];
      calls := [];
    }

    /** Sends one request over the session and waits for the answer. */
    method Send(request: Request) returns (response: Exchange)
      modifies this`sent
      ensures sent == old(sent) + [request]
      ensures response == Answer(env, request)
    {
      sent := sent + [request];
      response := Answer(env, request);
    }

    method Login() returns (r: Result<()>)
      modifies this`sent, this`calls
      ensures calls == old(calls) + [LoginCall]
      ensures sent == old(sent) + Pipeline.Login(env).sent
      ensures r == Pipeline.Login(env).result
    {
      calls := calls + [LoginCall];
      var loginUrl := env.rootUrl + "/cms/system/login";
      var response := Send(PostLogin(loginUrl, env.email, env.password));
      if response.SendFailed? {
        return Fail(Error(ReqwestError));
      }
      if !IsSuccess(response.status) {
        return Fail(Error(LoginFailed));
      }
      return Ok(());
    }

    method GetLinks(url: string) returns (r: Result<seq<string>>)
      modifies this`sent, this`calls
      ensures calls == old(calls) + [LinksCall(url)]
      ensures sent == old(sent) + Links(env, url).sent
      ensures r == Links(env, url).result
    {
      calls := calls + [LinksCall(url)];
      var response := Send(Get(env.rootUrl + url));
      if response.SendFailed? {
        return Fail(Error(ReqwestError));
      }
      if !IsSuccess(response.status) {
        return Fail(Error(RequestFailed));
      }
      if response.body.None? {
        return Fail(Error(ReqwestError));
      }
      var document := env.parseHtml(response.body.value);
      var items := CollectHrefs(document.listAnchors);
      return Ok(items);
    }

    method GetPlaylistUrl(link: string) returns (r: Result<LessonPage>)
      modifies this`sent
      ensures sent == old(sent) + Page(env, link).sent
      ensures r == Page(env, link).result
    {
      var response := Send(Get(env.rootUrl + link));
      if response.SendFailed? {
        return Fail(Error(ReqwestError));
      }
      if !IsSuccess(response.status) {
        return Fail(Error(RequestFailed));
      }
      if response.body.None? {
        return Fail(Error(ReqwestError));
      }
      var document := env.parseHtml(response.body.value);
      var url := FindPlayerUrl(document.playerRoots);
      var title := HeadingTitle(document.headings);
      return Ok(LessonPage(title, url));
    }

    method GetStreamUrl(url: string) returns (r: Result<Option<string>>)
      modifies this`sent
      ensures sent == old(sent) + Stream(env, url).sent
      ensures r == Stream(env, url).result
    {
      var response := Send(Get(url));
      if response.SendFailed? {
        return Fail(Error(ReqwestError));
      }
      if !IsSuccess(response.status) {
        return Fail(Error(RequestFailed));
      }
      if response.body.None? {
        return Fail(Error(ReqwestError));
      }
      var document := env.parseHtml(response.body.value);
      var scanned := FindMasterPlaylistUrl(env.parseConfig, document.scripts);
      if scanned.Fail? {
        return Fail(scanned.fault);
      }
      var playlistUrl := scanned.value;
      var master := Send(Get(playlistUrl));
      // a status outside the success class is only reported here
      if master.SendFailed? || master.body.None? {
        return Fail(Error(ReqwestError));
      }
      match env.parsePlaylist(master.body.value) {
        case MasterPlaylist(variants) =>
          var choice := SelectRendition(variants);
          if choice.Some? {
            return Ok(choice);
          }
        case MediaPlaylist(_) =>
        case Unparsable =>
      }
      return Ok(None);
    }

    method GetMediaPlaylist(url: string) returns (r: Result<seq<Segment>>)
      modifies this`sent
      ensures sent == old(sent) + MediaPlaylistOf(env, url).sent
      ensures r == MediaPlaylistOf(env, url).result
    {
      var response := Send(Get(url));
      // a status outside the success class is only reported here
      if response.SendFailed? || response.body.None? {
        return Fail(Error(ReqwestError));
      }
      match env.parsePlaylist(response.body.value) {
        case MediaPlaylist(segments) =>
          return Ok(segments);
        case MasterPlaylist(_) =>
        case Unparsable =>
      }
      return Fail(Error(MediaPlaylistNotFound));
    }

    method DownloadMedia(url: string) returns (r: Result<Bytes>)
      modifies this`sent
      ensures sent == old(sent) + Download(env, url).sent
      ensures r == Download(env, url).result
    {
      var response := Send(Get(url));
      // a status outside the success class is only reported here
      if response.SendFailed? || response.body.None? {
        return Fail(Error(ReqwestError));
      }
      return Ok(response.body.value);
    }

    /** The first half of a lesson download: its page, its stream and the
        segments of the chosen rendition. */
    method ResolveLesson(link: string) returns (r: Result<Resolved>)
      modifies this`sent
      ensures sent == old(sent) + Resolve(env, link).sent
      ensures r == Resolve(env, link).result
    {
      var page := GetPlaylistUrl(link);
      if page.Fail? {
        return Fail(page.fault);
      }
      var stream := GetStreamUrl(page.value.playerUrl);
      if stream.Fail? {
        return Fail(stream.fault);
      }
      if stream.value.None? {
        return Fail(Panic(NoRenditionSelected));
      }
      var playlist := GetMediaPlaylist(stream.value.value);
      if playlist.Fail? {
        return Fail(playlist.fault);
      }
      return Ok(Resolved(page.value, playlist.value));
    }

    /** One step of the second half: fetch the first of `segments` and
        append it to the file. On failure the run of all `segments` ends
        here; on success it goes on with the remaining ones. */
    method AppendSegment(filename: string, segments: seq<Segment>) returns (r: Result<()>)
      requires segments != [] && filename in disk.files
      modifies this`sent, disk
      ensures filename in disk.files
      ensures disk.files == old(disk.files)[filename := disk.files[filename]]
      ensures sent == old(sent) + [Get(segments[0].uri)]
      ensures var all := AppendSegments(env, disk.policy, segments, old(disk.files[filename]));
              var rest := AppendSegments(env, disk.policy, segments[1..], disk.files[filename]);
              && (r.Fail? ==> all == SegmentsRun([Get(segments[0].uri)], disk.files[filename], r))
              && (r.Ok? ==> all == SegmentsRun([Get(segments[0].uri)] + rest.sent, rest.content, rest.result))
    {
      var media := DownloadMedia(segments[0].uri);
      if media.Fail? {
        return Fail(media.fault);
      }
      r := disk.WriteAll(filename, media.value);
    }

    /** The second half: fetch every segment in playlist order and append it
        to the freshly created file, stopping at the first failure. */
    method WriteSegments(filename: string, segments: seq<Segment>) returns (r: Result<()>)
      requires filename in disk.files && disk.files[filename] == []
      modifies this`sent, disk
      ensures var run := AppendSegments(env, disk.policy, segments, []);
              && sent == old(sent) + run.sent
              && r == run.result
              && disk.files == old(disk.files)[filename := run.content]
    {
      ghost var policy := disk.policy;
      ghost var done: seq<Request> := [];
      ghost var content: Bytes := [];
      ghost var whole := AppendSegments(env, policy, segments, []);
      var i := 0;
      while i < |segments|
        invariant 0 <= i <= |segments|
        invariant disk.files == old(disk.files)[filename := content]
        invariant sent == old(sent) + done
        invariant var rest := AppendSegments(env, policy, segments[i..], content);
                  whole == SegmentsRun(done + rest.sent, rest.content, rest.result)
      {
        assert segments[i..][1..] == segments[i + 1..];
        ghost var req := Get(segments[i].uri);
        ghost var all := AppendSegments(env, policy, segments[i..], content);
        r := AppendSegment(filename, segments[i..]);
        UpdateTwice(old(disk.files), filename, content, disk.files[filename]);
        ConcatAssoc(old(sent), done, [req]);
        if r.Fail? {
          return;
        }
        ghost var rest := AppendSegments(env, policy, segments[i + 1..], disk.files[filename]);
        RunStep(whole, done, req, all, rest);
        done := done + [req];
        content := disk.files[filename];
        i := i + 1;
      }
      assert segments[|segments|..] == [];
      return Ok(());
    }

    /** Resolves a lesson, creates its file and appends its segments in
        playlist order; only the lesson's own file changes on disk. */
    method DownloadLesson(link: string, folder: string, index: nat) returns (r: Result<()>)
      modifies this`sent, this`calls, disk
      ensures calls == old(calls) + [LessonCall(link, folder, index)]
      ensures var run := Lesson(env, disk.policy, link, folder, index);
              && sent == old(sent) + run.sent
              && r == run.result
              && disk.files == Leave(old(disk.files), run.output)
    {
      calls := calls + [LessonCall(link, folder, index)];
      ghost var before := sent;
      var resolved := ResolveLesson(link);
      if resolved.Fail? {
        assert Lesson(env, disk.policy, link, folder, index) == LessonRun(Resolve(env, link).sent, None, Fail(resolved.fault));
        return Fail(resolved.fault);
      }
      var filename := LessonPath(env.downloadDir, folder, index, resolved.value.page.title);
      var created := disk.Create(filename);
      if created.Fail? {
        assert Lesson(env, disk.policy, link, folder, index) == LessonRun(Resolve(env, link).sent, None, created);
        return created;
      }
      r := WriteSegments(filename, resolved.value.segments);
      ghost var run := AppendSegments(env, disk.policy, resolved.value.segments, []);
      assert Lesson(env, disk.policy, link, folder, index) ==
             LessonRun(Resolve(env, link).sent + run.sent, Some(OutputFile(filename, run.content)), run.result);
      ConcatAssoc(before, Resolve(env, link).sent, run.sent);
    }
  }
}
