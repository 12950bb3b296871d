/** The program's entry point: log in once, then for each category in turn
    discover its lessons and download them in listing order, numbering them
    from zero inside a folder named after the category. The first error of
    any call ends the whole run with that error. */
module Orchestrator {
  import opened Common
  import opened Text
  import opened Storage
  import opened Pipeline
  import opened Client

  /** A listing page to download and the folder its lessons go to. */
  datatype Category = Category(url: string, name: string)

  /** The calls made on the client, in order, and how the run ended. */
  datatype RunTrace = RunTrace(calls: seq<Call>, result: Result<()>)

  // ---------------------------------------------------------------------
  // What a run does

  /** The lessons of one listing from position `from` on. */
  function Lessons(env: Env, policy: DiskPolicy, links: seq<string>, folder: string, from: nat): RunTrace
    requires from <= |links|
    decreases |links| - from
  {
    if from == |links| then RunTrace([], Ok(()))
    else
      var call := LessonCall(links[from], folder, from);
      var result := Lesson(env, policy, links[from], folder, from).result;
      if result.Fail? then RunTrace([call], result)
      else
        var rest := Lessons(env, policy, links, folder, from + 1);
        RunTrace([call] + rest.calls, rest.result)
  }

  /** One category: list it, then download its lessons. */
  function CategoryRun(env: Env, policy: DiskPolicy, c: Category): RunTrace
  {
    var call := LinksCall(c.url);
    match Links(env, c.url).result
    case Fail(f) => RunTrace([call], Fail(f))
    case Ok(links) =>
      var lessons := Lessons(env, policy, links, c.name, 0);
      RunTrace([call] + lessons.calls, lessons.result)
  }

  /** The categories in order, up to the first one that fails. */
  function Categories(env: Env, policy: DiskPolicy, categories: seq<Category>): RunTrace
    decreases |categories|
  {
    if categories == [] then RunTrace([], Ok(()))
    else
      var first := CategoryRun(env, policy, categories[0]);
      if first.result.Fail? then first
      else
        var rest := Categories(env, policy, categories[1..]);
        RunTrace(first.calls + rest.calls, rest.result)
  }

  /** A whole run: log in, then the categories. */
  function Run(env: Env, policy: DiskPolicy, categories: seq<Category>): RunTrace
  {
    var login := Login(env).result;
    if login.Fail? then RunTrace([LoginCall], login)
    else
      var rest := Categories(env, policy, categories);
      RunTrace([LoginCall] + rest.calls, rest.result)
  }

  // ---------------------------------------------------------------------
  // What a run is meant to do, stated independently

  /** Every link of a listing, numbered by its position. */
  function LessonCalls(links: seq<string>, folder: string): (calls: seq<Call>)
    ensures |calls| == |links|
    ensures forall i :: 0 <= i < |links| ==> calls[i] == LessonCall(links[i], folder, i)
  {
    seq(|links|, i requires 0 <= i < |links| => LessonCall(links[i], folder, i))
  }

  /** The calls for one category when nothing else fails: list it, then
      every lesson it lists. */
  function CategoryPlan(env: Env, c: Category): seq<Call>
  {
    [LinksCall(c.url)] +
    match Links(env, c.url).result
    case Ok(links) => LessonCalls(links, c.name)
    case Fail(_) => []
  }

  function Plan(env: Env, categories: seq<Category>): seq<Call>
    decreases |categories|
  {
    if categories == [] then [] else CategoryPlan(env, categories[0]) + Plan(env, categories[1..])
  }

  /** The result of one call on its own. */
  function CallResult(env: Env, policy: DiskPolicy, call: Call): Result<()>
  {
    match call
    case LoginCall => Login(env).result
    case LinksCall(url) =>
      (match Links(env, url).result
       case Ok(_) => Ok(())
       case Fail(f) => Fail(f))
    case LessonCall(link, folder, index) => Lesson(env, policy, link, folder, index).result
  }

  /** The result of each call on its own, in order. */
  function Outcomes(env: Env, policy: DiskPolicy, calls: seq<Call>): (rs: seq<Result<()>>)
    ensures |rs| == |calls|
    decreases |calls|
  {
    if calls == [] then [] else [CallResult(env, policy, calls[0])] + Outcomes(env, policy, calls[1..])
  }

  /** Outcome `k` is the result of call `k`. */
  lemma {:induction false} OutcomesAt(env: Env, policy: DiskPolicy, calls: seq<Call>, k: nat)
    requires k < |calls|
    ensures Outcomes(env, policy, calls)[k] == CallResult(env, policy, calls[k])
    decreases k
  {
    if k > 0 {
      OutcomesAt(env, policy, calls[1..], k - 1);
    }
  }

  lemma {:induction false} OutcomesConcat(env: Env, policy: DiskPolicy, a: seq<Call>, b: seq<Call>)
    ensures Outcomes(env, policy, a + b) == Outcomes(env, policy, a) + Outcomes(env, policy, b)
    decreases |a|
  {
    if a == [] {
      assert a + b == b;
    } else {
      assert (a + b)[0] == a[0];
      assert (a + b)[1..] == a[1..] + b;
      OutcomesConcat(env, policy, a[1..], b);
    }
  }

  /** Every outcome but the last is a success; a successful run has no
      failing outcome, and a failed one failed with its last outcome. */
  predicate StopsAt(outcomes: seq<Result<()>>, result: Result<()>)
  {
    && (forall k :: 0 <= k < |outcomes| - 1 ==> outcomes[k].Ok?)
    && (result.Ok? ==> forall k :: 0 <= k < |outcomes| ==> outcomes[k].Ok?)
    && (result.Fail? ==> |outcomes| > 0 && outcomes[|outcomes| - 1] == result)
  }

  /** A success in front of outcomes that stop at their first error. */
  lemma StopsAtCons(r: Result<()>, rs: seq<Result<()>>, result: Result<()>)
    requires r.Ok? && StopsAt(rs, result)
    ensures StopsAt([r] + rs, result)
  {
    assert forall k :: 1 <= k < |[r] + rs| ==> ([r] + rs)[k] == rs[k - 1];
  }

  /** Every call but the last succeeded; a failed run failed with its last
      call's error, a successful one had no failing call. */
  predicate StopsAtFirstError(env: Env, policy: DiskPolicy, t: RunTrace)
  {
    StopsAt(Outcomes(env, policy, t.calls), t.result)
  }

  /** A successful call followed by a run that stops at its first error is a
      run that stops at its first error. */
  lemma StopsAfterOk(env: Env, policy: DiskPolicy, call: Call, t: RunTrace)
    requires CallResult(env, policy, call).Ok?
    requires StopsAtFirstError(env, policy, t)
    ensures StopsAtFirstError(env, policy, RunTrace([call] + t.calls, t.result))
  {
    var calls := [call] + t.calls;
    assert calls[0] == call && calls[1..] == t.calls;
    StopsAtCons(CallResult(env, policy, call), Outcomes(env, policy, t.calls), t.result);
  }

  /** Two runs back to back, the first successful. */
  lemma StopsAfterRun(env: Env, policy: DiskPolicy, first: RunTrace, t: RunTrace)
    requires first.result.Ok? && StopsAtFirstError(env, policy, first)
    requires StopsAtFirstError(env, policy, t)
    ensures StopsAtFirstError(env, policy, RunTrace(first.calls + t.calls, t.result))
  {
    OutcomesConcat(env, policy, first.calls, t.calls);
    var a := Outcomes(env, policy, first.calls);
    var b := Outcomes(env, policy, t.calls);
    assert forall k :: 0 <= k < |a| ==> (a + b)[k] == a[k];
    assert forall k :: |a| <= k < |a + b| ==> (a + b)[k] == b[k - |a|];
  }

  // ---------------------------------------------------------------------
  // Properties of a run

  /** The lessons of a listing are downloaded in order, each numbered by its
      position and filed under the category's folder; the run stops at the
      first lesson that fails and otherwise downloads every one. */
  lemma {:induction false} LessonsFollowPlan(env: Env, policy: DiskPolicy, links: seq<string>, folder: string, from: nat)
    requires from <= |links|
    ensures var t := Lessons(env, policy, links, folder, from);
            && t.calls <= LessonCalls(links, folder)[from..]
            && (t.result.Ok? ==> t.calls == LessonCalls(links, folder)[from..])
            && StopsAtFirstError(env, policy, t)
    decreases |links| - from
  {
    var plan := LessonCalls(links, folder);
    if from < |links| {
      var call := LessonCall(links[from], folder, from);
      assert plan[from..] == [call] + plan[from + 1..];
      if Lesson(env, policy, links[from], folder, from).result.Ok? {
        LessonsFollowPlan(env, policy, links, folder, from + 1);
        StopsAfterOk(env, policy, call, Lessons(env, policy, links, folder, from + 1));
      }
    }
  }

  /** The categories are processed in order, each following its plan; the run
      is a prefix of the plan, all of it when the run succeeds. */
  lemma {:induction false} CategoriesFollowPlan(env: Env, policy: DiskPolicy, categories: seq<Category>)
    ensures var t := Categories(env, policy, categories);
            && t.calls <= Plan(env, categories)
            && (t.result.Ok? ==> t.calls == Plan(env, categories))
            && StopsAtFirstError(env, policy, t)
    decreases |categories|
  {
    if categories != [] {
      var c := categories[0];
      var call := LinksCall(c.url);
      var first := CategoryRun(env, policy, c);
      match Links(env, c.url).result
      case Fail(f) =>
      case Ok(links) =>
        var lessons := Lessons(env, policy, links, c.name, 0);
        LessonsFollowPlan(env, policy, links, c.name, 0);
        assert LessonCalls(links, c.name)[0..] == LessonCalls(links, c.name);
        StopsAfterOk(env, policy, call, lessons);
        if lessons.result.Ok? {
          var rest := Categories(env, policy, categories[1..]);
          CategoriesFollowPlan(env, policy, categories[1..]);
          StopsAfterRun(env, policy, first, rest);
          assert first.calls == CategoryPlan(env, c);
        }
    }
  }

  /** A run logs in first and never again, then follows the plan of its
      categories, stopping at the first error: a failed login ends the run
      after that one call with its error. */
  lemma RunFollowsPlan(env: Env, policy: DiskPolicy, categories: seq<Category>)
    ensures var t := Run(env, policy, categories);
            && |t.calls| >= 1 && t.calls[0] == LoginCall
            && t.calls <= [LoginCall] + Plan(env, categories)
            && (t.result.Ok? ==> t.calls == [LoginCall] + Plan(env, categories))
            && StopsAtFirstError(env, policy, t)
            && (Login(env).result.Fail? ==> t == RunTrace([LoginCall], Login(env).result))
  {
    if Login(env).result.Ok? {
      CategoriesFollowPlan(env, policy, categories);
      StopsAfterOk(env, policy, LoginCall, Categories(env, policy, categories));
    }
  }

  /** The plan holds no login, so a run logs in exactly once. */
  lemma {:induction false} PlanHasNoLogin(env: Env, categories: seq<Category>)
    ensures forall k :: 0 <= k < |Plan(env, categories)| ==> !Plan(env, categories)[k].LoginCall?
    decreases |categories|
  {
    if categories != [] {
      PlanHasNoLogin(env, categories[1..]);
      var head := CategoryPlan(env, categories[0]);
      var tail := Plan(env, categories[1..]);
      assert forall k :: |head| <= k < |head| + |tail| ==> (head + tail)[k] == tail[k - |head|];
    }
  }

  lemma LoginExactlyOnce(env: Env, policy: DiskPolicy, categories: seq<Category>)
    ensures var t := Run(env, policy, categories);
            && |t.calls| >= 1 && t.calls[0] == LoginCall
            && forall k :: 1 <= k < |t.calls| ==> !t.calls[k].LoginCall?
  {
    RunFollowsPlan(env, policy, categories);
    PlanHasNoLogin(env, categories);
    var t := Run(env, policy, categories);
    var plan := [LoginCall] + Plan(env, categories);
    assert forall k :: 1 <= k < |t.calls| ==> t.calls[k] == plan[k] == Plan(env, categories)[k - 1];
  }

  /** Every lesson call of the plan downloads link `i` of some category's
      listing, as lesson number `i`, into the folder named after that
      category. */
  lemma {:induction false} PlanLessonsNumbered(env: Env, categories: seq<Category>)
    ensures forall k :: 0 <= k < |Plan(env, categories)| && Plan(env, categories)[k].LessonCall? ==>
              var call := Plan(env, categories)[k];
              exists c :: c in categories && c.name == call.folder && Links(env, c.url).result.Ok? &&
                          call.index < |Links(env, c.url).result.value| &&
                          Links(env, c.url).result.value[call.index] == call.link
    decreases |categories|
  {
    if categories != [] {
      PlanLessonsNumbered(env, categories[1..]);
      var c := categories[0];
      var head := CategoryPlan(env, c);
      var tail := Plan(env, categories[1..]);
      var plan := Plan(env, categories);
      assert plan == head + tail;
      forall k | 0 <= k < |plan| && plan[k].LessonCall?
        ensures var call := plan[k];
                exists c :: c in categories && c.name == call.folder && Links(env, c.url).result.Ok? &&
                            call.index < |Links(env, c.url).result.value| &&
                            Links(env, c.url).result.value[call.index] == call.link
      {
        if k < |head| {
          assert k >= 1;
          assert plan[k] == head[k];
          assert c in categories;
        } else {
          assert plan[k] == tail[k - |head|];
          var call := tail[k - |head|];
          var d :| d in categories[1..] && d.name == call.folder && Links(env, d.url).result.Ok? &&
                   call.index < |Links(env, d.url).result.value| &&
                   Links(env, d.url).result.value[call.index] == call.link;
          assert d in categories;
        }
      }
    }
  }

  // ---------------------------------------------------------------------
  // The files a run leaves

  /** The call is a lesson that got as far as creating its file at `path`. */
  predicate Writes(env: Env, policy: DiskPolicy, call: Call, path: string)
  {
    && call.LessonCall?
    && Lesson(env, policy, call.link, call.folder, call.index).output.Some?
    && Lesson(env, policy, call.link, call.folder, call.index).output.value.path == path
  }

  /** The disk after one call: a lesson leaves its file, if it created one;
      the login and the listing write nothing. */
  function CallFiles(env: Env, policy: DiskPolicy, call: Call, files: map<string, Bytes>): map<string, Bytes>
  {
    match call
    case LessonCall(link, folder, index) => Leave(files, Lesson(env, policy, link, folder, index).output)
    case _ => files
  }

  /** The disk after `calls`, made one after the other on `files`. */
  function FilesAfter(env: Env, policy: DiskPolicy, calls: seq<Call>, files: map<string, Bytes>): map<string, Bytes>
    decreases |calls|
  {
    if calls == [] then files
    else FilesAfter(env, policy, calls[1..], CallFiles(env, policy, calls[0], files))
  }

  /** Two runs of calls back to back leave what the second leaves on the
      disk the first left. */
  lemma {:induction false} FilesAfterConcat(env: Env, policy: DiskPolicy, a: seq<Call>, b: seq<Call>, files: map<string, Bytes>)
    ensures FilesAfter(env, policy, a + b, files) == FilesAfter(env, policy, b, FilesAfter(env, policy, a, files))
    decreases |a|
  {
    if a == [] {
      assert a + b == b;
    } else {
      assert (a + b)[0] == a[0];
      assert (a + b)[1..] == a[1..] + b;
      FilesAfterConcat(env, policy, a[1..], b, CallFiles(env, policy, a[0], files));
    }
  }

  /** One more call changes the disk as that call alone does. */
  lemma FilesAfterSnoc(env: Env, policy: DiskPolicy, calls: seq<Call>, call: Call, files: map<string, Bytes>)
    ensures FilesAfter(env, policy, calls + [call], files) == CallFiles(env, policy, call, FilesAfter(env, policy, calls, files))
  {
    FilesAfterConcat(env, policy, calls, [call], files);
    assert [call][1..] == [];
  }

  /** A path no call writes is left as it was: present with the same
      content, or absent. */
  lemma {:induction false} FilesAfterFrame(env: Env, policy: DiskPolicy, calls: seq<Call>, files: map<string, Bytes>, path: string)
    requires forall k :: 0 <= k < |calls| ==> !Writes(env, policy, calls[k], path)
    ensures var after := FilesAfter(env, policy, calls, files);
            && (path in after <==> path in files)
            && (path in files ==> after[path] == files[path])
    decreases |calls|
  {
    if calls != [] {
      assert !Writes(env, policy, calls[0], path);
      assert forall k :: 0 <= k < |calls| - 1 ==> calls[1..][k] == calls[k + 1];
      FilesAfterFrame(env, policy, calls[1..], CallFiles(env, policy, calls[0], files), path);
    }
  }

  /** The last call that writes a path decides its content: the file holds
      what that lesson left in it. */
  lemma {:induction false} FilesAfterLastWriter(env: Env, policy: DiskPolicy, calls: seq<Call>, files: map<string, Bytes>, k: nat, path: string)
    requires k < |calls| && Writes(env, policy, calls[k], path)
    requires forall j :: k < j < |calls| ==> !Writes(env, policy, calls[j], path)
    ensures var after := FilesAfter(env, policy, calls, files);
            var call := calls[k];
            path in after && after[path] == Lesson(env, policy, call.link, call.folder, call.index).output.value.content
    decreases |calls|
  {
    var next := CallFiles(env, policy, calls[0], files);
    assert forall j :: 0 <= j < |calls| - 1 ==> calls[1..][j] == calls[j + 1];
    if k == 0 {
      FilesAfterFrame(env, policy, calls[1..], next, path);
    } else {
      FilesAfterLastWriter(env, policy, calls[1..], next, k - 1, path);
    }
  }

  /** After a successful run, each lesson's file holds every segment of its
      rendition in playlist order, unless a later lesson of the run wrote
      the same path. */
  lemma RunLeavesLessonFiles(env: Env, policy: DiskPolicy, categories: seq<Category>, files: map<string, Bytes>, k: nat)
    requires Run(env, policy, categories).result.Ok?
    requires k < |Run(env, policy, categories).calls| && Run(env, policy, categories).calls[k].LessonCall?
    ensures var t := Run(env, policy, categories);
            var call := t.calls[k];
            var res := Resolve(env, call.link);
            && res.result.Ok?
            && var path := LessonPath(env.downloadDir, call.folder, call.index, res.result.value.page.title);
               var after := FilesAfter(env, policy, t.calls, files);
               (forall j :: k < j < |t.calls| ==> !Writes(env, policy, t.calls[j], path)) ==>
                 path in after && after[path] == Payloads(env, res.result.value.segments)
  {
    var t := Run(env, policy, categories);
    var call := t.calls[k];
    RunFollowsPlan(env, policy, categories);
    OutcomesAt(env, policy, t.calls, k);
    LessonFile(env, policy, call.link, call.folder, call.index);
    var res := Resolve(env, call.link);
    var path := LessonPath(env.downloadDir, call.folder, call.index, res.result.value.page.title);
    if forall j :: k < j < |t.calls| ==> !Writes(env, policy, t.calls[j], path) {
      FilesAfterLastWriter(env, policy, t.calls, files, k, path);
    }
  }

  // ---------------------------------------------------------------------
  // The program

  lemma OnlyGetsConcat(a: seq<Request>, b: seq<Request>)
    requires OnlyGets(a) && OnlyGets(b)
    ensures OnlyGets(a + b)
  {
    assert forall i :: |a| <= i < |a + b| ==> (a + b)[i] == b[i - |a|];
  }

  /** One turn of the lesson loop, on the ghost state the loop keeps: the
      disk after the lesson is the disk after the calls so far and this one,
      and the rest of the listing follows unless this lesson failed. */
  lemma ListingStep(env: Env, policy: DiskPolicy, links: seq<string>, folder: string, i: nat,
                    done: seq<Call>, files: map<string, Bytes>, before: map<string, Bytes>, listing: RunTrace,
                    calls0: seq<Call>, sent0: seq<Request>, fetched: seq<Request>)
    requires i < |links|
    requires before == FilesAfter(env, policy, done, files)
    requires listing == RunTrace(done + Lessons(env, policy, links, folder, i).calls, Lessons(env, policy, links, folder, i).result)
    requires OnlyGets(fetched)
    ensures var call := LessonCall(links[i], folder, i);
            var run := Lesson(env, policy, links[i], folder, i);
            var rest := Lessons(env, policy, links, folder, i + 1);
            && Leave(before, run.output) == FilesAfter(env, policy, done + [call], files)
            && (run.result.Fail? ==> listing == RunTrace(done + [call], run.result))
            && (run.result.Ok? ==> listing == RunTrace(done + [call] + rest.calls, rest.result))
            && calls0 + done + [call] == calls0 + (done + [call])
            && sent0 + fetched + run.sent == sent0 + (fetched + run.sent)
            && OnlyGets(fetched + run.sent)
  {
    var call := LessonCall(links[i], folder, i);
    FilesAfterSnoc(env, policy, done, call, files);
    ConcatAssoc(done, [call], Lessons(env, policy, links, folder, i + 1).calls);
    var run := Lesson(env, policy, links[i], folder, i);
    OnlyGetsConcat(fetched, run.sent);
    ConcatAssoc(sent0, fetched, run.sent);
    ConcatAssoc(calls0, done, [call]);
  }

  /** Downloads the lessons of one listing in order, numbering them from
      zero, and returns at the first error; the calls made and the result
      are those of `Lessons`, and every request sent is a GET. */
  method DownloadListing(cms: CmsClient, links: seq<string>, folder: string) returns (r: Result<()>)
    modifies cms`sent, cms`calls, cms.disk
    ensures cms.calls == old(cms.calls) + Lessons(cms.env, cms.disk.policy, links, folder, 0).calls
    ensures r == Lessons(cms.env, cms.disk.policy, links, folder, 0).result
    ensures |old(cms.sent)| <= |cms.sent| && cms.sent[..|old(cms.sent)|] == old(cms.sent)
    ensures OnlyGets(cms.sent[|old(cms.sent)|..])
    ensures cms.disk.files == FilesAfter(cms.env, cms.disk.policy, Lessons(cms.env, cms.disk.policy, links, folder, 0).calls, old(cms.disk.files))
  {
    ghost var env, policy := cms.env, cms.disk.policy;
    ghost var listing := Lessons(env, policy, links, folder, 0);
    ghost var fetched: seq<Request> := [];
    ghost var done: seq<Call> := [];
    for i := 0 to |links|
      invariant cms.calls == old(cms.calls) + done
      invariant cms.disk.files == FilesAfter(env, policy, done, old(cms.disk.files))
      invariant cms.sent == old(cms.sent) + fetched && OnlyGets(fetched)
      invariant var rest := Lessons(env, policy, links, folder, i);
                listing == RunTrace(done + rest.calls, rest.result)
    {
      var lesson := links[i];
      ghost var rest := Lessons(env, policy, links, folder, i + 1);
      ghost var call := LessonCall(lesson, folder, i);
      ghost var run := Lesson(env, policy, lesson, folder, i);
      ghost var filesBefore := cms.disk.files;
      var result := cms.DownloadLesson(lesson, folder, i);
      ListingStep(env, policy, links, folder, i, done, old(cms.disk.files), filesBefore, listing,
                  old(cms.calls), old(cms.sent), fetched);
      fetched := fetched + run.sent;
      done := done + [call];
      if result.Fail? {
        assert listing == RunTrace(done, result);
        assert cms.sent[|old(cms.sent)|..] == fetched;
        return result;
      }
    }
    assert cms.sent[|old(cms.sent)|..] == fetched;
    assert done + [] == done;
    assert listing.calls == done;
    return Ok(());
  }

  /** Lists one category and downloads its lessons into the folder named
      after it; the calls made and the result are those of `CategoryRun`,
      and every request sent is a GET. */
  method DownloadCategory(cms: CmsClient, category: Category) returns (r: Result<()>)
    modifies cms`sent, cms`calls, cms.disk
    ensures cms.calls == old(cms.calls) + CategoryRun(cms.env, cms.disk.policy, category).calls
    ensures r == CategoryRun(cms.env, cms.disk.policy, category).result
    ensures |old(cms.sent)| <= |cms.sent| && cms.sent[..|old(cms.sent)|] == old(cms.sent)
    ensures OnlyGets(cms.sent[|old(cms.sent)|..])
    ensures cms.disk.files == FilesAfter(cms.env, cms.disk.policy, CategoryRun(cms.env, cms.disk.policy, category).calls, old(cms.disk.files))
  {
    ghost var start := cms.calls;
    var lessons := cms.GetLinks(category.url);
    ghost var listed := cms.sent;
    assert cms.sent[|old(cms.sent)|..] == [Get(cms.env.rootUrl + category.url)];
    if lessons.Fail? {
      assert FilesAfter(cms.env, cms.disk.policy, [LinksCall(category.url)], cms.disk.files) == cms.disk.files;
      return Fail(lessons.fault);
    }
    ghost var t := Lessons(cms.env, cms.disk.policy, lessons.value, category.name, 0);
    assert CategoryRun(cms.env, cms.disk.policy, category) == RunTrace([LinksCall(category.url)] + t.calls, t.result);
    assert ([LinksCall(category.url)] + t.calls)[1..] == t.calls;
    r := DownloadListing(cms, lessons.value, category.name);
    ConcatAssoc(start, [LinksCall(category.url)], t.calls);
    ghost var more := cms.sent[|listed|..];
    assert cms.sent == listed + more;
    OnlyGetsConcat(listed[|old(cms.sent)|..], more);
    assert cms.sent[|old(cms.sent)|..] == listed[|old(cms.sent)|..] + more;
  }

  /** Processes the categories in order and returns at the first error;
      the calls made and the result are those of `Categories`, and every
      request sent is a GET. */
  method DownloadCategories(cms: CmsClient, categories: seq<Category>) returns (r: Result<()>)
    modifies cms`sent, cms`calls, cms.disk
    ensures cms.calls == old(cms.calls) + Categories(cms.env, cms.disk.policy, categories).calls
    ensures r == Categories(cms.env, cms.disk.policy, categories).result
    ensures |old(cms.sent)| <= |cms.sent| && cms.sent[..|old(cms.sent)|] == old(cms.sent)
    ensures OnlyGets(cms.sent[|old(cms.sent)|..])
    ensures cms.disk.files == FilesAfter(cms.env, cms.disk.policy, Categories(cms.env, cms.disk.policy, categories).calls, old(cms.disk.files))
  {
    ghost var env, policy := cms.env, cms.disk.policy;
    ghost var whole := Categories(env, policy, categories);
    ghost var fetched: seq<Request> := [];
    ghost var done: seq<Call> := [];
    assert categories[0..] == categories;
    for ci := 0 to |categories|
      invariant cms.calls == old(cms.calls) + done
      invariant cms.disk.files == FilesAfter(env, policy, done, old(cms.disk.files))
      invariant cms.sent == old(cms.sent) + fetched && OnlyGets(fetched)
      invariant var rest := Categories(env, policy, categories[ci..]);
                whole == RunTrace(done + rest.calls, rest.result)
    {
      var category := categories[ci];
      assert categories[ci..][0] == category && categories[ci..][1..] == categories[ci + 1..];
      ghost var first := CategoryRun(env, policy, category);
      ghost var rest := Categories(env, policy, categories[ci + 1..]);
      ghost var sentBefore := cms.sent;
      r := DownloadCategory(cms, category);
      FilesAfterConcat(env, policy, done, first.calls, old(cms.disk.files));
      ghost var more := cms.sent[|sentBefore|..];
      assert cms.sent == sentBefore + more;
      OnlyGetsConcat(fetched, more);
      ConcatAssoc(old(cms.sent), fetched, more);
      ConcatAssoc(old(cms.calls), done, first.calls);
      fetched := fetched + more;
      if r.Fail? {
        assert Categories(env, policy, categories[ci..]) == first;
        done := done + first.calls;
        assert cms.sent[|old(cms.sent)|..] == fetched;
        return;
      }
      assert Categories(env, policy, categories[ci..]) == RunTrace(first.calls + rest.calls, rest.result);
      ConcatAssoc(done, first.calls, rest.calls);
      done := done + first.calls;
    }
    assert categories[|categories|..] == [];
    assert cms.sent[|old(cms.sent)|..] == fetched;
    assert done + [] == done;
    assert whole.calls == done;
    return Ok(());
  }

  /** Runs the scraper over `categories`: creates the client, logs in and
      downloads every category's lessons, returning at the first error. The
      calls made and the result are those of `Run`; the login request is the
      first request sent and every later one is a GET. */
  method RunScraper(env: Env, disk: Disk, categories: seq<Category>) returns (r: Result<()>, cms: CmsClient)
    modifies disk
    ensures fresh(cms) && cms.env == env && cms.disk == disk
    ensures cms.calls == Run(env, disk.policy, categories).calls
    ensures r == Run(env, disk.policy, categories).result
    ensures |cms.sent| >= 1 && cms.sent[0] == LoginRequest(env) && OnlyGets(cms.sent[1..])
    ensures Login(env).result.Fail? ==> cms.sent == [LoginRequest(env)]
    ensures disk.files == FilesAfter(env, disk.policy, Run(env, disk.policy, categories).calls, old(disk.files))
  {
    cms := new CmsClient(env, disk);
    r := cms.Login();
    if r.Fail? {
      assert FilesAfter(env, disk.policy, [LoginCall], disk.files) == disk.files;
      return;
    }
    ghost var rest := Categories(env, disk.policy, categories);
    r := DownloadCategories(cms, categories);
    assert ([LoginCall] + rest.calls)[1..] == rest.calls;
    assert cms.sent == [LoginRequest(env)] + cms.sent[1..];
  }
}
