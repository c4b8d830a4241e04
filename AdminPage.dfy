/**
 * The unified admin page: a publish form (title, Markdown body, optional audio, optional
 * cover image, draft flag, "generate video" flag), the lists of published and draft posts,
 * and the edit, delete, restore and draft-toggle actions on them. With audio, a submit uploads
 * the file, optionally starts a video job and polls it until it ends, then patches the post
 * the upload created; without audio it creates a text post.
 */
module AdminPage {
  import opened Wrappers
  import opened Strings
  import opened Http
  import opened PostRecords

  /** A file chosen in one of the form's file inputs. */
  datatype File = File(name: string)

  const DefaultTitle: string := "The Gargantuan"
  /** The wait before each poll of a video job, in milliseconds. */
  const PollDelay: nat := 1200

  /** A job's `status`: `'done'`, `'error'`, or anything else (still running). */
  datatype JobState = Finished | Errored | Running

  /** The body of `GET /api/jobs/:id`. */
  datatype Job = Job(state: JobState, progress: Option<int>, error: Option<string>)

  /** Why a submit threw: a request that failed, an upload reply without `filename`, a job that reported `'error'`. */
  datatype Cause = RequestFailed(message: string) | MissingFilename | JobFailed(error: Option<string>)

  /** The `alert(...)` calls of the page. */
  datatype Alert =
    | TitleRequired
    | ImageUploadFailed
    | CoverUploadFailed
    | PublishFailed(cause: Cause)
    | DeleteFailed
    | RestoreFailed
    | ToggleDraftFailed
    | SaveFailed

  /** The text `new Error(job.error)` carries: an absent error gives the empty message. */
  function JobErrorText(error: Option<string>): string {
    match error
    case Some(e) => e
    case None => []
  }

  /** A cause's `err.message`; for a missing filename it is the engine's `TypeError` text, given as `typeError`. */
  function CauseMessage(c: Cause, typeError: string): string {
    match c
    case RequestFailed(m) => m
    case MissingFilename => typeError
    case JobFailed(e) => JobErrorText(e)
  }

  /** The text of each alert. */
  function AlertText(a: Alert, typeError: string): string {
    match a
    case TitleRequired => "Title is required"
    case ImageUploadFailed => "Image upload failed"
    case CoverUploadFailed => "Cover image upload failed"
    case PublishFailed(c) => "Failed to publish: " + CauseMessage(c, typeError)
    case DeleteFailed => "Failed to delete"
    case RestoreFailed => "Failed to restore"
    case ToggleDraftFailed => "Failed to toggle draft"
    case SaveFailed => "Failed to save changes"
  }

  /** A failed publish names its cause after a fixed prefix. */
  lemma PublishFailedText(c: Cause, typeError: string)
    ensures var t := AlertText(PublishFailed(c), typeError);
      t[..19] == "Failed to publish: " && t[19..] == CauseMessage(c, typeError)
  {
  }

  /** The requests the page sends; `token` is the `x-admin-token` header. */
  datatype Request =
    | GetPosts
    | GetDrafts
    | UploadImage(file: File, token: string)
    | UploadAudio(file: File, token: string)
    | GenerateVideo(filename: string, title: string, token: string)
    | GetJob(jobId: string)
    | PatchPost(id: string, title: string, body: string, imageUrl: Option<string>, draft: bool, token: string)
    | CreatePost(title: string, body: string, image: string, published: bool, token: string)
    | DeletePost(id: string, token: string)
    | RestorePost(id: string, token: string)
    | PatchDraft(id: string, draft: bool, token: string)
    | PatchEdit(id: string, title: string, body: string, draft: bool, token: string)

  /** The two replies `Promise.all` waits for: both lists, or the message of the first failure. */
  datatype ListsReply = Lists(posts: seq<Post>, drafts: seq<Post>) | ListsFailed(message: string)

  /** The form's fields, as `resetForm` and the submit see them. */
  datatype Form = Form(title: string, body: string, audio: Option<File>, coverFile: Option<File>,
                       coverUrl: Option<string>, generateVideo: bool, isDraft: bool,
                       editingId: Option<string>, progress: Option<int>)

  /** The form as the page starts, and as `resetForm` leaves it. */
  const InitialForm: Form := Form(DefaultTitle, [], None, None, Some([]), true, false, None, None)

  // ---------------------------------------------------------------------------------------
  // The post id and the inserted image

  /** `filename.substring(0, filename.lastIndexOf('.'))`. */
  function PostIdOf(filename: string): string {
    Substring(filename, 0, LastIndexOf(filename, '.'))
  }

  /**
   * The post id is the filename before its last `'.'`, so the filename is the id, a dot and a
   * dot-free extension; a filename without a dot gives the empty id.
   */
  lemma PostIdSpec(filename: string)
    ensures var id := PostIdOf(filename);
      && (NoDotIn(filename) ==> id == [])
      && (!NoDotIn(filename) ==>
            |id| < |filename| && filename[..|id|] == id && filename[|id|] == '.'
            && NoDotIn(filename[|id| + 1..]))
  {
    var k := LastIndexOf(filename, '.');
    if NoDotIn(filename) {
      assert k == -1;
    } else {
      assert k >= 0;
      var ext := filename[k + 1..];
      forall j | 0 <= j < |ext| ensures ext[j] != '.' {
        assert ext[j] == filename[k + 1 + j];
      }
    }
  }

  predicate NoDotIn(s: string) {
    forall j :: 0 <= j < |s| ==> s[j] != '.'
  }

  /** `` `${id}.${ext}` `` splits back into the id: the id of an upload named this way is recovered. */
  lemma PostIdRoundTrip(id: string, ext: string)
    requires NoDotIn(ext)
    ensures PostIdOf(id + "." + ext) == id
  {
    var f := id + "." + ext;
    forall j | |id| < j < |f| ensures f[j] != '.' {
      assert f[j] == ext[j - |id| - 1];
    }
    LastIndexUnique(f, '.', |id|);
    assert f[..|id|] == id;
  }

  /** `` `${prev}\n\n![image](${url})` ``: the body with a Markdown image appended. */
  function WithImage(body: string, url: string): (r: string)
    ensures |r| == |body| + |url| + 12
    ensures r[..|body|] == body
    ensures r[|body|..|body| + 11] == "\n\n![image]("
    ensures r[|body| + 11..|r| - 1] == url && r[|r| - 1] == ')'
  {
    body + "\n\n![image](" + url + ")"
  }

  /** Appending images keeps every earlier body as a prefix. */
  lemma WithImagePrefix(body: string, u: string, v: string)
    ensures var r := WithImage(WithImage(body, u), v);
      r[..|body|] == body && r[..|WithImage(body, u)|] == WithImage(body, u)
  {
  }

  // ---------------------------------------------------------------------------------------
  // The job poll

  /** A poll that ends the loop: a failed request, `'done'` or `'error'`. */
  predicate Terminal(r: AxiosReply<Job>) {
    r.Failed? || r.data.state != Running
  }

  /** How a poll loop over the replies `jobs` ends; `StillPolling` when every reply says the job still runs. */
  datatype Poll = Completed | Threw(cause: Cause) | StillPolling

  /** The number of replies the loop reads: up to the first terminal one, or all of them. */
  function PollLength(jobs: seq<AxiosReply<Job>>): (n: nat)
    ensures n <= |jobs|
  {
    if jobs == [] then 0
    else if Terminal(jobs[0]) then 1
    else 1 + PollLength(jobs[1..])
  }

  /** How the loop ends on the replies `jobs`. */
  function PollEnd(jobs: seq<AxiosReply<Job>>): Poll {
    if jobs == [] then StillPolling
    else match jobs[0]
      case Failed(m) => Threw(RequestFailed(m))
      case Resolved(job) =>
        if job.state == Finished then Completed
        else if job.state == Errored then Threw(JobFailed(job.error))
        else PollEnd(jobs[1..])
  }

  /** The progress value one reply sets: its job's, when the request resolved. */
  function Report(r: AxiosReply<Job>): seq<Option<int>> {
    if r.Resolved? then [r.data.progress] else []
  }

  /** The progress values the loop sets, one per reply it reads that resolved. */
  function Reports(js: seq<AxiosReply<Job>>): seq<Option<int>> {
    if js == [] then [] else Reports(js[..|js| - 1]) + Report(js[|js| - 1])
  }

  /** What the poll loop changes: the requests and waits so far, the progress values set and the one shown. */
  datatype Polled = Polled(requests: seq<Request>, delays: seq<nat>, history: seq<Option<int>>, progress: Option<int>)

  /** One turn of the loop for job `jobId` with reply `r`. */
  function AfterRead(v: Polled, jobId: string, r: AxiosReply<Job>): Polled {
    Polled(v.requests + [GetJob(jobId)], v.delays + [PollDelay], v.history + Report(r), LastOr(v.progress, Report(r)))
  }

  /** The turns of the loop for the replies `js`, in order. */
  function AfterReads(v: Polled, jobId: string, js: seq<AxiosReply<Job>>): Polled {
    if js == [] then v else AfterRead(AfterReads(v, jobId, js[..|js| - 1]), jobId, js[|js| - 1])
  }

  /** Reading the replies `js` asks for the job once per reply, waits before each, and sets each resolved reply's progress. */
  lemma {:induction false} AfterReadsSpec(v: Polled, jobId: string, js: seq<AxiosReply<Job>>)
    ensures AfterReads(v, jobId, js) == Polled(v.requests + Repeat(GetJob(jobId), |js|),
      v.delays + Repeat(PollDelay, |js|), v.history + Reports(js), LastOr(v.progress, Reports(js)))
  {
    if js != [] {
      var p := js[..|js| - 1];
      AfterReadsSpec(v, jobId, p);
      LastOrAppend(v.progress, Reports(p), Report(js[|js| - 1]));
    }
  }

  /** `v` after the steps of run `r`. */
  function Extend(v: Polled, r: Run): Polled {
    Polled(v.requests + r.requests, v.delays + r.delays, v.history + r.reports, LastOr(v.progress, r.reports))
  }

  /** Sending `rq` and then running `r` is running `r` with `rq` sent first. */
  lemma ExtendSentFirst(v: Polled, rq: Request, r: Run)
    ensures Extend(v.(requests := v.requests + [rq]), r) == Extend(v, SentFirst(rq, r))
  {
    assert v.requests + [rq] + r.requests == v.requests + ([rq] + r.requests);
  }

  /** How reading reply `i` after the first `i` extends the reports. */
  lemma ReportsNext(jobs: seq<AxiosReply<Job>>, i: nat)
    requires i < |jobs|
    ensures Reports(jobs[..i + 1]) == Reports(jobs[..i]) + Report(jobs[i])
  {
    assert jobs[..i + 1][..i] == jobs[..i];
  }

  lemma LastOrAppend<T>(p: T, a: seq<T>, b: seq<T>)
    ensures LastOr(LastOr(p, a), b) == LastOr(p, a + b)
  {
  }

  /** The last value of `s`, or `p` when it is empty. */
  function LastOr<T>(p: T, s: seq<T>): (r: T)
    ensures s == [] ==> r == p
    ensures s != [] ==> r == s[|s| - 1]
  {
    if s == [] then p else s[|s| - 1]
  }

  /** `n` copies of `x`. */
  function Repeat<T>(x: T, n: nat): (r: seq<T>)
    ensures |r| == n
  {
    if n == 0 then [] else Repeat(x, n - 1) + [x]
  }

  lemma {:induction false} RepeatAll<T>(x: T, n: nat)
    ensures forall i :: 0 <= i < n ==> Repeat(x, n)[i] == x
  {
    if n > 0 {
      RepeatAll(x, n - 1);
    }
  }

  /** The loop reads replies up to the first terminal one: none before it is terminal, and it stops right after it. */
  lemma {:induction false} PollLengthSpec(jobs: seq<AxiosReply<Job>>)
    ensures var n := PollLength(jobs);
      && (forall k :: 0 <= k < n - 1 ==> !Terminal(jobs[k]))
      && (jobs != [] ==> n > 0)
      && (n < |jobs| ==> Terminal(jobs[n - 1]))
  {
    if jobs != [] && !Terminal(jobs[0]) {
      PollLengthSpec(jobs[1..]);
      forall k | 1 <= k < PollLength(jobs) - 1 ensures !Terminal(jobs[k]) {
        assert jobs[k] == jobs[1..][k - 1];
      }
    }
  }

  /**
   * The loop ends normally exactly when the last reply it reads says `'done'`, throws the
   * request's or the job's error when that reply failed or says `'error'`, and is still polling
   * exactly when no reply is terminal.
   */
  lemma {:induction false} PollEndSpec(jobs: seq<AxiosReply<Job>>)
    ensures var n, e := PollLength(jobs), PollEnd(jobs);
      && (e == Completed <==> n > 0 && jobs[n - 1].Resolved? && jobs[n - 1].data.state == Finished)
      && (n > 0 && jobs[n - 1].Failed? ==> e == Threw(RequestFailed(jobs[n - 1].message)))
      && (n > 0 && jobs[n - 1].Resolved? && jobs[n - 1].data.state == Errored ==>
            e == Threw(JobFailed(jobs[n - 1].data.error)))
      && (e == StillPolling <==> forall k :: 0 <= k < |jobs| ==> !Terminal(jobs[k]))
  {
    if jobs != [] && !Terminal(jobs[0]) {
      PollEndSpec(jobs[1..]);
      var n := PollLength(jobs);
      if n > 1 {
        assert jobs[n - 1] == jobs[1..][n - 2];
      }
      if forall k :: 0 <= k < |jobs[1..]| ==> !Terminal(jobs[1..][k]) {
        forall k | 0 <= k < |jobs| ensures !Terminal(jobs[k]) {
          if k > 0 { assert jobs[k] == jobs[1..][k - 1]; }
        }
      } else {
        var k :| 0 <= k < |jobs[1..]| && Terminal(jobs[1..][k]);
        assert Terminal(jobs[k + 1]);
      }
    }
  }

  /** After `i` running replies, the loop goes on as it does from reply `i`. */
  lemma {:induction false} PollSkip(jobs: seq<AxiosReply<Job>>, i: nat)
    requires i <= |jobs|
    requires forall k :: 0 <= k < i ==> !Terminal(jobs[k])
    ensures PollLength(jobs) == i + PollLength(jobs[i..])
    ensures PollEnd(jobs) == PollEnd(jobs[i..])
  {
    if i > 0 {
      assert !Terminal(jobs[0]);
      PollSkip(jobs[1..], i - 1);
      assert jobs[1..][i - 1..] == jobs[i..];
    }
  }

  /** The loop stops at the first terminal reply, with that reply's outcome. */
  lemma PollStopsAt(jobs: seq<AxiosReply<Job>>, i: nat)
    requires i < |jobs| && Terminal(jobs[i])
    requires forall k :: 0 <= k < i ==> !Terminal(jobs[k])
    ensures PollLength(jobs) == i + 1 && PollEnd(jobs) == PollEnd([jobs[i]])
  {
    PollSkip(jobs, i);
    assert jobs[i..][1..] == jobs[i + 1..];
  }

  /** With no terminal reply the loop reads them all and is still polling. */
  lemma PollRunsOut(jobs: seq<AxiosReply<Job>>)
    requires forall k :: 0 <= k < |jobs| ==> !Terminal(jobs[k])
    ensures PollLength(jobs) == |jobs| && PollEnd(jobs) == StillPolling
  {
    PollSkip(jobs, |jobs|);
  }

  /** Each reply read that resolved reports its job's progress, in order; a failed last read reports nothing. */
  lemma {:induction false} PollReports(jobs: seq<AxiosReply<Job>>)
    ensures var n := PollLength(jobs); var r := Reports(jobs[..n]);
      && |r| == (if n > 0 && jobs[n - 1].Failed? then n - 1 else n)
      && forall k :: 0 <= k < |r| ==> jobs[k].Resolved? && r[k] == jobs[k].data.progress
  {
    var n := PollLength(jobs);
    PollLengthSpec(jobs);
    if n == 0 {
      assert jobs[..n] == [];
    } else if jobs[n - 1].Resolved? {
      RunningReports(jobs, n);
    } else {
      RunningReports(jobs, n - 1);
      ReportsNext(jobs, n - 1);
      assert Reports(jobs[..n]) == Reports(jobs[..n - 1]);
    }
  }

  /** The reports of `i` resolved replies are their progress values. */
  lemma {:induction false} RunningReports(jobs: seq<AxiosReply<Job>>, i: nat)
    requires i <= |jobs|
    requires forall k :: 0 <= k < i ==> jobs[k].Resolved?
    ensures var r := Reports(jobs[..i]);
      |r| == i && forall k :: 0 <= k < i ==> r[k] == jobs[k].data.progress
  {
    if i > 0 {
      RunningReports(jobs, i - 1);
      assert jobs[..i][..i - 1] == jobs[..i - 1];
    }
  }

  // ---------------------------------------------------------------------------------------
  // A submit

  /** The replies a submit may meet: the upload's `filename`, the generate call's `jobId`, the job polls, the save, the reload. */
  datatype SubmitReplies = SubmitReplies(upload: AxiosReply<Option<string>>, gen: AxiosReply<Option<string>>,
                                         jobs: seq<AxiosReply<Job>>, save: AxiosReply<()>, reload: ListsReply)

  /** How the `try` block of a submit ends: it saved, it threw, or it is still polling the job. */
  datatype End = Saved | Aborted(cause: Cause) | Polling

  /** What the `try` block of a submit does: its requests, the poll waits, the progress values set and its end. */
  datatype Run = Run(requests: seq<Request>, delays: seq<nat>, reports: seq<Option<int>>, end: End)

  /**
   * The final write: with audio the patch of post `id` (the cover URL, or no `imageUrl` at all
   * when it is empty, and `draft`); without audio the create call (the cover URL or `''`, and
   * `published` the opposite of the draft flag).
   */
  function SaveRequest(f: Form, token: string, id: Option<string>): (r: Request)
    ensures id.Some? ==>
      && r.PatchPost? && r.id == id.value && r.draft == f.isDraft
      && (r.imageUrl.Some? <==> Truthy(f.coverUrl)) && (r.imageUrl.Some? ==> r.imageUrl == f.coverUrl)
    ensures id.None? ==> r.CreatePost? && r.published == !f.isDraft && r.image == OrEmpty(f.coverUrl)
    ensures r.title == f.title && r.body == f.body && r.token == token
  {
    match id
    case Some(i) => PatchPost(i, f.title, f.body, if Truthy(f.coverUrl) then f.coverUrl else None, f.isDraft, token)
    case None => CreatePost(f.title, f.body, OrEmpty(f.coverUrl), !f.isDraft, token)
  }

  function SaveEnd(save: AxiosReply<()>): End {
    match save
    case Failed(m) => Aborted(RequestFailed(m))
    case Resolved(_) => Saved
  }

  /** The poll of job `jobId` and, once it is done, the patch of post `id`. */
  function PollRun(f: Form, token: string, id: string, jobId: string, rs: SubmitReplies): Run {
    var n := PollLength(rs.jobs);
    var polls := Repeat(GetJob(jobId), n);
    var delays := Repeat(PollDelay, n);
    var reports := Reports(rs.jobs[..n]);
    match PollEnd(rs.jobs)
    case StillPolling => Run(polls, delays, reports, Polling)
    case Threw(c) => Run(polls, delays, reports, Aborted(c))
    case Completed => Run(polls + [SaveRequest(f, token, Some(id))], delays, reports, SaveEnd(rs.save))
  }

  /** A run that sends `rq` first. */
  function SentFirst(rq: Request, r: Run): Run {
    r.(requests := [rq] + r.requests)
  }

  /** The audio path after an upload that named the stored file `filename`. */
  function Uploaded(f: Form, token: string, filename: string, rs: SubmitReplies): Run {
    var id := PostIdOf(filename);
    if !f.generateVideo then Run([SaveRequest(f, token, Some(id))], [], [], SaveEnd(rs.save))
    else
      SentFirst(GenerateVideo(filename, f.title, token),
        match rs.gen
        case Failed(m) => Run([], [], [], Aborted(RequestFailed(m)))
        case Resolved(jobId) => PollRun(f, token, id, Interp(jobId), rs))
  }

  /** The `try` block of a submit with a title. */
  function SubmitRun(f: Form, token: string, rs: SubmitReplies): Run {
    match f.audio
    case None => Run([SaveRequest(f, token, None)], [], [], SaveEnd(rs.save))
    case Some(file) =>
      SentFirst(UploadAudio(file, token),
        match rs.upload
        case Failed(m) => Run([], [], [], Aborted(RequestFailed(m)))
        case Resolved(name) =>
          if name.None? then Run([], [], [], Aborted(MissingFilename)) else Uploaded(f, token, name.value, rs))
  }

  /** What a submit needs to save: the final write, and with audio a named upload and, with a video, a job that ends done. */
  predicate Submits(f: Form, rs: SubmitReplies) {
    && rs.save.Resolved?
    && (f.audio.Some? ==>
          && rs.upload.Resolved? && rs.upload.data.Some?
          && (f.generateVideo ==> rs.gen.Resolved? && PollEnd(rs.jobs) == Completed))
  }

  /** A submit saves exactly when its replies allow it, and its last request is then the final write. */
  lemma SubmitSavesIff(f: Form, token: string, rs: SubmitReplies)
    ensures var r := SubmitRun(f, token, rs);
      && (r.end == Saved <==> Submits(f, rs))
      && (r.end == Saved ==>
            && r.requests != []
            && r.requests[|r.requests| - 1] ==
                 SaveRequest(f, token, if f.audio.Some? then Some(PostIdOf(rs.upload.data.value)) else None))
  {
  }

  /** A submit is left polling exactly when it generates a video and every poll says the job still runs. */
  lemma SubmitPollingIff(f: Form, token: string, rs: SubmitReplies)
    ensures SubmitRun(f, token, rs).end == Polling <==>
      && f.audio.Some? && f.generateVideo && rs.upload.Resolved? && rs.upload.data.Some?
      && rs.gen.Resolved? && forall k :: 0 <= k < |rs.jobs| ==> !Terminal(rs.jobs[k])
  {
    PollEndSpec(rs.jobs);
  }

  /** The steps a submit sends before the final write. */
  predicate IsJobStep(r: Request) {
    r.GenerateVideo? || r.GetJob?
  }

  /**
   * The generate call and the polls happen only with audio and `generateVideo`: without it the
   * audio path is the upload and the patch, the text path the create call alone. With it, after
   * a named upload, the generate call comes second and carries the stored filename and the title.
   */
  lemma JobOnlyWithVideo(f: Form, token: string, rs: SubmitReplies)
    ensures var r := SubmitRun(f, token, rs);
      && ((exists i :: 0 <= i < |r.requests| && IsJobStep(r.requests[i])) ==> f.audio.Some? && f.generateVideo)
      && (f.audio.None? ==> r.requests == [SaveRequest(f, token, None)] && r.delays == [])
      && (f.audio.Some? && !f.generateVideo && rs.upload.Resolved? && rs.upload.data.Some? ==>
            r.requests == [UploadAudio(f.audio.value, token), SaveRequest(f, token, Some(PostIdOf(rs.upload.data.value)))])
      && (f.audio.Some? && f.generateVideo && rs.upload.Resolved? && rs.upload.data.Some? ==>
            |r.requests| >= 2 && r.requests[1] == GenerateVideo(rs.upload.data.value, f.title, token))
  {
    var r := SubmitRun(f, token, rs);
    if f.audio.Some? && !f.generateVideo && rs.upload.Resolved? && rs.upload.data.Some? {
      assert r.requests == [UploadAudio(f.audio.value, token), SaveRequest(f, token, Some(PostIdOf(rs.upload.data.value)))];
    }
  }

  /** Each poll waits `1200` ms and asks for the same job: the one the generate call started. */
  lemma PollsAskForTheJob(f: Form, token: string, rs: SubmitReplies)
    requires f.audio.Some? && f.generateVideo && rs.upload.Resolved? && rs.upload.data.Some? && rs.gen.Resolved?
    ensures var r := SubmitRun(f, token, rs); var n := PollLength(rs.jobs);
      && |r.requests| >= 2 + n
      && (forall k :: 2 <= k < 2 + n ==> r.requests[k] == GetJob(Interp(rs.gen.data)))
      && r.delays == Repeat(PollDelay, n)
  {
    RepeatAll(GetJob(Interp(rs.gen.data)), PollLength(rs.jobs));
  }

  // ---------------------------------------------------------------------------------------
  // The page's state as a value, and what each handler makes of it

  /** The post lists and their loading state. */
  datatype Listing = Listing(posts: seq<Post>, drafts: seq<Post>, loading: bool, error: Option<string>)

  /** The page: the form, the busy flag, the lists, and the requests, waits, progress values and alerts so far. */
  datatype Page = Page(form: Form, uploading: bool, listing: Listing, requests: seq<Request>,
                       delays: seq<nat>, history: seq<Option<int>>, alerts: seq<Alert>)

  /** `loadLists()`: both lists are asked for; a failure keeps the old lists and records its message. */
  function Reloaded(pg: Page, reply: ListsReply): (r: Page)
    ensures r.requests == pg.requests + [GetPosts, GetDrafts] && !r.listing.loading
    ensures reply.Lists? ==> r.listing.posts == reply.posts && r.listing.drafts == reply.drafts && r.listing.error == pg.listing.error
    ensures reply.ListsFailed? ==>
      r.listing.posts == pg.listing.posts && r.listing.drafts == pg.listing.drafts && r.listing.error == Some(reply.message)
    ensures r.form == pg.form && r.uploading == pg.uploading && r.alerts == pg.alerts && r.delays == pg.delays
  {
    var l := match reply
      case Lists(p, d) => Listing(p, d, false, pg.listing.error)
      case ListsFailed(m) => pg.listing.(loading := false, error := Some(m));
    pg.(requests := pg.requests + [GetPosts, GetDrafts], listing := l)
  }

  /** `resetForm()`. */
  function Reset(pg: Page): Page {
    pg.(form := InitialForm, history := pg.history + [None])
  }

  /** What follows a write to one post: a failure alerts `failure`, success reloads the lists. */
  function Written(pg: Page, reply: AxiosReply<()>, reload: ListsReply, failure: Alert): Page {
    if reply.Failed? then pg.(alerts := pg.alerts + [failure]) else Reloaded(pg, reload)
  }

  /** A write alerts only on failure and reloads only on success; the form and the busy flag stay as they are. */
  lemma WrittenSpec(pg: Page, reply: AxiosReply<()>, reload: ListsReply, failure: Alert)
    ensures var r := Written(pg, reply, reload, failure);
      && r.form == pg.form && r.uploading == pg.uploading && r.delays == pg.delays
      && r.alerts == pg.alerts + (if reply.Failed? then [failure] else [])
      && r.requests == pg.requests + (if reply.Failed? then [] else [GetPosts, GetDrafts])
      && (reply.Failed? ==> r.listing == pg.listing)
      && (reply.Resolved? ==> r.listing == Reloaded(pg, reload).listing)
  {
  }

  /** The page once the `try` block ran `r`: its requests, waits and progress values are made, and it is busy. */
  function Ran(pg: Page, r: Run): Page {
    pg.(form := pg.form.(progress := LastOr(None, r.reports)), uploading := true, requests := pg.requests + r.requests,
        delays := pg.delays + r.delays, history := pg.history + [None] + r.reports)
  }

  /** The end of `handleSubmit`: a save reloads the lists and resets the form, a throw alerts, both clear the busy flag. */
  function Concluded(pg: Page, end: End, reload: ListsReply): Page {
    match end
    case Saved => Reset(Reloaded(pg, reload)).(uploading := false)
    case Aborted(c) => pg.(alerts := pg.alerts + [PublishFailed(c)], uploading := false)
    case Polling => pg
  }

  /** `handleSubmit`: the title guard, then the run on the form with its progress cleared, then its end. */
  function Submitted(pg: Page, token: string, rs: SubmitReplies): Page {
    if pg.form.title == [] then pg.(alerts := pg.alerts + [TitleRequired])
    else
      var r := SubmitRun(pg.form.(progress := None), token, rs);
      Concluded(Ran(pg, r), r.end, rs.reload)
  }

  /** Without a title a submit only alerts: no state change and no request. */
  lemma SubmitNeedsTitle(pg: Page, token: string, rs: SubmitReplies)
    requires pg.form.title == []
    ensures var r := Submitted(pg, token, rs);
      && r.alerts == pg.alerts + [TitleRequired]
      && r.form == pg.form && r.uploading == pg.uploading && r.listing == pg.listing
      && r.requests == pg.requests && r.delays == pg.delays && r.history == pg.history
  {
  }

  /**
   * With a title, the run's requests and waits are made; a submit that saves reloads the lists and
   * resets the form without an alert; one that throws alerts its cause and keeps the form; the
   * busy flag is cleared either way and stays set only while the job is still being polled.
   */
  lemma SubmitOutcome(pg: Page, token: string, rs: SubmitReplies)
    requires pg.form.title != []
    ensures var r, run := Submitted(pg, token, rs), SubmitRun(pg.form.(progress := None), token, rs);
      && r.delays == pg.delays + run.delays
      && r.requests == pg.requests + run.requests + (if run.end == Saved then [GetPosts, GetDrafts] else [])
      && (r.uploading <==> run.end == Polling)
      && (run.end == Saved ==>
            r.form == InitialForm && r.alerts == pg.alerts && r.listing == Reloaded(pg, rs.reload).listing)
      && (run.end.Aborted? ==>
            && r.alerts == pg.alerts + [PublishFailed(run.end.cause)]
            && r.form == pg.form.(progress := LastOr(None, run.reports)) && r.listing == pg.listing)
  {
  }

  /** `handleSaveEdit`. */
  function SavedEdit(pg: Page, token: string, reply: AxiosReply<()>, reload: ListsReply): Page {
    if !Truthy(pg.form.editingId) then pg
    else
      var f := pg.form;
      var w := Written(pg.(requests := pg.requests + [PatchEdit(f.editingId.value, f.title, f.body, f.isDraft, token)]),
                       reply, reload, SaveFailed);
      (if reply.Resolved? then Reset(w) else w).(uploading := false)
  }

  /**
   * Without a (non-empty) editing id saving an edit does nothing; otherwise the title, body and
   * draft flag are patched; on success the lists are reloaded and the form reset, on failure
   * it alerts and keeps the form; the busy flag ends cleared.
   */
  lemma SavedEditSpec(pg: Page, token: string, reply: AxiosReply<()>, reload: ListsReply)
    ensures var r, f := SavedEdit(pg, token, reply, reload), pg.form;
      && (!Truthy(f.editingId) ==> r == pg)
      && (Truthy(f.editingId) ==>
            && !r.uploading
            && r.requests == pg.requests + [PatchEdit(f.editingId.value, f.title, f.body, f.isDraft, token)]
                             + (if reply.Resolved? then [GetPosts, GetDrafts] else [])
            && r.alerts == pg.alerts + (if reply.Failed? then [SaveFailed] else [])
            && r.form == (if reply.Resolved? then InitialForm else f))
  {
  }

  class AdminPageState {
    /** `ADMIN_TOKEN`, fixed when the page is built. */
    const token: string
    /** The form's state: `title`, `body`, `audioFile`, `coverFile`, `coverImageUrl`, `generateVideo`, `isDraft`, `editingId`, `progress`. */
    var form: Form
    var uploading: bool
    var posts: seq<Post>
    var drafts: seq<Post>
    var loadingLists: bool
    var error: Option<string>
    /** Every value `setProgress` was called with, in order. */
    var progressHistory: seq<Option<int>>
    var requests: seq<Request>
    var alerts: seq<Alert>
    /** The waits the page slept, in milliseconds. */
    var delays: seq<nat>

    function PageNow(): Page
      reads this
    {
      Page(form, uploading, Listing(posts, drafts, loadingLists, error), requests, delays, progressHistory, alerts)
    }

    /** The fields the poll loop changes. */
    function PolledNow(): Polled
      reads this
    {
      Polled(requests, delays, progressHistory, form.progress)
    }

    /** The page as first rendered, before the lists are loaded. */
    constructor(adminToken: string)
      ensures token == adminToken
      ensures PageNow() == Page(InitialForm, false, Listing([], [], true, None), [], [], [], [])
    {
      token := adminToken;
      form, uploading := InitialForm, false;
      posts, drafts, loadingLists, error := [], [], true, None;
      progressHistory, requests, alerts, delays := [], [], [], [];
    }

    method LoadLists(reply: ListsReply)
      modifies this`posts, this`drafts, this`loadingLists, this`error, this`requests
      ensures PageNow() == Reloaded(old(PageNow()), reply)
    {
      loadingLists := true;
      requests := requests + [GetPosts, GetDrafts];
      match reply {
        case Lists(p, d) =>
          posts, drafts := p, d;
        case ListsFailed(m) =>
          error := Some(m);
      }
      loadingLists := false;
    }

    /** `resetForm()`: the form goes back to the page's initial values. */
    method ResetForm()
      modifies this`form, this`progressHistory
      ensures PageNow() == Reset(old(PageNow()))
    {
      form, progressHistory := InitialForm, progressHistory + [None];
    }

    /** The title input's `onChange`. */
    method SetTitle(t: string)
      modifies this`form
      ensures form == old(form).(title := t)
    {
      form := form.(title := t);
    }

    /** The body textarea's `onChange`. */
    method SetBody(b: string)
      modifies this`form
      ensures form == old(form).(body := b)
    {
      form := form.(body := b);
    }

    /** The audio input's `onChange`: the first chosen file, or none. */
    method SetAudioFile(chosen: seq<File>)
      modifies this`form
      ensures form == old(form).(audio := if chosen == [] then None else Some(chosen[0]))
    {
      form := form.(audio := if chosen == [] then None else Some(chosen[0]));
    }

    /** The "generate video" checkbox's `onChange`. */
    method SetGenerateVideo(checked: bool)
      modifies this`form
      ensures form == old(form).(generateVideo := checked)
    {
      form := form.(generateVideo := checked);
    }

    /** The "draft" checkbox's `onChange`. */
    method SetIsDraft(checked: bool)
      modifies this`form
      ensures form == old(form).(isDraft := checked)
    {
      form := form.(isDraft := checked);
    }

    /** `onImageSelected`: uploads the chosen image and appends it to the body; a failure only alerts. */
    method InsertImage(file: Option<File>, reply: AxiosReply<Option<string>>)
      modifies this`form, this`requests, this`alerts
      ensures file.None? ==> form == old(form) && requests == old(requests) && alerts == old(alerts)
      ensures file.Some? ==> requests == old(requests) + [UploadImage(file.value, token)]
      ensures file.Some? && reply.Resolved? ==>
        form == old(form).(body := WithImage(old(form.body), Interp(reply.data))) && alerts == old(alerts)
      ensures file.Some? && reply.Failed? ==> form == old(form) && alerts == old(alerts) + [ImageUploadFailed]
    {
      if file.None? {
        return;
      }
      requests := requests + [UploadImage(file.value, token)];
      match reply
      case Resolved(url) =>
        form := form.(body := WithImage(form.body, Interp(url)));
      case Failed(_) =>
        alerts := alerts + [ImageUploadFailed];
    }

    /**
     * `onCoverSelected`: the chosen file replaces the cover; no file clears the URL, otherwise
     * the file is uploaded and its URL kept. A failed upload alerts and keeps the earlier URL.
     */
    method SelectCover(file: Option<File>, reply: AxiosReply<Option<string>>)
      modifies this`form, this`requests, this`alerts
      ensures file.None? ==> form == old(form).(coverFile := file, coverUrl := Some([])) && requests == old(requests) && alerts == old(alerts)
      ensures file.Some? ==> requests == old(requests) + [UploadImage(file.value, token)]
      ensures file.Some? && reply.Resolved? ==> form == old(form).(coverFile := file, coverUrl := reply.data) && alerts == old(alerts)
      ensures file.Some? && reply.Failed? ==> form == old(form).(coverFile := file) && alerts == old(alerts) + [CoverUploadFailed]
    {
      form := form.(coverFile := file);
      if file.None? {
        form := form.(coverUrl := Some([]));
        return;
      }
      requests := requests + [UploadImage(file.value, token)];
      match reply
      case Resolved(url) =>
        form := form.(coverUrl := url);
      case Failed(_) =>
        alerts := alerts + [CoverUploadFailed];
    }

    /** One turn of the poll loop: wait, fetch the job and show its progress; `'done'` completes, `'error'` throws. */
    method ReadJob(jobId: string, reply: AxiosReply<Job>) returns (complete: bool, thrown: Option<Cause>)
      modifies this`form, this`progressHistory, this`requests, this`delays
      ensures form == old(form).(progress := form.progress)
      ensures PolledNow() == AfterRead(old(PolledNow()), jobId, reply)
      ensures complete <==> reply.Resolved? && reply.data.state == Finished
      ensures thrown.Some? <==> Terminal(reply) && !complete
      ensures thrown.Some? ==> Threw(thrown.value) == PollEnd([reply])
    {
      delays := delays + [PollDelay];
      requests := requests + [GetJob(jobId)];
      complete, thrown := false, None;
      match reply
      case Failed(m) =>
        thrown := Some(RequestFailed(m));
      case Resolved(job) =>
        form := form.(progress := job.progress);
        progressHistory := progressHistory + [job.progress];
        if job.state == Finished {
          complete := true;
        } else if job.state == Errored {
          thrown := Some(JobFailed(job.error));
        }
    }

    /** The `while (!complete)` loop over the replies `jobs`. */
    method PollJob(jobId: string, jobs: seq<AxiosReply<Job>>) returns (end: Poll)
      modifies this`form, this`progressHistory, this`requests, this`delays
      ensures form == old(form).(progress := form.progress)
      ensures end == PollEnd(jobs)
      ensures PolledNow() == AfterReads(old(PolledNow()), jobId, jobs[..PollLength(jobs)])
    {
      var complete := false;
      var i := 0;
      while !complete
        invariant 0 <= i <= |jobs|
        invariant forall k :: 0 <= k < i - 1 ==> !Terminal(jobs[k])
        invariant !complete && 0 < i ==> !Terminal(jobs[i - 1])
        invariant complete ==> 0 < i && jobs[i - 1].Resolved? && jobs[i - 1].data.state == Finished
        invariant PolledNow() == AfterReads(old(PolledNow()), jobId, jobs[..i])
        invariant form == old(form).(progress := form.progress)
        decreases |jobs| - i
      {
        if i == |jobs| {
          PollRunsOut(jobs);
          assert jobs[..i] == jobs;
          return StillPolling;
        }
        var thrown;
        complete, thrown := ReadJob(jobId, jobs[i]);
        assert jobs[..i + 1][..i] == jobs[..i];
        if thrown.Some? {
          PollStopsAt(jobs, i);
          i := i + 1;
          return Threw(thrown.value);
        }
        i := i + 1;
      }
      PollStopsAt(jobs, i - 1);
      end := Completed;
    }

    /** The final write with the form's fields: the patch of post `id`, or the create call. */
    method Save(id: Option<string>, save: AxiosReply<()>) returns (end: End)
      modifies this`requests
      ensures requests == old(requests) + [SaveRequest(form, token, id)] && end == SaveEnd(save)
    {
      requests := requests + [SaveRequest(form, token, id)];
      end := SaveEnd(save);
    }

    /** The poll of job `jobId` and, once it is done, the patch of post `id`. */
    method PollThenSave(id: string, jobId: string, rs: SubmitReplies) returns (end: End)
      modifies this`form, this`progressHistory, this`requests, this`delays
      ensures form == old(form).(progress := form.progress)
      ensures var r := PollRun(old(form), token, id, jobId, rs);
        end == r.end && PolledNow() == Extend(old(PolledNow()), r)
    {
      ghost var v := PolledNow();
      var p := PollJob(jobId, rs.jobs);
      AfterReadsSpec(v, jobId, rs.jobs[..PollLength(rs.jobs)]);
      match p {
        case StillPolling =>
          end := Polling;
        case Threw(c) =>
          end := Aborted(c);
        case Completed =>
          end := Save(Some(id), rs.save);
      }
    }

    /** The audio path after an upload that stored the file as `filename`. */
    method AfterUpload(filename: string, rs: SubmitReplies) returns (end: End)
      modifies this`form, this`progressHistory, this`requests, this`delays
      ensures form == old(form).(progress := form.progress)
      ensures var r := Uploaded(old(form), token, filename, rs);
        end == r.end && PolledNow() == Extend(old(PolledNow()), r)
    {
      var id := PostIdOf(filename);
      if !form.generateVideo {
        end := Save(Some(id), rs.save);
        return;
      }
      ghost var v := PolledNow();
      var gen := GenerateVideo(filename, form.title, token);
      requests := requests + [gen];
      ghost var tail := match rs.gen
        case Failed(m) => Run([], [], [], Aborted(RequestFailed(m)))
        case Resolved(jobId) => PollRun(old(form), token, id, Interp(jobId), rs);
      ExtendSentFirst(v, gen, tail);
      match rs.gen
      case Failed(m) =>
        end := Aborted(RequestFailed(m));
      case Resolved(jobId) =>
        end := PollThenSave(id, Interp(jobId), rs);
    }

    /** The `try` block of `handleSubmit` once the title is set. */
    method Send(rs: SubmitReplies) returns (end: End)
      modifies this`form, this`progressHistory, this`requests, this`delays
      ensures form == old(form).(progress := form.progress)
      ensures var r := SubmitRun(old(form), token, rs);
        end == r.end && PolledNow() == Extend(old(PolledNow()), r)
    {
      if form.audio.None? {
        end := Save(None, rs.save);
        return;
      }
      ghost var v := PolledNow();
      var up := UploadAudio(form.audio.value, token);
      requests := requests + [up];
      ghost var tail := match rs.upload
        case Failed(m) => Run([], [], [], Aborted(RequestFailed(m)))
        case Resolved(name) =>
          if name.None? then Run([], [], [], Aborted(MissingFilename)) else Uploaded(old(form), token, name.value, rs);
      ExtendSentFirst(v, up, tail);
      match rs.upload
      case Failed(m) =>
        end := Aborted(RequestFailed(m));
      case Resolved(name) =>
        if name.None? {
          end := Aborted(MissingFilename);
        } else {
          end := AfterUpload(name.value, rs);
        }
    }

    method Conclude(end: End, reload: ListsReply)
      modifies this
      ensures PageNow() == Concluded(old(PageNow()), end, reload)
    {
      match end
      case Saved =>
        LoadLists(reload);
        ResetForm();
        uploading := false;
      case Aborted(c) =>
        alerts := alerts + [PublishFailed(c)];
        uploading := false;
      case Polling =>
    }

    /** `handleSubmit`. */
    method HandleSubmit(rs: SubmitReplies)
      modifies this
      ensures PageNow() == Submitted(old(PageNow()), token, rs)
    {
      if form.title == [] {
        alerts := alerts + [TitleRequired];
        return;
      }
      ghost var pg := PageNow();
      uploading := true;
      form, progressHistory := form.(progress := None), progressHistory + [None];
      var end := Send(rs);
      ghost var r := SubmitRun(pg.form.(progress := None), token, rs);
      assert PageNow() == Ran(pg, r);
      Conclude(end, rs.reload);
    }

    method AfterWrite(reply: AxiosReply<()>, reload: ListsReply, failure: Alert)
      modifies this`posts, this`drafts, this`loadingLists, this`error, this`requests, this`alerts
      ensures PageNow() == Written(old(PageNow()), reply, reload, failure)
    {
      if reply.Failed? {
        alerts := alerts + [failure];
      } else {
        LoadLists(reload);
      }
    }

    /** `handleDelete`: nothing without confirmation; otherwise the post is moved to the trash. */
    method HandleDelete(id: string, confirmed: bool, reply: AxiosReply<()>, reload: ListsReply)
      modifies this`posts, this`drafts, this`loadingLists, this`error, this`requests, this`alerts
      ensures !confirmed ==> PageNow() == old(PageNow())
      ensures confirmed ==>
        PageNow() == Written(old(PageNow()).(requests := old(requests) + [DeletePost(id, token)]), reply, reload, DeleteFailed)
    {
      if !confirmed {
        return;
      }
      requests := requests + [DeletePost(id, token)];
      AfterWrite(reply, reload, DeleteFailed);
    }

    /** `handleRestore`: brings a post back from the trash. */
    method HandleRestore(id: string, reply: AxiosReply<()>, reload: ListsReply)
      modifies this`posts, this`drafts, this`loadingLists, this`error, this`requests, this`alerts
      ensures PageNow() == Written(old(PageNow()).(requests := old(requests) + [RestorePost(id, token)]), reply, reload, RestoreFailed)
    {
      requests := requests + [RestorePost(id, token)];
      AfterWrite(reply, reload, RestoreFailed);
    }

    /** `handleToggleDraft`: sets the post's draft flag to `draft`. */
    method HandleToggleDraft(id: string, draft: bool, reply: AxiosReply<()>, reload: ListsReply)
      modifies this`posts, this`drafts, this`loadingLists, this`error, this`requests, this`alerts
      ensures PageNow() == Written(old(PageNow()).(requests := old(requests) + [PatchDraft(id, draft, token)]), reply, reload, ToggleDraftFailed)
    {
      requests := requests + [PatchDraft(id, draft, token)];
      AfterWrite(reply, reload, ToggleDraftFailed);
    }

    /** `handleEdit`: the form takes the post's id, title, body and draft flag, and drops audio and progress. */
    method HandleEdit(id: string, postTitle: string, postBody: string, postDraft: bool)
      modifies this`form, this`progressHistory
      ensures form == old(form).(editingId := Some(id), title := postTitle, body := postBody,
                                 isDraft := postDraft, audio := None, progress := None)
      ensures progressHistory == old(progressHistory) + [None]
    {
      form := form.(editingId := Some(id), title := postTitle, body := postBody, isDraft := postDraft);
      form, progressHistory := form.(audio := None, progress := None), progressHistory + [None];
    }

    /** `handleSaveEdit`. */
    method HandleSaveEdit(reply: AxiosReply<()>, reload: ListsReply)
      modifies this
      ensures PageNow() == SavedEdit(old(PageNow()), token, reply, reload)
    {
      if !Truthy(form.editingId) {
        return;
      }
      uploading := true;
      requests := requests + [PatchEdit(form.editingId.value, form.title, form.body, form.isDraft, token)];
      AfterWrite(reply, reload, SaveFailed);
      if reply.Resolved? {
        ResetForm();
      }
      uploading := false;
    }
  }
}
