/**
 * The unified publish form (`src/components/Publish.jsx`): a markdown post with an optional
 * cover image and an optional audio file. With audio, the file is uploaded, a video is
 * optionally generated for it and the post's metadata is patched; without audio, the post is
 * created directly.
 *
 * Each step of a handler is described by an `Effect` (the statuses it sets, the message it
 * leaves, the toasts it shows and the requests it sends), and the handlers are proved to
 * apply the composition of their steps' effects to what the form shows.
 */
module Publish {
  import opened Wrappers
  import opened Strings
  import opened Http
  import opened UploadProgress

  datatype Status = Idle | Uploading | Generating | Saving | Publishing | Done | Error

  /** A `File` picked in an input; only its name matters here. */
  datatype MediaFile = MediaFile(name: string)

  /** The reply body of the audio upload and of the generate call: `{ id }`. */
  datatype IdJson = IdJson(id: Option<string>)

  datatype Request =
    | UploadAudio(audio: MediaFile, token: string)
    | UploadImage(image: MediaFile, token: string)
    | GenerateVideo(filename: string, title: string, token: string)
    | PatchPost(postId: string, title: string, body: string, imageUrl: string, draft: bool, token: string)
    | CreatePost(title: string, body: string, imageUrl: string, published: bool, token: string)

  const DefaultTitle := "The Gargantuan"
  /** Milliseconds before `onDone` is called once the post is published. */
  const DoneDelay := 500

  // ---------------------------------------------------------------------------------------
  // Messages and toasts

  /** The places `unauthorized(where)` is called from, and the names it gives them. */
  datatype Place = NoToken | CoverPlace | UploadPlace | GeneratePlace | PatchPlace | CreatePlace

  function PlaceName(p: Place): string {
    match p
    case NoToken => "no token"
    case CoverPlace => "cover"
    case UploadPlace => "upload"
    case GeneratePlace => "generate"
    case PatchPlace => "patch"
    case CreatePlace => "create"
  }

  /** The texts the form shows as its message or in a toast; `Text` spells each one out. */
  datatype Notice =
    | Blank
    | UploadingAudio | GeneratingVideo | SavingMetadata | PublishingPost | AllDone
    | PublishedOk | CoverUploaded | ImageUploaded | NetworkFailure | BadJson
    /** A step refused for want of a token. */
    | CoverRefused | InsertRefused | ImageRefused
    | Unauthorized(where: Place)
    /** The errors thrown for a status that is not ok. */
    | CoverFailed(status: int) | UploadFailed(status: int) | ImageFailed(status: int)
    /** `err.message || fallback` for an error caught by the cover or the image upload. */
    | CoverError(message: string) | ImageError(message: string)

  function Text(n: Notice): string {
    match n
    case Blank => ""
    case UploadingAudio => "Uploading audio…"
    case GeneratingVideo => "Generating video…"
    case SavingMetadata => "Saving metadata…"
    case PublishingPost => "Publishing…"
    case AllDone => "All done!"
    case PublishedOk => "Published successfully."
    case CoverUploaded => "Cover uploaded"
    case ImageUploaded => "Image uploaded"
    case NetworkFailure => "Network error during upload"
    case BadJson => "Bad JSON"
    case CoverRefused => "Unauthorized (cover upload)."
    case InsertRefused => "Unauthorized (insert image)."
    case ImageRefused => "Unauthorized (image upload)."
    case Unauthorized(where) => UnauthorizedMessage(PlaceName(where))
    case CoverFailed(status) => FailedStatus("Cover upload", status)
    case UploadFailed(status) => FailedStatus("Upload", status)
    case ImageFailed(status) => FailedStatus("Image upload", status)
    case CoverError(message) => ErrorText(message, "Cover upload failed")
    case ImageError(message) => ErrorText(message, "Image upload failed")
  }

  /** The two kinds of toast, `'ok'` and `'error'`. */
  datatype Kind = Success | Failure

  /** A toast shown with `toast.show(text, kind)`. */
  datatype Note = Note(notice: Notice, kind: Kind)

  // ---------------------------------------------------------------------------------------
  // Effects

  /**
   * What a step shows and sends: the statuses it sets, in order, the message it leaves
   * (`None`: the message is untouched), the toasts it shows and the requests it sends.
   */
  datatype Effect = Effect(statuses: seq<Status>, message: Option<Notice>, toasts: seq<Note>, requests: seq<Request>)

  const Nothing := Effect([], None, [], [])

  /** The step `a`, then the step `b`. */
  function Then(a: Effect, b: Effect): Effect {
    Effect(a.statuses + b.statuses, if b.message.Some? then b.message else a.message,
           a.toasts + b.toasts, a.requests + b.requests)
  }

  /** `setStatus(s); setMessage(msg)`. */
  function Stage(s: Status, msg: Notice): Effect {
    Effect([s], Some(msg), [], [])
  }

  function Sent(r: Request): Effect {
    Effect([], None, [], [r])
  }

  function Toasted(msg: Notice, kind: Kind): Effect {
    Effect([], None, [Note(msg, kind)], [])
  }

  /** `unauthorized(where)`: status `error`, the message, and the same message as a toast. */
  function UnauthorizedEffect(where: Place): Effect {
    var msg := Unauthorized(where);
    Effect([Error], Some(msg), [Note(msg, Failure)], [])
  }

  /** The end of a successful publish. */
  const Published := Effect([Done], Some(AllDone), [Note(PublishedOk, Success)], [])

  /** What the form shows: the status and its history, the message, the toasts and the requests sent. */
  datatype View = View(history: seq<Status>, status: Status, message: Notice, toasts: seq<Note>, requests: seq<Request>)

  /** The view after a step with effect `e`. */
  function Apply(v: View, e: Effect): View
  {
    View(v.history + e.statuses, if e.statuses == [] then v.status else e.statuses[|e.statuses| - 1],
         e.message.GetOr(v.message), v.toasts + e.toasts, v.requests + e.requests)
  }

  /** Applying two steps one after the other is applying their composition. */
  lemma ApplyThen(v: View, a: Effect, b: Effect)
    ensures Apply(Apply(v, a), b) == Apply(v, Then(a, b))
  {
    assert (v.history + a.statuses) + b.statuses == v.history + (a.statuses + b.statuses);
    assert (v.toasts + a.toasts) + b.toasts == v.toasts + (a.toasts + b.toasts);
    assert (v.requests + a.requests) + b.requests == v.requests + (a.requests + b.requests);
  }

  // ---------------------------------------------------------------------------------------
  // The steps of a publish

  predicate IsDot(c: char) { c == '.' }

  predicate NoDot(s: string) {
    forall j :: 0 <= j < |s| ==> s[j] != '.'
  }

  /** The extension of a file name: the characters after its last `'.'`, up to its end. */
  function Extension(name: string): string
    decreases |name|
  {
    if name == [] || name[|name| - 1] == '.' then []
    else Extension(name[..|name| - 1]) + [name[|name| - 1]]
  }

  /**
   * The extension is the longest suffix of the name without a `'.'`: the whole name when it
   * has no dot, and otherwise what follows a dot.
   */
  lemma {:induction false} ExtensionSpec(name: string)
    ensures var r := Extension(name);
      NoDot(r) && |r| <= |name| && r == name[|name| - |r|..]
      && (|r| < |name| ==> name[|name| - |r| - 1] == '.')
    decreases |name|
  {
    if name != [] && name[|name| - 1] != '.' {
      var p, x := name[..|name| - 1], name[|name| - 1];
      ExtensionSpec(p);
      var rp := Extension(p);
      assert Extension(name) == rp + [x];
      assert name == p + [x];
      assert name[|name| - |rp| - 1..] == p[|p| - |rp|..] + [x];
      assert NoDot(rp + [x]) by {
        forall j | 0 <= j < |rp| + 1 ensures (rp + [x])[j] != '.' {
          if j < |rp| { assert (rp + [x])[j] == rp[j]; }
        }
      }
      if |rp| < |p| {
        assert name[|name| - |rp| - 2] == p[|p| - |rp| - 1];
      }
    }
  }

  /** The extension is the text after the last `'.'` of the name. */
  lemma {:induction false} ExtensionAfterLastDot(name: string)
    ensures Extension(name) == name[LastIndexOf(name, '.') + 1..]
    decreases |name|
  {
    if name != [] && name[|name| - 1] != '.' {
      var p := name[..|name| - 1];
      ExtensionAfterLastDot(p);
      var l := LastIndexOf(p, '.');
      assert name[l + 1..] == p[l + 1..] + [name[|name| - 1]];
    }
  }

  /** `name.split('.').pop()` is the extension. */
  lemma ExtensionIsLastPiece(name: string)
    ensures var parts := Split(name, IsDot); parts[|parts| - 1] == Extension(name)
  {
    LastPieceAfterLastIndex(name, '.', IsDot);
    ExtensionAfterLastDot(name);
  }

  /** `` `${upRes.id}.${ext}` ``: the stored audio file the video is generated from. */
  function GenerateFilename(id: Option<string>, audioName: string): string {
    Interp(id) + "." + Extension(audioName)
  }

  /** The generate filename splits back into the upload id and the audio file's extension. */
  lemma GenerateFilenameParts(id: Option<string>, audioName: string)
    ensures var r := GenerateFilename(id, audioName);
      r[..|Interp(id)|] == Interp(id) && r[|Interp(id)|] == '.'
      && r[|Interp(id)| + 1..] == Extension(audioName)
      && LastIndexOf(r, '.') == |Interp(id)|
  {
    var r := GenerateFilename(id, audioName);
    var k := |Interp(id)|;
    ExtensionSpec(audioName);
    assert r[k + 1..] == Extension(audioName);
    forall j | k < j < |r| ensures r[j] != '.' {
      assert r[j] == Extension(audioName)[j - k - 1];
    }
    LastIndexUnique(r, '.', k);
  }

  /** The result of `uploadCover()`: its effect, the URL it returns and the cached `coverUrl` after it. */
  datatype Cover = Cover(effect: Effect, url: string, cache: string)

  /**
   * `uploadCover()` with the cover file and cached URL it reads: no file gives `''`, a cached URL
   * is returned without a request, no token only toasts; otherwise the file is uploaded and,
   * on success, its URL is returned and cached.
   */
  function CoverStep(file: Option<MediaFile>, cached: string, token: string,
                     reply: FetchReply<Option<string>>): Cover
  {
    if file.None? then Cover(Nothing, "", cached)
    else if cached != [] then Cover(Nothing, cached, cached)
    else if token == [] then Cover(Toasted(CoverRefused, Failure), "", cached)
    else
      var sent := Sent(UploadImage(file.value, token));
      match reply
      case Rejected(msg) => Cover(Then(sent, Toasted(CoverError(msg), Failure)), "", cached)
      case Response(st, url) =>
        if st == 401 then Cover(Then(sent, UnauthorizedEffect(CoverPlace)), "", cached)
        else if !IsOk(st) then Cover(Then(sent, Toasted(CoverFailed(st), Failure)), "", cached)
        else Cover(Then(sent, Toasted(CoverUploaded, Success)), OrEmpty(url), OrEmpty(url))
  }

  /**
   * What `uploadCover()` returns and sends: no file gives `''`, a cached URL is returned as is;
   * the upload is sent only for a file without a cached URL when there is a token; it sets no
   * status but `error`; a URL it returns is cached, and a new one comes from a successful reply.
   */
  lemma CoverStepSpec(file: Option<MediaFile>, cached: string, token: string, reply: FetchReply<Option<string>>)
    ensures var r := CoverStep(file, cached, token, reply);
      && (file.None? ==> r == Cover(Nothing, "", cached))
      && (file.Some? && cached != [] ==> r == Cover(Nothing, cached, cached))
      && (r.effect.requests != [] <==> file.Some? && cached == [] && token != [])
      && (r.effect.requests != [] ==> r.effect.requests == [UploadImage(file.value, token)])
      && (r.effect.statuses == [] || r.effect.statuses == [Error])
      && (r.url != [] ==> r.cache == r.url)
      && (r.url == [] ==> r.cache == cached)
      && (cached == [] && r.url != [] ==> reply.Response? && IsOk(reply.status) && r.url == OrEmpty(reply.json))
  {
  }

  /** Once a cover upload returned a URL, a later `uploadCover()` returns it again and sends nothing. */
  lemma CoverCached(file: Option<MediaFile>, cached: string, token: string,
                    first: FetchReply<Option<string>>, later: FetchReply<Option<string>>)
    requires CoverStep(file, cached, token, first).url != []
    ensures var c := CoverStep(file, cached, token, first);
      CoverStep(file, c.cache, token, later) == Cover(Nothing, c.url, c.url)
  {
  }

  /** The audio upload resolved with a parsed body. */
  predicate UploadOk(up: XhrReply<IdJson>) {
    up.Loaded? && IsOk(up.status) && up.json.Some?
  }

  /** The handling of an audio upload that did not resolve: the run stops after it. */
  function UploadFailure(up: XhrReply<IdJson>): Effect
    requires !UploadOk(up)
  {
    match up
    case NetworkError => Toasted(NetworkFailure, Failure)
    case Loaded(st, _) =>
      if st == 401 then UnauthorizedEffect(UploadPlace)
      else if !IsOk(st) then Toasted(UploadFailed(st), Failure)
      else Toasted(BadJson, Failure)
  }

  /** The generate call resolved with a parsed body. */
  predicate GenOk(gen: FetchReply<Option<IdJson>>) {
    gen.Response? && IsOk(gen.status) && gen.json.Some?
  }

  /** The generate step; any failure but a 401 is thrown and only logged. */
  function GenerateEffect(filename: string, title: string, token: string, gen: FetchReply<Option<IdJson>>): Effect {
    Then(Then(Stage(Generating, GeneratingVideo), Sent(GenerateVideo(filename, title, token))),
         if gen.Response? && gen.status == 401 then UnauthorizedEffect(GeneratePlace) else Nothing)
  }

  /** The final write succeeded. */
  predicate FinalOk(reply: FetchReply<()>) {
    reply.Response? && IsOk(reply.status)
  }

  /** The run published: its last status is `done`. */
  predicate EndsDone(s: seq<Status>) {
    s != [] && s[|s| - 1] == Done
  }

  /** The reply to the final write (patch or create): a 401 reports `where`, a success publishes. */
  function Finish(reply: FetchReply<()>, where: Place): Effect {
    if reply.Response? && reply.status == 401 then UnauthorizedEffect(where)
    else if FinalOk(reply) then Published
    else Nothing
  }

  /** The final write publishes exactly when it succeeds; it sets no status only when it failed without a 401. */
  lemma FinishSpec(reply: FetchReply<()>, where: Place)
    ensures var r := Finish(reply, where);
      && (EndsDone(r.statuses) <==> FinalOk(reply))
      && (r.statuses == [] <==> !FinalOk(reply) && !(reply.Response? && reply.status == 401))
  {
  }

  lemma ThenNothing(a: Effect)
    ensures Then(a, Nothing) == a
  {
    assert a.statuses + [] == a.statuses && a.toasts + [] == a.toasts && a.requests + [] == a.requests;
  }

  /** Whether a run ends `done` is decided by its last step that sets a status. */
  lemma EndsDoneThen(a: Effect, b: Effect)
    ensures b.statuses != [] ==> (EndsDone(Then(a, b).statuses) <==> EndsDone(b.statuses))
    ensures b.statuses == [] ==> (EndsDone(Then(a, b).statuses) <==> EndsDone(a.statuses))
  {
    assert b.statuses == [] ==> a.statuses + b.statuses == a.statuses;
  }

  /** The form's fields. */
  datatype Form = Form(title: string, body: string, draft: bool, coverFile: Option<MediaFile>,
                       coverUrl: string, generateVideo: bool, audio: Option<MediaFile>)

  /** The form as first shown, and as reset after a publish. */
  const EmptyForm := Form(DefaultTitle, "", false, None, "", true, None)

  /** What a publish reads of the form besides its files; no step of the run changes it. */
  datatype Post = Post(title: string, body: string, draft: bool, generateVideo: bool)

  function PostOf(f: Form): Post {
    Post(f.title, f.body, f.draft, f.generateVideo)
  }

  /** The cover file and the cached URL of its upload. */
  datatype CoverState = CoverState(file: Option<MediaFile>, url: string)

  /**
   * The replies `handlePublish` awaits: the audio upload, the cover upload, the generate call
   * and the final write (the patch, or the create call).
   */
  datatype Replies = Replies(up: XhrReply<IdJson>, cover: FetchReply<Option<string>>,
                             gen: FetchReply<Option<IdJson>>, save: FetchReply<()>)

  /** The upload request and the status and message set before it. */
  function UploadStart(audio: MediaFile, token: string): Effect {
    Then(Stage(Uploading, UploadingAudio), Sent(UploadAudio(audio, token)))
  }

  /**
   * The phases of `handlePublish` once the token is checked, each up to the reply it awaits:
   * with audio the upload, the cover, the generate call for `filename` and the patch of the
   * post `postId`; without audio the cover and the create call. `url` is the cover URL sent.
   */
  datatype Phase =
    | Upload(audio: MediaFile, cover: CoverState)
    | AudioCover(upId: Option<string>, audioName: string, cover: CoverState)
    | Generate(filename: string, url: string)
    | Patch(postId: string, url: string)
    | TextCover(cover: CoverState)
    | Create(url: string)

  /** The number of phases left, this one included. */
  function Rank(p: Phase): nat {
    match p
    case Upload(_, _) => 4
    case AudioCover(_, _, _) => 3
    case Generate(_, _) => 2
    case Patch(_, _) => 1
    case TextCover(_) => 2
    case Create(_) => 1
  }

  /** The phase after the cover on the audio path: the generate call, or the patch of the uploaded post. */
  function AudioNext(generateVideo: bool, upId: Option<string>, audioName: string, url: string): (p: Phase)
    ensures Rank(p) <= 2
  {
    if generateVideo then Generate(GenerateFilename(upId, audioName), url) else Patch(Interp(upId), url)
  }

  /** The effect of the run from phase `p` on. */
  function Run(p: Phase, post: Post, token: string, rs: Replies): Effect
    decreases Rank(p)
  {
    match p
    case Upload(audio, cover) =>
      Then(UploadStart(audio, token),
           if UploadOk(rs.up) then Run(AudioCover(rs.up.json.value.id, audio.name, cover), post, token, rs)
           else UploadFailure(rs.up))
    case AudioCover(upId, audioName, cover) =>
      var c := CoverStep(cover.file, cover.url, token, rs.cover);
      Then(c.effect, Run(AudioNext(post.generateVideo, upId, audioName, c.url), post, token, rs))
    case Generate(filename, url) =>
      Then(GenerateEffect(filename, post.title, token, rs.gen),
           if GenOk(rs.gen) then Run(Patch(Interp(rs.gen.json.value.id), url), post, token, rs) else Nothing)
    case Patch(postId, url) =>
      Then(Then(Stage(Saving, SavingMetadata), Sent(PatchPost(postId, post.title, post.body, url, post.draft, token))),
           Finish(rs.save, PatchPlace))
    case TextCover(cover) =>
      var c := CoverStep(cover.file, cover.url, token, rs.cover);
      Then(Then(Stage(Publishing, PublishingPost), c.effect), Run(Create(c.url), post, token, rs))
    case Create(url) =>
      Then(Sent(CreatePost(post.title, post.body, url, !post.draft, token)), Finish(rs.save, CreatePlace))
  }

  /** The first phase: the audio upload when an audio file is chosen, the text path otherwise. */
  function Start(f: Form): Phase {
    var cover := CoverState(f.coverFile, f.coverUrl);
    if f.audio.Some? then Upload(f.audio.value, cover) else TextCover(cover)
  }

  /** `handlePublish`: with no token nothing is sent. */
  function PublishRun(f: Form, token: string, rs: Replies): Effect {
    if token == [] then UnauthorizedEffect(NoToken) else Run(Start(f), PostOf(f), token, rs)
  }

  /** The cached cover URL after `handlePublish` when it did not publish. */
  function CoverAfter(f: Form, token: string, rs: Replies): string {
    if token == [] || (f.audio.Some? && !UploadOk(rs.up)) then f.coverUrl
    else CoverStep(f.coverFile, f.coverUrl, token, rs.cover).cache
  }

  /** What a publish needs to succeed: a token, the final write, and with audio the upload and (with a video) the generate call. */
  predicate Publishes(f: Form, token: string, rs: Replies) {
    token != [] && FinalOk(rs.save) && (f.audio.Some? ==> UploadOk(rs.up) && (f.generateVideo ==> GenOk(rs.gen)))
  }

  // ---------------------------------------------------------------------------------------
  // Properties of a publish

  /** Without a token nothing is sent and the form shows the `no token` error. */
  lemma NoTokenSendsNothing(f: Form, rs: Replies)
    ensures var r := PublishRun(f, [], rs);
      r.requests == [] && r.statuses == [Error] && r.message == Some(Unauthorized(NoToken))
  {
  }

  /** An audio upload that fails stops the run: only the upload was sent and nothing is published. */
  lemma UploadFailureStops(f: Form, token: string, rs: Replies)
    requires token != [] && f.audio.Some? && !UploadOk(rs.up)
    ensures var r := PublishRun(f, token, rs);
      r.requests == [UploadAudio(f.audio.value, token)] && !EndsDone(r.statuses)
      && (rs.up.Loaded? && rs.up.status == 401 ==> r.statuses == [Uploading, Error]
                                                   && r.message == Some(Unauthorized(UploadPlace)))
  {
  }

  lemma PatchDone(postId: string, url: string, post: Post, token: string, rs: Replies)
    ensures EndsDone(Run(Patch(postId, url), post, token, rs).statuses) <==> FinalOk(rs.save)
  {
    FinishSpec(rs.save, PatchPlace);
    EndsDoneThen(Then(Stage(Saving, SavingMetadata), Sent(PatchPost(postId, post.title, post.body, url, post.draft, token))),
                 Finish(rs.save, PatchPlace));
  }

  lemma GenerateDone(filename: string, url: string, post: Post, token: string, rs: Replies)
    ensures EndsDone(Run(Generate(filename, url), post, token, rs).statuses) <==> GenOk(rs.gen) && FinalOk(rs.save)
  {
    var g := GenerateEffect(filename, post.title, token, rs.gen);
    assert g.statuses != [] && !EndsDone(g.statuses);
    if GenOk(rs.gen) {
      var p := Patch(Interp(rs.gen.json.value.id), url);
      PatchDone(p.postId, url, post, token, rs);
      FinishSpec(rs.save, PatchPlace);
      EndsDoneThen(g, Run(p, post, token, rs));
    } else {
      EndsDoneThen(g, Nothing);
    }
  }

  /** After the upload, the audio path publishes exactly when the generate call (if any) and the patch succeed. */
  lemma AudioCoverDone(upId: Option<string>, audioName: string, cover: CoverState, post: Post, token: string, rs: Replies)
    ensures EndsDone(Run(AudioCover(upId, audioName, cover), post, token, rs).statuses)
        <==> (post.generateVideo ==> GenOk(rs.gen)) && FinalOk(rs.save)
  {
    var c := CoverStep(cover.file, cover.url, token, rs.cover);
    var next := AudioNext(post.generateVideo, upId, audioName, c.url);
    if post.generateVideo {
      GenerateDone(next.filename, c.url, post, token, rs);
      assert Run(next, post, token, rs).statuses != [];
    } else {
      PatchDone(next.postId, c.url, post, token, rs);
      assert Run(next, post, token, rs).statuses != [];
    }
    EndsDoneThen(c.effect, Run(next, post, token, rs));
  }

  /** The audio path publishes exactly when the upload, the generate call (if any) and the patch succeed. */
  lemma UploadDone(audio: MediaFile, cover: CoverState, post: Post, token: string, rs: Replies)
    ensures EndsDone(Run(Upload(audio, cover), post, token, rs).statuses)
        <==> UploadOk(rs.up) && (post.generateVideo ==> GenOk(rs.gen)) && FinalOk(rs.save)
  {
    var start := UploadStart(audio, token);
    if UploadOk(rs.up) {
      var next := AudioCover(rs.up.json.value.id, audio.name, cover);
      AudioCoverDone(next.upId, audio.name, cover, post, token, rs);
      EndsDoneThen(start, Run(next, post, token, rs));
    } else {
      EndsDoneThen(start, UploadFailure(rs.up));
    }
  }

  /** The text path publishes exactly when the create call succeeds. */
  lemma TextCoverDone(cover: CoverState, post: Post, token: string, rs: Replies)
    ensures EndsDone(Run(TextCover(cover), post, token, rs).statuses) <==> FinalOk(rs.save)
  {
    var c := CoverStep(cover.file, cover.url, token, rs.cover);
    var create := Sent(CreatePost(post.title, post.body, c.url, !post.draft, token));
    FinishSpec(rs.save, CreatePlace);
    EndsDoneThen(create, Finish(rs.save, CreatePlace));
    EndsDoneThen(Then(Stage(Publishing, PublishingPost), c.effect), Run(Create(c.url), post, token, rs));
  }

  /** `handlePublish` reaches `done` exactly when `Publishes` holds. */
  lemma PublishDoneIff(f: Form, token: string, rs: Replies)
    ensures EndsDone(PublishRun(f, token, rs).statuses) <==> Publishes(f, token, rs)
  {
    if token != [] {
      var cover := CoverState(f.coverFile, f.coverUrl);
      if f.audio.Some? {
        UploadDone(f.audio.value, cover, PostOf(f), token, rs);
      } else {
        TextCoverDone(cover, PostOf(f), token, rs);
      }
    }
  }

  /** The statuses set, leaving out `error`. */
  function Stages(s: seq<Status>): seq<Status> {
    if s == [] then []
    else Stages(s[..|s| - 1]) + (if s[|s| - 1] == Error then [] else [s[|s| - 1]])
  }

  lemma {:induction false} StagesAppend(a: seq<Status>, b: seq<Status>)
    ensures Stages(a + b) == Stages(a) + Stages(b)
    decreases |b|
  {
    if b == [] {
      assert a + b == a;
    } else {
      var x := b[|b| - 1];
      var last := if x == Error then [] else [x];
      assert (a + b)[..|a + b| - 1] == a + b[..|b| - 1];
      assert (a + b)[|a + b| - 1] == x;
      StagesAppend(a, b[..|b| - 1]);
      assert Stages(a + b) == Stages(a + b[..|b| - 1]) + last;
      assert Stages(b) == Stages(b[..|b| - 1]) + last;
    }
  }

  /** The stages of the audio path when everything succeeds. */
  function AudioPlan(generateVideo: bool): seq<Status> {
    [Uploading] + (if generateVideo then [Generating] else []) + [Saving, Done]
  }

  predicate IsPrefix<T(==)>(a: seq<T>, b: seq<T>) {
    |a| <= |b| && a == b[..|a|]
  }

  /** The statuses of the generate step, when there is one. */
  function GenStatuses(generateVideo: bool, gen: FetchReply<Option<IdJson>>): seq<Status> {
    if generateVideo then [Generating] + (if gen.Response? && gen.status == 401 then [Error] else []) else []
  }

  /** The statuses of the patch step, when it is reached. */
  function SaveStatuses(reached: bool, save: FetchReply<()>): seq<Status> {
    if reached then [Saving] + Finish(save, PatchPlace).statuses else []
  }

  lemma PatchStatuses(postId: string, url: string, post: Post, token: string, rs: Replies)
    ensures Run(Patch(postId, url), post, token, rs).statuses == SaveStatuses(true, rs.save)
  {
  }

  lemma GenerateStatuses(filename: string, url: string, post: Post, token: string, rs: Replies)
    ensures Run(Generate(filename, url), post, token, rs).statuses
         == GenStatuses(true, rs.gen) + SaveStatuses(GenOk(rs.gen), rs.save)
  {
    if !GenOk(rs.gen) {
      assert GenerateEffect(filename, post.title, token, rs.gen).statuses == GenStatuses(true, rs.gen);
    }
  }

  /** The statuses after the cover on the audio path. */
  lemma AudioNextStatuses(upId: Option<string>, audioName: string, url: string, post: Post, token: string, rs: Replies)
    ensures Run(AudioNext(post.generateVideo, upId, audioName, url), post, token, rs).statuses
         == GenStatuses(post.generateVideo, rs.gen) + SaveStatuses(!post.generateVideo || GenOk(rs.gen), rs.save)
  {
    if post.generateVideo {
      GenerateStatuses(GenerateFilename(upId, audioName), url, post, token, rs);
    } else {
      PatchStatuses(Interp(upId), url, post, token, rs);
      assert GenStatuses(false, rs.gen) == [];
    }
  }

  lemma AudioCoverStatuses(upId: Option<string>, audioName: string, cover: CoverState, post: Post, token: string, rs: Replies)
    ensures Run(AudioCover(upId, audioName, cover), post, token, rs).statuses
         == CoverStep(cover.file, cover.url, token, rs.cover).effect.statuses
            + GenStatuses(post.generateVideo, rs.gen) + SaveStatuses(!post.generateVideo || GenOk(rs.gen), rs.save)
  {
    var c := CoverStep(cover.file, cover.url, token, rs.cover);
    var g, v := GenStatuses(post.generateVideo, rs.gen), SaveStatuses(!post.generateVideo || GenOk(rs.gen), rs.save);
    AudioNextStatuses(upId, audioName, c.url, post, token, rs);
    assert c.effect.statuses + (g + v) == c.effect.statuses + g + v;
  }

  /** The statuses the audio path sets, step by step. */
  lemma AudioStatuses(f: Form, token: string, rs: Replies)
    requires token != [] && f.audio.Some?
    ensures PublishRun(f, token, rs).statuses ==
      if !UploadOk(rs.up) then [Uploading] + UploadFailure(rs.up).statuses
      else [Uploading] + CoverStep(f.coverFile, f.coverUrl, token, rs.cover).effect.statuses
           + GenStatuses(f.generateVideo, rs.gen) + SaveStatuses(!f.generateVideo || GenOk(rs.gen), rs.save)
  {
    if UploadOk(rs.up) {
      AudioCoverStatuses(rs.up.json.value.id, f.audio.value.name, CoverState(f.coverFile, f.coverUrl), PostOf(f), token, rs);
    }
  }

  lemma StagesOfCover(c: seq<Status>)
    requires c == [] || c == [Error]
    ensures Stages(c) == []
  {
    if c == [Error] {
      assert c[..0] == [];
    }
  }

  lemma StagesOfOne(x: Status)
    ensures Stages([x]) == if x == Error then [] else [x]
  {
    assert [x][..0] == [];
  }

  lemma StagesOfGen(generateVideo: bool, gen: FetchReply<Option<IdJson>>)
    ensures Stages(GenStatuses(generateVideo, gen)) == if generateVideo then [Generating] else []
  {
    if generateVideo {
      StagesOfOne(Generating);
      StagesOfOne(Error);
      StagesAppend([Generating], if gen.Response? && gen.status == 401 then [Error] else []);
    }
  }

  lemma StagesOfSave(reached: bool, save: FetchReply<()>)
    ensures Stages(SaveStatuses(reached, save))
         == if !reached then [] else if FinalOk(save) then [Saving, Done] else [Saving]
  {
    if reached {
      var t := Finish(save, PatchPlace).statuses;
      StagesOfOne(Saving);
      StagesOfOne(Error);
      StagesOfOne(Done);
      StagesAppend([Saving], t);
    }
  }

  lemma StagesOfFour(a: seq<Status>, b: seq<Status>, c: seq<Status>, d: seq<Status>,
                     sa: seq<Status>, sb: seq<Status>, sc: seq<Status>, sd: seq<Status>)
    requires Stages(a) == sa && Stages(b) == sb && Stages(c) == sc && Stages(d) == sd
    ensures Stages(a + b + c + d) == sa + sb + sc + sd
  {
    StagesAppend(a, b);
    StagesAppend(a + b, c);
    StagesAppend(a + b + c, d);
  }

  /** The stages up to the run's end: a prefix of the plan, the whole plan exactly when the patch is reached and succeeds. */
  lemma PlanPrefix(generateVideo: bool, reached: bool, ok: bool)
    ensures var x := [Uploading] + (if generateVideo then [Generating] else [])
                     + (if !reached then [] else if ok then [Saving, Done] else [Saving]);
      IsPrefix(x, AudioPlan(generateVideo)) && (x == AudioPlan(generateVideo) <==> reached && ok)
  {
  }

  /** The stages of `uploading`, a cover step, the generate step and the patch step. */
  lemma AudioStagesValue(c: seq<Status>, generateVideo: bool, gen: FetchReply<Option<IdJson>>,
                         reached: bool, save: FetchReply<()>)
    requires c == [] || c == [Error]
    ensures Stages([Uploading] + c + GenStatuses(generateVideo, gen) + SaveStatuses(reached, save))
         == [Uploading] + (if generateVideo then [Generating] else [])
            + (if !reached then [] else if FinalOk(save) then [Saving, Done] else [Saving])
  {
    var g, v := GenStatuses(generateVideo, gen), SaveStatuses(reached, save);
    var sg := if generateVideo then [Generating] else [];
    var sv := if !reached then [] else if FinalOk(save) then [Saving, Done] else [Saving];
    StagesOfOne(Uploading);
    StagesOfCover(c);
    StagesOfGen(generateVideo, gen);
    StagesOfSave(reached, save);
    StagesOfFour([Uploading], c, g, v, [Uploading], [], sg, sv);
    assert [Uploading] + [] == [Uploading];
  }

  /** These stages come in the order of the plan, and are all of it exactly when the patch is reached and succeeds. */
  lemma AudioStagesOf(c: seq<Status>, generateVideo: bool, gen: FetchReply<Option<IdJson>>,
                      reached: bool, save: FetchReply<()>)
    requires c == [] || c == [Error]
    ensures var s := [Uploading] + c + GenStatuses(generateVideo, gen) + SaveStatuses(reached, save);
      && IsPrefix(Stages(s), AudioPlan(generateVideo))
      && (Stages(s) == AudioPlan(generateVideo) <==> reached && FinalOk(save))
  {
    AudioStagesValue(c, generateVideo, gen, reached, save);
    PlanPrefix(generateVideo, reached, FinalOk(save));
  }

  /**
   * With audio, the stages (statuses other than `error`) follow `uploading`, `generating` (only
   * when generating a video), `saving`, `done`, in this order and each at most once, and they
   * are complete exactly when the run publishes.
   */
  lemma AudioStagesInOrder(f: Form, token: string, rs: Replies)
    requires token != [] && f.audio.Some?
    ensures var s := PublishRun(f, token, rs).statuses;
      IsPrefix(Stages(s), AudioPlan(f.generateVideo))
      && (EndsDone(s) <==> Stages(s) == AudioPlan(f.generateVideo))
  {
    AudioStatuses(f, token, rs);
    PublishDoneIff(f, token, rs);
    if !UploadOk(rs.up) {
      var tail := UploadFailure(rs.up).statuses;
      assert [Uploading] + tail == [Uploading] + tail + GenStatuses(false, rs.gen) + SaveStatuses(false, rs.save);
      AudioStagesOf(tail, false, rs.gen, false, rs.save);
    } else {
      CoverStepSpec(f.coverFile, f.coverUrl, token, rs.cover);
      AudioStagesOf(CoverStep(f.coverFile, f.coverUrl, token, rs.cover).effect.statuses, f.generateVideo,
                    rs.gen, !f.generateVideo || GenOk(rs.gen), rs.save);
    }
  }

  /** The patches the audio path sends after the generate step, if any: of the generated post, or of the uploaded one. */
  function PatchRequests(post: Post, token: string, upId: Option<string>, url: string,
                         gen: FetchReply<Option<IdJson>>): seq<Request> {
    if !post.generateVideo then [PatchPost(Interp(upId), post.title, post.body, url, post.draft, token)]
    else if GenOk(gen) then [PatchPost(Interp(gen.json.value.id), post.title, post.body, url, post.draft, token)]
    else []
  }

  lemma GenerateRequests(filename: string, url: string, post: Post, token: string, rs: Replies)
    ensures Run(Generate(filename, url), post, token, rs).requests
         == [GenerateVideo(filename, post.title, token)]
            + (if GenOk(rs.gen) then [PatchPost(Interp(rs.gen.json.value.id), post.title, post.body, url, post.draft, token)]
               else [])
  {
    var g := GenerateEffect(filename, post.title, token, rs.gen);
    assert g.requests == [GenerateVideo(filename, post.title, token)];
    if GenOk(rs.gen) {
      var p := Patch(Interp(rs.gen.json.value.id), url);
      assert Run(p, post, token, rs).requests == [PatchPost(p.postId, post.title, post.body, url, post.draft, token)];
    }
  }

  lemma AudioCoverRequests(upId: Option<string>, audioName: string, cover: CoverState, post: Post, token: string, rs: Replies)
    ensures var c := CoverStep(cover.file, cover.url, token, rs.cover);
      Run(AudioCover(upId, audioName, cover), post, token, rs).requests
      == c.effect.requests
         + (if post.generateVideo then [GenerateVideo(GenerateFilename(upId, audioName), post.title, token)] else [])
         + PatchRequests(post, token, upId, c.url, rs.gen)
  {
    var c := CoverStep(cover.file, cover.url, token, rs.cover);
    assert Run(AudioCover(upId, audioName, cover), post, token, rs).requests
        == c.effect.requests + Run(AudioNext(post.generateVideo, upId, audioName, c.url), post, token, rs).requests;
    if post.generateVideo {
      GenerateRequests(GenerateFilename(upId, audioName), c.url, post, token, rs);
    } else {
      assert c.effect.requests + [] + PatchRequests(post, token, upId, c.url, rs.gen)
          == c.effect.requests + PatchRequests(post, token, upId, c.url, rs.gen);
    }
  }

  /**
   * With audio and a successful upload: the upload, the cover upload if one is needed, the
   * generate call for `<upload id>.<extension>` when generating a video, then the patch of the
   * generated post (or of the uploaded one without a video) carrying the form's title, body,
   * draft flag and the cover URL (or `''`).
   */
  lemma AudioRequests(f: Form, token: string, rs: Replies)
    requires token != [] && f.audio.Some? && UploadOk(rs.up)
    ensures var c := CoverStep(f.coverFile, f.coverUrl, token, rs.cover);
      PublishRun(f, token, rs).requests
      == [UploadAudio(f.audio.value, token)] + c.effect.requests
         + (if f.generateVideo
            then [GenerateVideo(GenerateFilename(rs.up.json.value.id, f.audio.value.name), f.title, token)]
            else [])
         + PatchRequests(PostOf(f), token, rs.up.json.value.id, c.url, rs.gen)
  {
    AudioCoverRequests(rs.up.json.value.id, f.audio.value.name, CoverState(f.coverFile, f.coverUrl), PostOf(f), token, rs);
  }

  lemma TextCoverSteps(cover: CoverState, post: Post, token: string, rs: Replies)
    ensures var c := CoverStep(cover.file, cover.url, token, rs.cover);
      var r := Run(TextCover(cover), post, token, rs);
      && r.statuses == [Publishing] + c.effect.statuses + Finish(rs.save, CreatePlace).statuses
      && r.requests == c.effect.requests + [CreatePost(post.title, post.body, c.url, !post.draft, token)]
  {
    var c := CoverStep(cover.file, cover.url, token, rs.cover);
    var create := Run(Create(c.url), post, token, rs);
    assert create.statuses == Finish(rs.save, CreatePlace).statuses;
    assert create.requests == [CreatePost(post.title, post.body, c.url, !post.draft, token)];
  }

  /**
   * Without audio: status `publishing` first, then the cover upload if one is needed, then the
   * create call with `published = !draft`; the run publishes exactly when the create succeeds.
   */
  lemma TextPublish(f: Form, token: string, rs: Replies)
    requires token != [] && f.audio.None?
    ensures var r := PublishRun(f, token, rs);
      var c := CoverStep(f.coverFile, f.coverUrl, token, rs.cover);
      r.statuses[0] == Publishing
      && r.requests == c.effect.requests + [CreatePost(f.title, f.body, c.url, !f.draft, token)]
      && (EndsDone(r.statuses) <==> FinalOk(rs.save))
      && (EndsDone(r.statuses) ==> r.statuses == [Publishing] + c.effect.statuses + [Done])
  {
    TextCoverSteps(CoverState(f.coverFile, f.coverUrl), PostOf(f), token, rs);
    PublishDoneIff(f, token, rs);
    FinishSpec(rs.save, CreatePlace);
  }

  /** A 401 on the generate call, the patch or the create call ends the run without publishing. */
  lemma UnauthorizedEndsRun(f: Form, token: string, rs: Replies)
    requires (f.audio.Some? && f.generateVideo && rs.gen.Response? && rs.gen.status == 401)
             || (rs.save.Response? && rs.save.status == 401)
    ensures !EndsDone(PublishRun(f, token, rs).statuses)
  {
    PublishDoneIff(f, token, rs);
  }

  // ---------------------------------------------------------------------------------------
  // Changing the cover


  /** The effect of picking a new cover, and the cover state after it. */
  datatype CoverChange = CoverChange(after: CoverState, effect: Effect)

  /**
   * `handleCoverChange` as written: the new file is stored and the URL cleared, but the
   * `uploadCover()` it calls still sees the file and URL of the render before the change.
   */
  function CoverChangeAsWritten(before: CoverState, picked: MediaFile, token: string,
                                reply: FetchReply<Option<string>>): (r: CoverChange)
    ensures r.after.file == Some(picked)
    ensures r.effect == CoverStep(before.file, before.url, token, reply).effect
  {
    var c := CoverStep(before.file, before.url, token, reply);
    CoverChange(CoverState(Some(picked), if c.effect.requests != [] then c.cache else ""), c.effect)
  }

  /**
   * Replacing a first cover by a second one before publishing uploads the first file again
   * and caches its URL next to the second file, so the publish sends the first cover.
   */
  lemma StaleCoverUploaded()
    ensures var first, second := MediaFile("first.png"), MediaFile("second.png");
      var r := CoverChangeAsWritten(CoverState(Some(first), ""), second, "t", Response(200, Some("https://img/first.png")));
      r.effect.requests == [UploadImage(first, "t")]
      && r.after == CoverState(Some(second), "https://img/first.png")
      && CoverStep(r.after.file, r.after.url, "t", Rejected("")) == Cover(Nothing, "https://img/first.png", "https://img/first.png")
  {
  }

  /** Picking a cover as intended: the picked file is uploaded and its URL cached. */
  function CoverChangeIntended(picked: MediaFile, token: string, reply: FetchReply<Option<string>>): (r: CoverChange)
    ensures r.after.file == Some(picked)
    ensures token != [] ==> r.effect.requests == [UploadImage(picked, token)]
    ensures token == [] ==> r.effect.requests == []
    ensures r.after.url != [] ==> reply.Response? && IsOk(reply.status) && r.after.url == OrEmpty(reply.json)
  {
    var c := CoverStep(Some(picked), "", token, reply);
    CoverChange(CoverState(Some(picked), c.cache), c.effect)
  }

  /**
   * After an intended cover change, the publish either reuses the URL of the picked file's
   * upload or uploads the picked file: never an earlier cover.
   */
  lemma IntendedCoverIsPicked(picked: MediaFile, token: string, reply: FetchReply<Option<string>>,
                              later: FetchReply<Option<string>>)
    ensures var a := CoverChangeIntended(picked, token, reply).after;
      var c := CoverStep(a.file, a.url, token, later);
      (c.effect.requests == [] || c.effect.requests == [UploadImage(picked, token)])
      && (a.url != [] ==> c.url == a.url && c.effect == Nothing)
  {
  }

  // ---------------------------------------------------------------------------------------
  // Inserting an image into the body

  /** `` `${prev}\n\n![alt](${url})` ``: the body with a markdown image appended. */
  function WithImage(body: string, url: string): (r: string)
    ensures |r| == |body| + |url| + 10
    ensures r[..|body|] == body && r[|body|..|body| + 9] == "\n\n![alt]("
    ensures r[|body| + 9..|r| - 1] == url && r[|r| - 1] == ')'
  {
    var r := body + "\n\n![alt](" + url + ")";
    assert r[..|body|] == body;
    assert r[|body|..|body| + 9] == "\n\n![alt](";
    assert r[|body| + 9..|r| - 1] == url;
    r
  }

  /** The image upload succeeded and the body gets the image. */
  predicate InsertOk(token: string, file: Option<MediaFile>, reply: FetchReply<Option<string>>) {
    token != [] && file.Some? && reply.Response? && IsOk(reply.status)
  }

  /** `handleInsertImage`: its toasts and requests. */
  function InsertImageEffect(token: string, file: Option<MediaFile>, reply: FetchReply<Option<string>>): Effect {
    if token == [] then Toasted(InsertRefused, Failure)
    else if file.None? then Nothing
    else
      var sent := Sent(UploadImage(file.value, token));
      match reply
      case Rejected(msg) => Then(sent, Toasted(ImageError(msg), Failure))
      case Response(st, _) =>
        if st == 401 then Then(sent, Toasted(ImageRefused, Failure))
        else if !IsOk(st) then Then(sent, Toasted(ImageFailed(st), Failure))
        else Then(sent, Toasted(ImageUploaded, Success))
  }

  /**
   * Inserting an image sets no status or message; the upload is sent exactly when there is a
   * token and a file; one toast is shown unless a token is set and no file was picked, and it
   * is the success toast exactly when the upload succeeded.
   */
  lemma InsertImageSpec(token: string, file: Option<MediaFile>, reply: FetchReply<Option<string>>)
    ensures var r := InsertImageEffect(token, file, reply);
      && r.statuses == [] && r.message.None?
      && (r.requests != [] <==> token != [] && file.Some?)
      && (r.requests != [] ==> r.requests == [UploadImage(file.value, token)])
      && |r.toasts| == (if token != [] && file.None? then 0 else 1)
      && (InsertOk(token, file, reply) <==> r.toasts == [Note(ImageUploaded, Success)])
  {
    var r := InsertImageEffect(token, file, reply);
    if !InsertOk(token, file, reply) && |r.toasts| == 1 {
      assert r.toasts[0].kind == Failure;
    }
  }

  // ---------------------------------------------------------------------------------------
  // The component

  class PublishState {
    var title: string
    var body: string
    var draft: bool
    var coverFile: Option<MediaFile>
    var coverUrl: string
    var generateVideo: bool
    /** The file in the audio input. */
    var audio: Option<MediaFile>
    var status: Status
    /** Every status set, in order. */
    var statusHistory: seq<Status>
    var message: Notice
    var progress: int
    var toasts: seq<Note>
    var requests: seq<Request>
    /** The delays of the `onDone` timers set. */
    var scheduled: seq<int>

    function FormNow(): Form
      reads this
    {
      Form(title, body, draft, coverFile, coverUrl, generateVideo, audio)
    }

    function PostNow(): Post
      reads this
    {
      Post(title, body, draft, generateVideo)
    }

    function ViewNow(): View
      reads this
    {
      View(statusHistory, status, message, toasts, requests)
    }

    constructor()
      ensures FormNow() == EmptyForm && ViewNow() == View([], Idle, Blank, [], [])
      ensures progress == 0 && scheduled == []
    {
      title, body, draft, coverFile, coverUrl, generateVideo, audio := DefaultTitle, "", false, None, "", true, None;
      status, statusHistory, message, progress := Idle, [], Blank, 0;
      toasts, requests, scheduled := [], [], [];
    }

    method SetTitle(t: string)
      modifies this`title
      ensures title == t
    {
      title := t;
    }

    method SetBody(b: string)
      modifies this`body
      ensures body == b
    {
      body := b;
    }

    method SetDraft(d: bool)
      modifies this`draft
      ensures draft == d
    {
      draft := d;
    }

    method SetGenerateVideo(g: bool)
      modifies this`generateVideo
      ensures generateVideo == g
    {
      generateVideo := g;
    }

    method ChooseAudio(file: Option<MediaFile>)
      modifies this`audio
      ensures audio == file
    {
      audio := file;
    }

    method SetStage(s: Status, msg: Notice)
      modifies this`status, this`statusHistory, this`message
      ensures ViewNow() == Apply(old(ViewNow()), Stage(s, msg))
    {
      status := s;
      statusHistory := statusHistory + [s];
      message := msg;
    }

    method ShowToast(msg: Notice, kind: Kind)
      modifies this`toasts
      ensures ViewNow() == Apply(old(ViewNow()), Toasted(msg, kind))
    {
      toasts := toasts + [Note(msg, kind)];
    }

    method Send(r: Request)
      modifies this`requests
      ensures ViewNow() == Apply(old(ViewNow()), Sent(r))
    {
      requests := requests + [r];
    }

    /** `unauthorized(where)`. */
    method ShowUnauthorized(where: Place)
      modifies this`status, this`statusHistory, this`message, this`toasts
      ensures ViewNow() == Apply(old(ViewNow()), UnauthorizedEffect(where))
    {
      var msg := Unauthorized(where);
      status := Error;
      statusHistory := statusHistory + [Error];
      message := msg;
      toasts := toasts + [Note(msg, Failure)];
    }

    /** `uploadCover()`: as `CoverStep` says for the current cover file and cached URL. */
    method UploadCover(token: string, reply: FetchReply<Option<string>>) returns (url: string)
      modifies this`status, this`statusHistory, this`message, this`toasts, this`requests, this`coverUrl
      ensures var c := CoverStep(old(coverFile), old(coverUrl), token, reply);
        ViewNow() == Apply(old(ViewNow()), c.effect) && url == c.url && coverUrl == c.cache
    {
      ghost var v0 := ViewNow();
      if coverFile.None? {
        return "";
      }
      if coverUrl != [] {
        return coverUrl;
      }
      if token == [] {
        ShowToast(CoverRefused, Failure);
        return "";
      }
      var sent := UploadImage(coverFile.value, token);
      Send(sent);
      match reply {
        case Rejected(msg) =>
          ShowToast(CoverError(msg), Failure);
          ApplyThen(v0, Sent(sent), Toasted(CoverError(msg), Failure));
          url := "";
        case Response(st, u) =>
          if st == 401 {
            ShowUnauthorized(CoverPlace);
            ApplyThen(v0, Sent(sent), UnauthorizedEffect(CoverPlace));
            url := "";
          } else if !IsOk(st) {
            ShowToast(CoverFailed(st), Failure);
            ApplyThen(v0, Sent(sent), Toasted(CoverFailed(st), Failure));
            url := "";
          } else {
            coverUrl := OrEmpty(u);
            ShowToast(CoverUploaded, Success);
            ApplyThen(v0, Sent(sent), Toasted(CoverUploaded, Success));
            url := OrEmpty(u);
          }
      }
    }

    /**
     * `handleCoverChange`, with the upload made for the file just picked (see
     * `CoverChangeAsWritten` for the handler as written).
     */
    method HandleCoverChange(file: Option<MediaFile>, token: string, reply: FetchReply<Option<string>>)
      modifies this`status, this`statusHistory, this`message, this`toasts, this`requests,
               this`coverFile, this`coverUrl
      ensures file.None? ==> ViewNow() == old(ViewNow()) && coverFile == old(coverFile) && coverUrl == old(coverUrl)
      ensures file.Some? ==>
        var c := CoverChangeIntended(file.value, token, reply);
        CoverState(coverFile, coverUrl) == c.after && ViewNow() == Apply(old(ViewNow()), c.effect)
    {
      if file.None? {
        return;
      }
      coverFile := file;
      coverUrl := "";
      var _ := UploadCover(token, reply);
    }

    /** `handleInsertImage`: on success the body gets the image's markdown. */
    method HandleInsertImage(token: string, file: Option<MediaFile>, reply: FetchReply<Option<string>>)
      modifies this`toasts, this`requests, this`body
      ensures ViewNow() == Apply(old(ViewNow()), InsertImageEffect(token, file, reply))
      ensures body == (if InsertOk(token, file, reply) then WithImage(old(body), Interp(reply.json)) else old(body))
    {
      ghost var v0 := ViewNow();
      if token == [] {
        ShowToast(InsertRefused, Failure);
        return;
      }
      if file.None? {
        return;
      }
      var sent := UploadImage(file.value, token);
      Send(sent);
      var t: Note;
      match reply {
        case Rejected(msg) =>
          t := Note(ImageError(msg), Failure);
        case Response(st, url) =>
          if st == 401 {
            t := Note(ImageRefused, Failure);
          } else if !IsOk(st) {
            t := Note(ImageFailed(st), Failure);
          } else {
            body := WithImage(body, Interp(url));
            t := Note(ImageUploaded, Success);
          }
      }
      ShowToast(t.notice, t.kind);
      ApplyThen(v0, Sent(sent), Toasted(t.notice, t.kind));
    }

    /** The audio upload's reply: when it did not resolve, the failure is shown and the run stops. */
    method ReceiveUpload(up: XhrReply<IdJson>) returns (ok: bool)
      modifies this`status, this`statusHistory, this`message, this`toasts
      ensures ok == UploadOk(up)
      ensures ok ==> ViewNow() == old(ViewNow())
      ensures !ok ==> ViewNow() == Apply(old(ViewNow()), UploadFailure(up))
    {
      match up {
        case NetworkError =>
          ShowToast(NetworkFailure, Failure);
          return false;
        case Loaded(st, json) =>
          if st == 401 {
            ShowUnauthorized(UploadPlace);
            return false;
          } else if !IsOk(st) {
            ShowToast(UploadFailed(st), Failure);
            return false;
          } else if json.None? {
            ShowToast(BadJson, Failure);
            return false;
          }
          return true;
      }
    }

    /** The generate call; `ok` when it resolved with a body. */
    method GenerateStep(filename: string, token: string, gen: FetchReply<Option<IdJson>>) returns (ok: bool)
      modifies this`status, this`statusHistory, this`message, this`toasts, this`requests
      ensures ok == GenOk(gen)
      ensures ViewNow() == Apply(old(ViewNow()), GenerateEffect(filename, title, token, gen))
    {
      ghost var v0 := ViewNow();
      SetStage(Generating, GeneratingVideo);
      Send(GenerateVideo(filename, title, token));
      ApplyThen(v0, Stage(Generating, GeneratingVideo), Sent(GenerateVideo(filename, title, token)));
      ghost var head := Then(Stage(Generating, GeneratingVideo), Sent(GenerateVideo(filename, title, token)));
      if gen.Response? && gen.status == 401 {
        ShowUnauthorized(GeneratePlace);
        ApplyThen(v0, head, UnauthorizedEffect(GeneratePlace));
        return false;
      }
      assert Then(head, Nothing) == head;
      ok := GenOk(gen);
    }

    /** The reply to the final write: a success publishes and schedules `onDone`. */
    method FinishStep(reply: FetchReply<()>, where: Place) returns (done: bool)
      modifies this`status, this`statusHistory, this`message, this`toasts, this`scheduled
      ensures done == FinalOk(reply)
      ensures ViewNow() == Apply(old(ViewNow()), Finish(reply, where))
      ensures scheduled == old(scheduled) + (if done then [DoneDelay] else [])
    {
      if reply.Response? && reply.status == 401 {
        ShowUnauthorized(where);
        return false;
      }
      if !FinalOk(reply) {
        return false;
      }
      SetStage(Done, AllDone);
      ShowToast(PublishedOk, Success);
      scheduled := scheduled + [DoneDelay];
      return true;
    }

    /** The patch of the post `postId` with the form's text, its draft flag and the cover URL `url`. */
    method SaveStep(postId: string, url: string, token: string, rs: Replies) returns (done: bool)
      modifies this`status, this`statusHistory, this`message, this`toasts, this`requests, this`scheduled
      ensures done == FinalOk(rs.save)
      ensures ViewNow() == Apply(old(ViewNow()), Run(Patch(postId, url), PostNow(), token, rs))
      ensures scheduled == old(scheduled) + (if done then [DoneDelay] else [])
    {
      ghost var v0 := ViewNow();
      var patch := PatchPost(postId, title, body, url, draft, token);
      SetStage(Saving, SavingMetadata);
      Send(patch);
      ApplyThen(v0, Stage(Saving, SavingMetadata), Sent(patch));
      done := FinishStep(rs.save, PatchPlace);
      ApplyThen(v0, Then(Stage(Saving, SavingMetadata), Sent(patch)), Finish(rs.save, PatchPlace));
    }

    /** The generate call for `filename`, then, when it resolved, the patch of the generated post. */
    method GenerateThenSave(filename: string, url: string, token: string, rs: Replies) returns (done: bool)
      modifies this`status, this`statusHistory, this`message, this`toasts, this`requests, this`scheduled
      ensures done == (GenOk(rs.gen) && FinalOk(rs.save))
      ensures ViewNow() == Apply(old(ViewNow()), Run(Generate(filename, url), PostNow(), token, rs))
      ensures scheduled == old(scheduled) + (if done then [DoneDelay] else [])
    {
      ghost var v0 := ViewNow();
      ghost var g := GenerateEffect(filename, title, token, rs.gen);
      var ok := GenerateStep(filename, token, rs.gen);
      if !ok {
        ThenNothing(g);
        return false;
      }
      var p := Patch(Interp(rs.gen.json.value.id), url);
      done := SaveStep(p.postId, url, token, rs);
      ApplyThen(v0, g, Run(p, PostNow(), token, rs));
    }

    /** The phase after the cover on the audio path: the generate call and its patch, or the patch alone. */
    method AfterCover(upId: Option<string>, audioName: string, url: string, token: string, rs: Replies) returns (done: bool)
      modifies this`status, this`statusHistory, this`message, this`toasts, this`requests, this`scheduled
      ensures ViewNow() == Apply(old(ViewNow()), Run(AudioNext(generateVideo, upId, audioName, url), PostNow(), token, rs))
      ensures done == ((generateVideo ==> GenOk(rs.gen)) && FinalOk(rs.save))
      ensures scheduled == old(scheduled) + (if done then [DoneDelay] else [])
    {
      if generateVideo {
        done := GenerateThenSave(GenerateFilename(upId, audioName), url, token, rs);
      } else {
        done := SaveStep(Interp(upId), url, token, rs);
      }
    }

    /** What follows a resolved audio upload: the cover, then the phase `AudioNext` names. */
    method AfterUpload(upId: Option<string>, audioName: string, token: string, rs: Replies) returns (done: bool)
      modifies this`status, this`statusHistory, this`message, this`toasts, this`requests,
               this`coverUrl, this`scheduled
      ensures ViewNow() == Apply(old(ViewNow()),
        Run(AudioCover(upId, audioName, CoverState(coverFile, old(coverUrl))), PostNow(), token, rs))
      ensures done == ((generateVideo ==> GenOk(rs.gen)) && FinalOk(rs.save))
      ensures coverUrl == CoverStep(coverFile, old(coverUrl), token, rs.cover).cache
      ensures scheduled == old(scheduled) + (if done then [DoneDelay] else [])
    {
      ghost var v0 := ViewNow();
      ghost var c := CoverStep(coverFile, coverUrl, token, rs.cover);
      var url := UploadCover(token, rs.cover);
      done := AfterCover(upId, audioName, url, token, rs);
      ApplyThen(v0, c.effect, Run(AudioNext(generateVideo, upId, audioName, url), PostNow(), token, rs));
    }

    /** The audio upload with its progress events; the run goes on only when it resolved. */
    method UploadStep(token: string, events: seq<ProgressEvent>, up: XhrReply<IdJson>) returns (ok: bool)
      requires audio.Some?
      modifies this`status, this`statusHistory, this`message, this`toasts, this`requests, this`progress
      ensures ok == UploadOk(up)
      ensures ViewNow() == Apply(old(ViewNow()),
        if ok then UploadStart(audio.value, token) else Then(UploadStart(audio.value, token), UploadFailure(up)))
      ensures progress == AfterEvents(0, events)
    {
      ghost var v0 := ViewNow();
      var file := audio.value;
      SetStage(Uploading, UploadingAudio);
      progress := 0;
      Send(UploadAudio(file, token));
      progress := AfterEvents(0, events);
      ApplyThen(v0, Stage(Uploading, UploadingAudio), Sent(UploadAudio(file, token)));
      ok := ReceiveUpload(up);
      if !ok {
        ApplyThen(v0, UploadStart(file, token), UploadFailure(up));
      }
    }

    /** The audio path of `handlePublish`. */
    method AudioPath(token: string, events: seq<ProgressEvent>, rs: Replies) returns (done: bool)
      requires audio.Some?
      modifies this`status, this`statusHistory, this`message, this`toasts, this`requests,
               this`coverUrl, this`progress, this`scheduled
      ensures ViewNow() == Apply(old(ViewNow()),
        Run(Upload(audio.value, CoverState(coverFile, old(coverUrl))), PostNow(), token, rs))
      ensures done == (UploadOk(rs.up) && (generateVideo ==> GenOk(rs.gen)) && FinalOk(rs.save))
      ensures progress == AfterEvents(0, events)
      ensures coverUrl == if UploadOk(rs.up) then CoverStep(coverFile, old(coverUrl), token, rs.cover).cache
                          else old(coverUrl)
      ensures scheduled == old(scheduled) + (if done then [DoneDelay] else [])
    {
      ghost var v0 := ViewNow();
      var ok := UploadStep(token, events, rs.up);
      if !ok {
        return false;
      }
      var next := AudioCover(rs.up.json.value.id, audio.value.name, CoverState(coverFile, coverUrl));
      done := AfterUpload(next.upId, audio.value.name, token, rs);
      ApplyThen(v0, UploadStart(audio.value, token), Run(next, PostNow(), token, rs));
    }

    /** The create call with the cover URL `url`, publishing the post unless it is a draft. */
    method CreateStep(url: string, token: string, rs: Replies) returns (done: bool)
      modifies this`status, this`statusHistory, this`message, this`toasts, this`requests, this`scheduled
      ensures done == FinalOk(rs.save)
      ensures ViewNow() == Apply(old(ViewNow()), Run(Create(url), PostNow(), token, rs))
      ensures scheduled == old(scheduled) + (if done then [DoneDelay] else [])
    {
      ghost var v0 := ViewNow();
      var create := CreatePost(title, body, url, !draft, token);
      Send(create);
      done := FinishStep(rs.save, CreatePlace);
      ApplyThen(v0, Sent(create), Finish(rs.save, CreatePlace));
    }

    /** The text path of `handlePublish`. */
    method TextPath(token: string, rs: Replies) returns (done: bool)
      modifies this`status, this`statusHistory, this`message, this`toasts, this`requests,
               this`coverUrl, this`scheduled
      ensures ViewNow() == Apply(old(ViewNow()), Run(TextCover(CoverState(coverFile, old(coverUrl))), PostNow(), token, rs))
      ensures done == FinalOk(rs.save)
      ensures coverUrl == CoverStep(coverFile, old(coverUrl), token, rs.cover).cache
      ensures scheduled == old(scheduled) + (if done then [DoneDelay] else [])
    {
      ghost var v0 := ViewNow();
      ghost var c := CoverStep(coverFile, coverUrl, token, rs.cover);
      SetStage(Publishing, PublishingPost);
      var url := UploadCover(token, rs.cover);
      ApplyThen(v0, Stage(Publishing, PublishingPost), c.effect);
      done := CreateStep(url, token, rs);
      ApplyThen(v0, Then(Stage(Publishing, PublishingPost), c.effect), Run(Create(url), PostNow(), token, rs));
    }

    /** The run of `handlePublish` before the reset: the error without a token, else the audio or the text path. */
    method PublishSteps(token: string, events: seq<ProgressEvent>, rs: Replies) returns (done: bool)
      modifies this`status, this`statusHistory, this`message, this`toasts, this`requests,
               this`coverUrl, this`progress, this`scheduled
      ensures ViewNow() == Apply(old(ViewNow()), PublishRun(old(FormNow()), token, rs))
      ensures done == Publishes(old(FormNow()), token, rs)
      ensures coverUrl == CoverAfter(old(FormNow()), token, rs)
      ensures progress == (if token != [] && audio.Some? then AfterEvents(0, events) else old(progress))
      ensures scheduled == old(scheduled) + (if done then [DoneDelay] else [])
    {
      if token == [] {
        ShowUnauthorized(NoToken);
        return false;
      }
      if audio.Some? {
        done := AudioPath(token, events, rs);
      } else {
        done := TextPath(token, rs);
      }
    }

    /**
     * `handlePublish`: the run, and a reset of the form when it published; otherwise the form
     * keeps its fields, with the cover URL the run cached.
     */
    method HandlePublish(token: string, events: seq<ProgressEvent>, rs: Replies)
      modifies this
      ensures ViewNow() == Apply(old(ViewNow()), PublishRun(old(FormNow()), token, rs))
      ensures var f := old(FormNow());
        && (Publishes(f, token, rs) ==> FormNow() == EmptyForm && scheduled == old(scheduled) + [DoneDelay])
        && (!Publishes(f, token, rs) ==>
              FormNow() == f.(coverUrl := CoverAfter(f, token, rs)) && scheduled == old(scheduled))
        && progress == (if token != [] && f.audio.Some? then AfterEvents(0, events) else old(progress))
    {
      var done := PublishSteps(token, events, rs);
      if done {
        title, body, draft, coverFile, coverUrl, generateVideo, audio := DefaultTitle, "", false, None, "", true, None;
      }
    }
  }
}
