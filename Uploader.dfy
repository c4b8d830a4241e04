/**
 * The "Publish today's audio" uploader: an MP3 goes up over XHR with a progress bar, then a
 * video is generated from the stored file, and the feed is refreshed.
 */
module Uploader {
  import opened Wrappers
  import opened Strings
  import opened Http
  import opened UploadProgress

  datatype Status = Idle | Uploading | Generating | Done | Error

  /** A file as the browser describes it: its name and MIME type. */
  datatype AudioFile = AudioFile(name: string, mime: string)

  /** The reply of the generate call, handed to `onDone`. */
  datatype GenJson = GenJson(jobId: Option<string>, id: Option<string>)

  datatype Request =
    | UploadAudio(file: AudioFile, token: Option<string>)
    | GenerateVideo(filename: string, title: string, token: Option<string>)

  const DefaultTitle: string := "The Gargantuan"
  /** Delay before `onDone` runs, in milliseconds. */
  const DoneDelay: nat := 800

  /** `type.match(/audio\/(mp3|mpeg)/)`: unanchored, so the pattern may sit anywhere in the type. */
  predicate MimeOk(mime: string) {
    Contains(mime, "audio/mp3") || Contains(mime, "audio/mpeg")
  }

  /** A type is accepted iff one of the two patterns occurs in it at some position. */
  lemma MimeOkIff(mime: string)
    ensures MimeOk(mime) <==> (exists i :: OccursAt(mime, "audio/mp3", i)) || (exists i :: OccursAt(mime, "audio/mpeg", i))
  {
    ContainsIffOccurs(mime, "audio/mp3");
    ContainsIffOccurs(mime, "audio/mpeg");
  }

  /** The two MP3 types pass, and so does any type that merely contains one of them. */
  lemma MimeExamples()
    ensures MimeOk("audio/mpeg") && MimeOk("audio/mp3") && MimeOk("xaudio/mp3x")
    ensures !MimeOk("audio/wav")
  {
    assert OccursAt("audio/mpeg", "audio/mpeg", 0);
    assert OccursAt("audio/mp3", "audio/mp3", 0);
    assert OccursAt("xaudio/mp3x", "audio/mp3", 1);
    MimeOkIff("audio/mpeg");
    MimeOkIff("audio/mp3");
    MimeOkIff("xaudio/mp3x");
    MimeOkIff("audio/wav");
    assert !OccursAt("audio/wav", "audio/mp3", 0) by {
      assert "audio/wav"[..9][6] != "audio/mp3"[6];
    }
  }

  /** The `x-admin-token` header: sent iff the token is non-empty. */
  function Header(token: string): (r: Option<string>)
    ensures r.Some? <==> token != []
    ensures r.Some? ==> r.value == token
  {
    if token != [] then Some(token) else None
  }

  /** The message of an upload that did not load with 2xx or 401. */
  function UploadFailedMessage(status: int): (r: string)
    ensures |r| > 15 && r[..15] == "Upload failed ("
  {
    var r := "Upload failed (" + IntToString(status) + ")";
    assert r[..15] == "Upload failed (";
    r
  }

  /** The upload loaded with 2xx and a JSON body that names the stored file. */
  predicate NamesFile(up: XhrReply<UploadJson>) {
    up.Loaded? && IsOk(up.status) && up.json.Some? && Truthy(up.json.value.filename)
  }

  /** What a step of a run shows: the statuses it sets in order, the message it leaves, the toasts it adds. */
  datatype Shown = Shown(statuses: seq<Status>, message: string, toasts: seq<Toast>)

  /** An error shown as status, message and toast alike. */
  function Failure(msg: string): Shown {
    Shown([Error], msg, [Toast(msg, "error")])
  }

  const UploadingMessage: string := "Uploading audio…"
  const GeneratingMessage: string := "Generating video…"
  const DoneMessage: string := "All done! Refreshing feed…"

  /** The upload reply when it does not lead on to generating. */
  function UploadEnd(up: XhrReply<UploadJson>): (r: Shown)
    requires !NamesFile(up)
    ensures up.NetworkError? ==> r == Failure("Network error during upload")
    ensures up.Loaded? && up.status == 401 ==> r == Failure(UnauthorizedMessage("upload"))
    ensures up.Loaded? && up.status != 401 && !IsOk(up.status) ==> r == Failure(UploadFailedMessage(up.status))
    ensures up.Loaded? && IsOk(up.status) && up.json.None? ==> r == Failure("Bad JSON from server")
    ensures up.Loaded? && IsOk(up.status) && up.json.Some? ==> r == Shown([], UploadingMessage, [])
  {
    match up
    case NetworkError => Failure("Network error during upload")
    case Loaded(st, json) =>
      if st == 401 then Failure(UnauthorizedMessage("upload"))
      else if !IsOk(st) then Failure(UploadFailedMessage(st))
      else if json.None? then Failure("Bad JSON from server")
      else Shown([], UploadingMessage, [])
  }

  /** The generate step: 401 is an error, an ok JSON reply is done, anything else is swallowed. */
  function GenerateEnd(gen: FetchReply<Option<GenJson>>): (r: Shown)
    ensures gen.Response? && gen.status == 401 ==>
      r == Shown([Generating, Error], UnauthorizedMessage("generate"), [Toast(UnauthorizedMessage("generate"), "error")])
    ensures gen.Response? && IsOk(gen.status) && gen.json.Some? ==>
      r == Shown([Generating, Done], DoneMessage, [Toast("Published successfully.", "ok")])
    ensures !(gen.Response? && (gen.status == 401 || (IsOk(gen.status) && gen.json.Some?))) ==>
      r == Shown([Generating], GeneratingMessage, [])
  {
    if gen.Response? && gen.status == 401 then
      Shown([Generating, Error], UnauthorizedMessage("generate"), [Toast(UnauthorizedMessage("generate"), "error")])
    else if gen.Response? && IsOk(gen.status) && gen.json.Some? then
      Shown([Generating, Done], DoneMessage, [Toast("Published successfully.", "ok")])
    else Shown([Generating], GeneratingMessage, [])
  }

  /** The statuses a run that passes both guards goes through. */
  function RunStatuses(up: XhrReply<UploadJson>, gen: FetchReply<Option<GenJson>>): seq<Status> {
    [Uploading] + (if NamesFile(up) then GenerateEnd(gen).statuses else UploadEnd(up).statuses)
  }

  /**
   * The status order: a run starts uploading, generates only after an upload that names a
   * file, and is done only right after generating, on an ok generate reply, so never on 401.
   */
  lemma RunOrder(up: XhrReply<UploadJson>, gen: FetchReply<Option<GenJson>>)
    ensures var h := RunStatuses(up, gen);
      && h[0] == Uploading
      && (Generating in h <==> NamesFile(up))
      && (Done in h <==> NamesFile(up) && gen.Response? && IsOk(gen.status) && gen.json.Some?)
      && (Done in h ==> h == [Uploading, Generating, Done])
      && (gen.Response? && gen.status == 401 ==> Done !in h)
      && |h| <= 3
  {
  }

  /** An upload that names no file stops the run still uploading, with no new message or toast. */
  lemma NoFilenameStalls(up: XhrReply<UploadJson>, gen: FetchReply<Option<GenJson>>)
    requires up.Loaded? && IsOk(up.status) && up.json.Some? && !Truthy(up.json.value.filename)
    ensures RunStatuses(up, gen) == [Uploading] && UploadEnd(up) == Shown([], UploadingMessage, [])
  {
  }

  /** Submit is disabled while a run is in progress, or when a required token is missing. */
  predicate SubmitDisabled(status: Status, requireToken: bool, token: string) {
    status == Uploading || status == Generating || (requireToken && token == [])
  }

  /** With the token in place, only a run in progress blocks a new one. */
  lemma SubmitEnabledWhenSettled(status: Status, requireToken: bool, token: string)
    requires status in {Idle, Done, Error} && (!requireToken || token != [])
    ensures !SubmitDisabled(status, requireToken, token)
  {
  }

  class UploaderState {
    var files: seq<AudioFile>
    var title: string
    var status: Status
    var message: string
    var progress: int
    var dragActive: bool
    /** Every status set, in order. */
    var statusHistory: seq<Status>
    var toasts: seq<Toast>
    var requests: seq<Request>
    /** Replies handed to `onDone` once its timer fires, with the delay. */
    var scheduled: seq<(nat, GenJson)>

    constructor()
      ensures files == [] && title == DefaultTitle && status == Idle && message == [] && progress == 0
      ensures !dragActive && statusHistory == [] && toasts == [] && requests == [] && scheduled == []
    {
      files, title, status, message, progress, dragActive := [], DefaultTitle, Idle, [], 0, false;
      statusHistory, toasts, requests, scheduled := [], [], [], [];
    }

    method SetTitle(t: string)
      modifies this`title
      ensures title == t
    {
      title := t;
    }

    method SetStatus(s: Status)
      modifies this`status, this`statusHistory
      ensures status == s && statusHistory == old(statusHistory) + [s]
    {
      status := s;
      statusHistory := statusHistory + [s];
    }

    /** `onDrop`: an MP3 replaces the input's file; anything else is refused with an error. */
    method OnDrop(dropped: seq<AudioFile>)
      modifies this`dragActive, this`files, this`message, this`status, this`statusHistory, this`toasts
      ensures !dragActive
      ensures dropped == [] ==>
        files == old(files) && message == old(message) && status == old(status)
        && statusHistory == old(statusHistory) && toasts == old(toasts)
      ensures dropped != [] && MimeOk(dropped[0].mime) ==>
        files == [dropped[0]] && message == "Selected: " + dropped[0].name
        && status == old(status) && statusHistory == old(statusHistory) && toasts == old(toasts)
      ensures dropped != [] && !MimeOk(dropped[0].mime) ==>
        files == old(files) && status == Error && statusHistory == old(statusHistory) + [Error]
        && message == "Please drop an MP3 file." && toasts == old(toasts) + [Toast("Please drop an MP3 file.", "error")]
    {
      dragActive := false;
      if dropped != [] {
        var file := dropped[0];
        if MimeOk(file.mime) {
          files := [file];
          message := "Selected: " + file.name;
        } else {
          SetStatus(Error);
          message := "Please drop an MP3 file.";
          toasts := toasts + [Toast("Please drop an MP3 file.", "error")];
        }
      }
    }

    /** `onDragOver`: a drag over the zone highlights it. */
    method OnDragOver()
      modifies this`dragActive
      ensures dragActive
    {
      dragActive := true;
    }

    /** `onDragLeave`: leaving the zone clears the highlight. */
    method OnDragLeave()
      modifies this`dragActive
      ensures !dragActive
    {
      dragActive := false;
    }

    /** `handleUnauthorized(where)`. */
    method HandleUnauthorized(where: string)
      modifies this`status, this`statusHistory, this`message, this`toasts
      ensures status == Error && statusHistory == old(statusHistory) + [Error]
      ensures message == UnauthorizedMessage(where) && toasts == old(toasts) + [Toast(UnauthorizedMessage(where), "error")]
    {
      SetStatus(Error);
      message := UnauthorizedMessage(where);
      toasts := toasts + [Toast(message, "error")];
    }

    /** Ends a run with an error shown as status, message and toast. */
    method Fail(msg: string)
      modifies this`status, this`statusHistory, this`message, this`toasts
      ensures status == Error && statusHistory == old(statusHistory) + [Error]
      ensures message == msg && toasts == old(toasts) + [Toast(msg, "error")]
    {
      SetStatus(Error);
      message := msg;
      toasts := toasts + [Toast(msg, "error")];
    }

    /** The status history, message and toasts are `h0`, `t0` and `msg0` followed by what `r` shows. */
    ghost predicate Shows(h0: seq<Status>, t0: seq<Toast>, st0: Status, r: Shown)
      reads this
    {
      && statusHistory == h0 + r.statuses && message == r.message && toasts == t0 + r.toasts
      && status == (if r.statuses == [] then st0 else r.statuses[|r.statuses| - 1])
    }

    /**
     * `handleUpload`: the two guards send nothing; then the upload, and, when it names a
     * stored file, the generate call for it with the title. `onDone` is scheduled only when done.
     */
    method HandleUpload(token: string, requireToken: bool, events: seq<ProgressEvent>,
                        up: XhrReply<UploadJson>, gen: FetchReply<Option<GenJson>>)
      modifies this`status, this`statusHistory, this`message, this`toasts, this`progress,
               this`requests, this`scheduled
      ensures old(files) == [] ==>
        Shows(old(statusHistory), old(toasts), old(status), Failure("Please choose an audio file (.mp3)"))
        && requests == old(requests) && progress == old(progress) && scheduled == old(scheduled)
      ensures old(files) != [] && requireToken && token == [] ==>
        Shows(old(statusHistory), old(toasts), old(status), Failure(UnauthorizedMessage("no token provided")))
        && requests == old(requests) && progress == old(progress) && scheduled == old(scheduled)
      ensures old(files) != [] && !(requireToken && token == []) ==>
        && progress == AfterEvents(0, events)
        && statusHistory == old(statusHistory) + RunStatuses(up, gen)
        && (!NamesFile(up) ==>
              Shows(old(statusHistory) + [Uploading], old(toasts), Uploading, UploadEnd(up))
              && requests == old(requests) + [UploadAudio(files[0], Header(token))]
              && scheduled == old(scheduled))
        && (NamesFile(up) ==>
              Shows(old(statusHistory) + [Uploading], old(toasts), Uploading, GenerateEnd(gen))
              && requests == old(requests) + [UploadAudio(files[0], Header(token)),
                                              GenerateVideo(up.json.value.filename.value, title, Header(token))]
              && scheduled == old(scheduled) + (if Done in GenerateEnd(gen).statuses then [(DoneDelay, gen.json.value)] else []))
    {
      if files == [] {
        Fail("Please choose an audio file (.mp3)");
        return;
      }
      var file := files[0];
      if requireToken && token == [] {
        HandleUnauthorized("no token provided");
        return;
      }
      Run(file, token, events, up, gen);
    }

    /** A run past both guards: the upload of `file`, then the generate step when the reply names a stored file. */
    method Run(file: AudioFile, token: string, events: seq<ProgressEvent>,
               up: XhrReply<UploadJson>, gen: FetchReply<Option<GenJson>>)
      modifies this`status, this`statusHistory, this`message, this`toasts, this`progress,
               this`requests, this`scheduled
      ensures progress == AfterEvents(0, events)
      ensures statusHistory == old(statusHistory) + RunStatuses(up, gen)
      ensures !NamesFile(up) ==>
        Shows(old(statusHistory) + [Uploading], old(toasts), Uploading, UploadEnd(up))
        && requests == old(requests) + [UploadAudio(file, Header(token))]
        && scheduled == old(scheduled)
      ensures NamesFile(up) ==>
        Shows(old(statusHistory) + [Uploading], old(toasts), Uploading, GenerateEnd(gen))
        && requests == old(requests) + [UploadAudio(file, Header(token)),
                                        GenerateVideo(up.json.value.filename.value, title, Header(token))]
        && scheduled == old(scheduled) + (if Done in GenerateEnd(gen).statuses then [(DoneDelay, gen.json.value)] else [])
    {
      ghost var h0 := statusHistory;
      StartUpload(file, token, events);
      ReceiveAndGenerate(token, up, gen);
      ghost var rest := if NamesFile(up) then GenerateEnd(gen).statuses else UploadEnd(up).statuses;
      assert (h0 + [Uploading]) + rest == h0 + ([Uploading] + rest);
    }

    /** The start of a run: status uploading, progress from the upload events, the upload sent. */
    method StartUpload(file: AudioFile, token: string, events: seq<ProgressEvent>)
      modifies this`status, this`statusHistory, this`message, this`progress, this`requests
      ensures status == Uploading && statusHistory == old(statusHistory) + [Uploading]
      ensures message == UploadingMessage
      ensures progress == AfterEvents(0, events)
      ensures requests == old(requests) + [UploadAudio(file, Header(token))]
    {
      SetStatus(Uploading);
      progress := 0;
      message := UploadingMessage;
      requests := requests + [UploadAudio(file, Header(token))];
      progress := AfterEvents(0, events);
    }

    /** The rest of a run: the upload reply, then the generate step when it names a stored file. */
    method ReceiveAndGenerate(token: string, up: XhrReply<UploadJson>, gen: FetchReply<Option<GenJson>>)
      modifies this`status, this`statusHistory, this`message, this`toasts, this`requests, this`scheduled
      requires message == UploadingMessage
      ensures !NamesFile(up) ==>
        Shows(old(statusHistory), old(toasts), old(status), UploadEnd(up))
        && requests == old(requests) && scheduled == old(scheduled)
      ensures NamesFile(up) ==>
        Shows(old(statusHistory), old(toasts), old(status), GenerateEnd(gen))
        && requests == old(requests) + [GenerateVideo(up.json.value.filename.value, title, Header(token))]
        && scheduled == old(scheduled) + (if Done in GenerateEnd(gen).statuses then [(DoneDelay, gen.json.value)] else [])
    {
      var stored := ReceiveUpload(up);
      if stored.Some? {
        GenerateStep(stored.value, token, gen);
      }
    }

    /** The upload reply: the stored name when it names one, else the run ends as `UploadEnd` says. */
    method ReceiveUpload(up: XhrReply<UploadJson>) returns (stored: Option<string>)
      modifies this`status, this`statusHistory, this`message, this`toasts
      requires message == UploadingMessage
      ensures stored.Some? <==> NamesFile(up)
      ensures NamesFile(up) ==>
        stored.value == up.json.value.filename.value
        && status == old(status) && statusHistory == old(statusHistory) && message == old(message) && toasts == old(toasts)
      ensures !NamesFile(up) ==> Shows(old(statusHistory), old(toasts), old(status), UploadEnd(up))
    {
      stored := None;
      match up {
        case NetworkError =>
          Fail("Network error during upload");
        case Loaded(st, json) =>
          if st == 401 {
            HandleUnauthorized("upload");
          } else if !IsOk(st) {
            Fail(UploadFailedMessage(st));
          } else if json.None? {
            Fail("Bad JSON from server");
          } else if Truthy(json.value.filename) {
            stored := json.value.filename;
          }
      }
    }

    /** The generate call for the stored file, ending as `GenerateEnd` says. */
    method GenerateStep(filename: string, token: string, gen: FetchReply<Option<GenJson>>)
      modifies this`status, this`statusHistory, this`message, this`toasts, this`requests, this`scheduled
      ensures requests == old(requests) + [GenerateVideo(filename, title, Header(token))]
      ensures Shows(old(statusHistory), old(toasts), old(status), GenerateEnd(gen))
      ensures scheduled == old(scheduled) + (if Done in GenerateEnd(gen).statuses then [(DoneDelay, gen.json.value)] else [])
    {
      SetStatus(Generating);
      message := GeneratingMessage;
      requests := requests + [GenerateVideo(filename, title, Header(token))];
      if gen.Rejected? {
        return;
      }
      if gen.status == 401 {
        HandleUnauthorized("generate");
        return;
      }
      if !IsOk(gen.status) || gen.json.None? {
        return;
      }
      SetStatus(Done);
      message := DoneMessage;
      toasts := toasts + [Toast("Published successfully.", "ok")];
      scheduled := scheduled + [(DoneDelay, gen.json.value)];
    }
  }
}
