/**
 * The single-page admin for the spectral-video flow: a token kept in storage, a drop zone
 * that uploads one audio file, and two buttons that queue a spectral video or a short for
 * the uploaded file.
 */
module SpectralAdmin {
  import opened Wrappers
  import opened Strings
  import opened Http

  const TokenKey: string := "garg_token"

  /** The fields of the backend's JSON replies that the page reads. */
  datatype ReplyJson = ReplyJson(error: Option<string>, key: Option<string>, filename: Option<string>, id: Option<string>)

  /** `localStorage.getItem('garg_token') || ''`. */
  function InitialToken(store: map<string, string>): (r: string)
    ensures TokenKey in store ==> r == store[TokenKey]
    ensures TokenKey !in store ==> r == []
  {
    if TokenKey in store then store[TokenKey] else []
  }

  /** Whatever is typed into the token field is what the next visit starts with. */
  lemma TokenPersists(store: map<string, string>, t: string)
    ensures InitialToken(store[TokenKey := t]) == t
  {
  }

  /** The message of the error a failed reply throws: the backend's `error`, else the fallback. */
  function ErrorMessage(json: ReplyJson, fallback: string): (r: string)
    ensures Truthy(json.error) ==> r == json.error.value
    ensures !Truthy(json.error) ==> r == fallback
  {
    OrElse(json.error, fallback)
  }

  /** The uploaded file's name: `json.key || json.filename`, which may be missing. */
  function UploadedName(json: ReplyJson): (r: Option<string>)
    ensures Truthy(json.key) ==> r == json.key
    ensures !Truthy(json.key) ==> r == json.filename
  {
    if Truthy(json.key) then json.key else json.filename
  }

  datatype Job = Spectral | Shorts

  /** The alert a queued job shows. */
  function QueuedMessage(job: Job, id: Option<string>): (r: string)
    ensures job == Spectral ==> r == "Spectral job queued: " + Interp(id)
    ensures job == Shorts ==> r == "Shorts job queued: " + Interp(id)
  {
    (if job == Spectral then "Spectral job queued: " else "Shorts job queued: ") + Interp(id)
  }

  /** A file handed to the upload. */
  datatype FileRef = FileRef(name: string)

  datatype Request =
    | UploadAudio(file: FileRef, token: string)
    | GenerateVideo(filename: string, title: string, token: string)
    | RequestShorts(filename: string, title: string, token: string)

  class SpectralAdminState {
    var token: string
    /** The uploaded file's name; `Some("")` before any upload, `None` after a reply without one. */
    var filename: Option<string>
    var title: string
    var tagline: string
    var uploadPct: int
    var busy: bool
    var store: map<string, string>
    /** Every value `busy` is set to, in order. */
    var busyTrace: seq<bool>
    var alerts: seq<string>
    var requests: seq<Request>

    /** On mount the token is read from storage and written straight back. */
    constructor(store0: map<string, string>)
      ensures token == InitialToken(store0) && store == store0[TokenKey := InitialToken(store0)]
      ensures filename == Some([]) && title == [] && tagline == [] && uploadPct == 0 && !busy
      ensures busyTrace == [] && alerts == [] && requests == []
    {
      token := InitialToken(store0);
      store := store0[TokenKey := InitialToken(store0)];
      filename, title, tagline, uploadPct, busy := Some([]), [], [], 0, false;
      busyTrace, alerts, requests := [], [], [];
    }

    /** Typing a token stores it at once. */
    method SetToken(t: string)
      modifies this`token, this`store
      ensures token == t && store == old(store)[TokenKey := t]
    {
      token := t;
      store := store[TokenKey := t];
    }

    method SetTitle(t: string)
      modifies this`title
      ensures title == t
    {
      title := t;
    }

    /**
     * `doUpload(file)`: progress shows 2% while sending and 100% once the name is known;
     * any failure is alerted and leaves the name as it was; the page is busy only meanwhile.
     */
    method DoUpload(file: FileRef, reply: FetchReply<ReplyJson>)
      modifies this`busy, this`uploadPct, this`filename, this`busyTrace, this`alerts, this`requests
      ensures requests == old(requests) + [UploadAudio(file, token)]
      ensures !busy && busyTrace == old(busyTrace) + [true, false]
      ensures reply.Response? && IsOk(reply.status) ==>
        filename == UploadedName(reply.json) && uploadPct == 100 && alerts == old(alerts)
      ensures reply.Response? && !IsOk(reply.status) ==>
        filename == old(filename) && uploadPct == 2 && alerts == old(alerts) + [ErrorMessage(reply.json, "upload failed")]
      ensures reply.Rejected? ==>
        filename == old(filename) && uploadPct == 2 && alerts == old(alerts) + [reply.message]
    {
      busy := true;
      busyTrace := busyTrace + [true];
      uploadPct := 2;
      requests := requests + [UploadAudio(file, token)];
      match reply {
        case Rejected(msg) =>
          alerts := alerts + [msg];
        case Response(status, json) =>
          if !IsOk(status) {
            alerts := alerts + [ErrorMessage(json, "upload failed")];
          } else {
            filename := UploadedName(json);
            uploadPct := 100;
          }
      }
      busy := false;
      busyTrace := busyTrace + [false];
    }

    /** `onDrop`: the first dropped file, if any, is uploaded. */
    method OnDrop(files: seq<FileRef>, reply: FetchReply<ReplyJson>)
      modifies this`busy, this`uploadPct, this`filename, this`busyTrace, this`alerts, this`requests
      ensures files == [] ==>
        requests == old(requests) && busyTrace == old(busyTrace) && filename == old(filename)
        && uploadPct == old(uploadPct) && busy == old(busy) && alerts == old(alerts)
      ensures files != [] ==>
        requests == old(requests) + [UploadAudio(files[0], token)]
        && !busy && busyTrace == old(busyTrace) + [true, false]
      ensures files != [] && reply.Response? && IsOk(reply.status) ==>
        filename == UploadedName(reply.json) && uploadPct == 100 && alerts == old(alerts)
      ensures files != [] && reply.Response? && !IsOk(reply.status) ==>
        filename == old(filename) && uploadPct == 2 && alerts == old(alerts) + [ErrorMessage(reply.json, "upload failed")]
      ensures files != [] && reply.Rejected? ==>
        filename == old(filename) && uploadPct == 2 && alerts == old(alerts) + [reply.message]
    {
      if files != [] {
        DoUpload(files[0], reply);
      }
    }

    /**
     * `generateSpectral` and `generateShorts`: without an uploaded file only "Upload first"
     * is alerted; otherwise the job is asked for and its outcome alerted.
     */
    method Generate(job: Job, reply: FetchReply<ReplyJson>)
      modifies this`busy, this`busyTrace, this`alerts, this`requests
      ensures !Truthy(old(filename)) ==>
        alerts == old(alerts) + ["Upload first"] && requests == old(requests)
        && busy == old(busy) && busyTrace == old(busyTrace)
      ensures Truthy(old(filename)) ==>
        && requests == old(requests) + [if job == Spectral then GenerateVideo(filename.value, title, token)
                                         else RequestShorts(filename.value, title, token)]
        && !busy && busyTrace == old(busyTrace) + [true, false]
        && (reply.Rejected? ==> alerts == old(alerts) + [reply.message])
        && (reply.Response? && !IsOk(reply.status) ==> alerts == old(alerts) + [ErrorMessage(reply.json, "failed")])
        && (reply.Response? && IsOk(reply.status) ==> alerts == old(alerts) + [QueuedMessage(job, reply.json.id)])
    {
      if !Truthy(filename) {
        alerts := alerts + ["Upload first"];
        return;
      }
      busy := true;
      busyTrace := busyTrace + [true];
      var req := if job == Spectral then GenerateVideo(filename.value, title, token) else RequestShorts(filename.value, title, token);
      requests := requests + [req];
      match reply {
        case Rejected(msg) =>
          alerts := alerts + [msg];
        case Response(status, json) =>
          if !IsOk(status) {
            alerts := alerts + [ErrorMessage(json, "failed")];
          } else {
            alerts := alerts + [QueuedMessage(job, json.id)];
          }
      }
      busy := false;
      busyTrace := busyTrace + [false];
    }
  }
}
