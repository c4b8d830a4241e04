/** The drag-and-drop MP3 uploader: one file over XHR, with a live percentage while it sends. */
module SimpleUploader {
  import opened Wrappers
  import opened Strings
  import opened Http
  import opened UploadProgress

  /** A file held by the file input. */
  datatype FileRef = FileRef(name: string)

  datatype Request = UploadAudio(file: FileRef, token: string)

  /** The upload succeeds iff the request loads with a 2xx status. */
  predicate Succeeded(reply: XhrReply<()>) {
    reply.Loaded? && 200 <= reply.status < 300
  }

  lemma SucceededIsOk(reply: XhrReply<()>)
    ensures Succeeded(reply) <==> reply.Loaded? && IsOk(reply.status)
  {
  }

  /** The toast the upload ends with. */
  function Outcome(reply: XhrReply<()>): (r: Toast)
    ensures Succeeded(reply) <==> r == Toast("Uploaded", "ok")
    ensures !Succeeded(reply) <==> r == Toast("Upload failed", "error")
  {
    if Succeeded(reply) then Toast("Uploaded", "ok") else Toast("Upload failed", "error")
  }

  class UploaderState {
    /** What the file input holds. */
    var files: seq<FileRef>
    var drag: bool
    var busy: bool
    var progress: int
    /** Every value `progress` is set to, in order. */
    var progressTrace: seq<int>
    var toasts: seq<Toast>
    /** How many times `onUploaded` was called. */
    var uploadedCalls: nat
    var requests: seq<Request>

    constructor()
      ensures files == [] && !drag && !busy && progress == 0 && progressTrace == []
      ensures toasts == [] && uploadedCalls == 0 && requests == []
    {
      files, drag, busy, progress, progressTrace := [], false, false, 0, [];
      toasts, uploadedCalls, requests := [], 0, [];
    }

    /** `onDrop`: dropped files replace the input's, when there are any. */
    method OnDrop(dropped: seq<FileRef>)
      modifies this`drag, this`files
      ensures !drag
      ensures dropped != [] ==> files == dropped
      ensures dropped == [] ==> files == old(files)
    {
      drag := false;
      if dropped != [] {
        files := dropped;
      }
    }

    method OnDrag()
      modifies this`drag
      ensures drag
    {
      drag := true;
    }

    method OnDragLeave()
      modifies this`drag
      ensures !drag
    {
      drag := false;
    }

    /**
     * `upload()`: with no file only "Pick a file" is shown. Otherwise progress starts at 0,
     * follows the computable progress events, and `finally` puts it back to 0 and clears
     * `busy`; `onUploaded` is called only on success.
     */
    method Upload(token: Option<string>, events: seq<ProgressEvent>, reply: XhrReply<()>)
      modifies this`busy, this`progress, this`progressTrace, this`toasts, this`uploadedCalls, this`requests
      ensures old(files) == [] ==>
        toasts == old(toasts) + [Toast("Pick a file", "error")] && requests == old(requests)
        && busy == old(busy) && progress == old(progress) && progressTrace == old(progressTrace)
        && uploadedCalls == old(uploadedCalls)
      ensures old(files) != [] ==>
        && requests == old(requests) + [UploadAudio(files[0], OrEmpty(token))]
        && progressTrace == old(progressTrace) + [0] + Reported(events) + [0]
        && !busy && progress == 0
        && toasts == old(toasts) + [Outcome(reply)]
        && uploadedCalls == old(uploadedCalls) + (if Succeeded(reply) then 1 else 0)
    {
      if files == [] {
        toasts := toasts + [Toast("Pick a file", "error")];
        return;
      }
      var f := files[0];
      busy := true;
      progress := 0;
      progressTrace := progressTrace + [0];
      requests := requests + [UploadAudio(f, OrEmpty(token))];
      progressTrace := progressTrace + Reported(events);
      if Succeeded(reply) {
        toasts := toasts + [Toast("Uploaded", "ok")];
        uploadedCalls := uploadedCalls + 1;
      } else {
        toasts := toasts + [Toast("Upload failed", "error")];
      }
      busy := false;
      progress := 0;
      progressTrace := progressTrace + [0];
    }
  }

  /** With sane events every percentage the bar shows during an upload lies between 0 and 100. */
  lemma UploadTraceBounded(events: seq<ProgressEvent>)
    requires Sane(events)
    ensures forall i :: 0 <= i < |[0] + Reported(events) + [0]| ==> 0 <= ([0] + Reported(events) + [0])[i] <= 100
  {
    ReportedBounds(events);
  }
}
