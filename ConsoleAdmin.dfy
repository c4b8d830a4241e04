/**
 * The plain admin console: a token field saved to storage, an upload box for audio or
 * images, and a posts table whose actions depend on whether a post is deleted.
 */
module ConsoleAdmin {
  import opened Wrappers
  import opened Strings
  import opened Http
  import opened PostRecords

  const TokenKey: string := "ADMIN_TOKEN"
  const DefaultVideoTitle: string := "The Gargantuan"
  /** How long the "saved" message stays up, in milliseconds. */
  const MessageTtl: nat := 1500

  /** The Type column: the richest media a post has. */
  function PostType(p: Post): (r: string)
    ensures r == "video" <==> Truthy(p.videoUrl)
    ensures r == "audio" <==> !Truthy(p.videoUrl) && Truthy(p.audioUrl)
    ensures r == "image" <==> !Truthy(p.videoUrl) && !Truthy(p.audioUrl) && Truthy(p.imageUrl)
    ensures r == "text" <==> !Truthy(p.videoUrl) && !Truthy(p.audioUrl) && !Truthy(p.imageUrl)
  {
    if Truthy(p.videoUrl) then "video"
    else if Truthy(p.audioUrl) then "audio"
    else if Truthy(p.imageUrl) then "image"
    else "text"
  }

  /** Every post gets exactly one of the four types. */
  lemma PostTypeTotal(p: Post)
    ensures PostType(p) in {"video", "audio", "image", "text"}
  {
  }

  /** The Status column. */
  function StatusLabel(p: Post): (r: string)
    ensures r == "deleted" <==> p.deleted
    ensures r == "active" <==> !p.deleted
  {
    if p.deleted then "deleted" else "active"
  }

  datatype Action = CreateVideo | Delete | Restore

  /** The buttons in a post's Actions cell. */
  function Actions(p: Post): (r: set<Action>)
    ensures CreateVideo in r <==> !p.deleted
    ensures Delete in r <==> !p.deleted
    ensures Restore in r <==> p.deleted
  {
    if p.deleted then {Restore} else {CreateVideo, Delete}
  }

  /** A post can be deleted or restored, never both; Restore is offered exactly when the status reads deleted. */
  lemma ActionsMatchStatus(p: Post)
    ensures !(Delete in Actions(p) && Restore in Actions(p))
    ensures Restore in Actions(p) <==> StatusLabel(p) == "deleted"
    ensures |Actions(p)| >= 1
  {
  }

  /** `posts.find(p => p.id === id)`: the first post with that id. */
  function Find(posts: seq<Post>, id: string): (r: Option<Post>)
    ensures r.None? <==> forall i :: 0 <= i < |posts| ==> posts[i].id != id
    ensures r.Some? ==>
      exists i :: 0 <= i < |posts| && posts[i] == r.value && r.value.id == id
                  && forall j :: 0 <= j < i ==> posts[j].id != id
  {
    if posts == [] then None
    else if posts[0].id == id then Some(posts[0])
    else
      var r := Find(posts[1..], id);
      if r.Some? then
        var i :| 0 <= i < |posts[1..]| && posts[1..][i] == r.value && r.value.id == id
          && forall j :: 0 <= j < i ==> posts[1..][j].id != id;
        assert posts[i + 1] == r.value;
        assert forall j :: 0 < j < i + 1 ==> posts[j].id == posts[1..][j - 1].id;
        r
      else
        assert forall i :: 0 < i < |posts| ==> posts[i] == posts[1..][i - 1];
        r
  }

  /** The file picked in the upload box. */
  datatype FileRef = FileRef(name: string)

  datatype Request =
    | FetchPosts
    | UploadFile(field: string, file: FileRef)
    | DeletePost(id: string)
    | RestorePost(id: string)
    | GenerateVideo(filename: string, title: string)

  /** The reply of `load()`: parsed JSON, a body that does not parse (read as `[]`), or a failed request. */
  datatype ListReply = Parsed(posts: seq<Post>) | Unparsable | Failed

  class ConsoleState {
    var token: string
    var posts: seq<Post>
    var file: Option<FileRef>
    var message: string
    var store: map<string, string>
    /** Delays of the timers that will clear `message`. */
    var timers: seq<nat>
    var requests: seq<Request>

    /** The token field starts from storage, or `''`. */
    constructor(store0: map<string, string>)
      ensures token == (if TokenKey in store0 then store0[TokenKey] else [])
      ensures posts == [] && file == None && message == [] && store == store0 && timers == [] && requests == []
    {
      token := if TokenKey in store0 then store0[TokenKey] else [];
      posts, file, message, store, timers, requests := [], None, [], store0, [], [];
    }

    ghost predicate LoadedFrom(reply: ListReply, p0: seq<Post>)
      reads this
    {
      && (reply.Parsed? ==> posts == reply.posts)
      && (reply.Unparsable? ==> posts == [])
      && (reply.Failed? ==> posts == p0)
    }

    method Load(reply: ListReply)
      modifies this`posts, this`requests
      ensures LoadedFrom(reply, old(posts)) && requests == old(requests) + [FetchPosts]
    {
      requests := requests + [FetchPosts];
      match reply {
        case Parsed(p) => posts := p;
        case Unparsable => posts := [];
        case Failed =>
      }
    }

    method SetToken(t: string)
      modifies this`token
      ensures token == t
    {
      token := t;
    }

    method SetFile(f: Option<FileRef>)
      modifies this`file
      ensures file == f
    {
      file := f;
    }

    /** `saveToken()`: the field is stored as typed, and a message shows for 1.5 s. */
    method SaveToken()
      modifies this`store, this`message, this`timers
      ensures store == old(store)[TokenKey := token]
      ensures message == "Admin token saved" && timers == old(timers) + [MessageTtl]
    {
      store := store[TokenKey := token];
      message := "Admin token saved";
      timers := timers + [MessageTtl];
    }

    /** The timer set by `saveToken` firing. */
    method ClearMessage()
      modifies this`message
      ensures message == []
    {
      message := [];
    }

    /**
     * `upload(kind)`: without a file nothing happens; the file goes in the form field named
     * `kind`; a failure says so, and success reloads the list before saying "Uploaded".
     */
    method Upload(kind: string, reply: FetchReply<()>, reload: ListReply)
      modifies this`posts, this`requests, this`message
      ensures old(file).None? ==> requests == old(requests) && message == old(message) && posts == old(posts)
      ensures old(file).Some? && reply.Rejected? ==>
        requests == old(requests) + [UploadFile(kind, old(file).value)] && message == old(message) && posts == old(posts)
      ensures old(file).Some? && reply.Response? && !IsOk(reply.status) ==>
        requests == old(requests) + [UploadFile(kind, old(file).value)] && message == "Upload failed" && posts == old(posts)
      ensures old(file).Some? && reply.Response? && IsOk(reply.status) ==>
        requests == old(requests) + [UploadFile(kind, old(file).value), FetchPosts]
        && LoadedFrom(reload, old(posts))
        && message == (if reload.Failed? then old(message) else "Uploaded")
    {
      if file.None? {
        return;
      }
      requests := requests + [UploadFile(kind, file.value)];
      if reply.Rejected? {
        return;
      }
      if !IsOk(reply.status) {
        message := "Upload failed";
        return;
      }
      Load(reload);
      if reload.Failed? {
        return;
      }
      message := "Uploaded";
    }

    /** `remove(id)`: the list reloads only on an ok reply. */
    method Remove(id: string, reply: FetchReply<()>, reload: ListReply)
      modifies this`posts, this`requests
      ensures reply.Response? && IsOk(reply.status) ==>
        requests == old(requests) + [DeletePost(id), FetchPosts] && LoadedFrom(reload, old(posts))
      ensures !(reply.Response? && IsOk(reply.status)) ==>
        requests == old(requests) + [DeletePost(id)] && posts == old(posts)
    {
      requests := requests + [DeletePost(id)];
      if reply.Response? && IsOk(reply.status) {
        Load(reload);
      }
    }

    /** `restore(id)`: the list reloads only on an ok reply. */
    method RestoreOne(id: string, reply: FetchReply<()>, reload: ListReply)
      modifies this`posts, this`requests
      ensures reply.Response? && IsOk(reply.status) ==>
        requests == old(requests) + [RestorePost(id), FetchPosts] && LoadedFrom(reload, old(posts))
      ensures !(reply.Response? && IsOk(reply.status)) ==>
        requests == old(requests) + [RestorePost(id)] && posts == old(posts)
    {
      requests := requests + [RestorePost(id)];
      if reply.Response? && IsOk(reply.status) {
        Load(reload);
      }
    }

    /**
     * `genVideo(id)`: nothing is sent unless the post is listed and has a filename; the
     * title falls back to the site's name; the message does not depend on the status.
     */
    method GenVideo(id: string, reply: FetchReply<()>)
      modifies this`requests, this`message
      ensures var post := Find(posts, id);
        && (!(post.Some? && Truthy(post.value.filename)) ==> requests == old(requests) && message == old(message))
        && (post.Some? && Truthy(post.value.filename) ==>
              requests == old(requests) + [GenerateVideo(post.value.filename.value, OrElse(post.value.title, DefaultVideoTitle))]
              && message == (if reply.Rejected? then old(message) else "Video requested"))
    {
      var post := Find(posts, id);
      if !(post.Some? && Truthy(post.value.filename)) {
        return;
      }
      requests := requests + [GenerateVideo(post.value.filename.value, OrElse(post.value.title, DefaultVideoTitle))];
      if reply.Rejected? {
        return;
      }
      message := "Video requested";
    }
  }
}
