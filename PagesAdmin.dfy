/**
 * The admin page with three tabs: its posts panel (filter, select, trash or restore many,
 * edit title and tagline) and the token gate in front of it.
 */
module PagesAdmin {
  import opened Wrappers
  import opened Strings
  import opened PostRecords
  import opened AdminToken
  import opened Http

  /** `p.title || p.filename`: what a post is filtered by. */
  function Label(p: Post): (r: Option<string>)
    ensures Truthy(p.title) ==> r == p.title
    ensures !Truthy(p.title) ==> r == p.filename
  {
    if Truthy(p.title) then p.title else p.filename
  }

  /** A post passes a non-empty query when its label, lower-cased, contains the lower-cased query. */
  predicate Matches(p: Post, query: string) {
    Label(p).Some? && Contains(Lower(Label(p).value), Lower(query))
  }

  function MatchesOf(query: string): Post -> bool {
    p => Matches(p, query)
  }

  /** `filtered`: every post for an empty query, else the matching ones in their order. */
  function Filtered(posts: seq<Post>, query: string): (r: seq<Post>)
    ensures query == [] ==> r == posts
    ensures IsSubseq(r, posts)
    ensures forall p :: p in r <==> p in posts && (query == [] || Matches(p, query))
  {
    if query == [] then
      SubseqRefl(posts);
      posts
    else Filter(posts, MatchesOf(query))
  }

  /** The filter ignores case: queries that lower-case alike select the same posts. */
  lemma FilteredIgnoresCase(posts: seq<Post>, q1: string, q2: string)
    requires Lower(q1) == Lower(q2)
    ensures Filtered(posts, q1) == Filtered(posts, q2)
  {
    assert |q1| == |q2|;
    if q1 != [] {
      FilterSame(posts, MatchesOf(q1), MatchesOf(q2));
    }
  }

  /** In particular an upper-cased query finds what the query itself finds. */
  lemma FilteredUpper(posts: seq<Post>, q: string)
    ensures Filtered(posts, Upper(q)) == Filtered(posts, q)
  {
    LowerOfUpper(q);
    FilteredIgnoresCase(posts, Upper(q), q);
  }

  /** `toggleOne(fn)`: `!s[fn]`, a missing key counting as unset. */
  function Flip(m: map<string, bool>, k: string): (r: map<string, bool>)
    ensures k in r && (r[k] <==> !(k in m && m[k]))
    ensures forall j :: j != k ==> (j in r <==> j in m) && (j in m ==> r[j] == m[j])
  {
    m[k := !(k in m && m[k])]
  }

  /** Flipping a key puts it in or out of the selection and touches no other key. */
  lemma FlipSelection(m: map<string, bool>, k: string)
    ensures k in SelectedIds(Flip(m, k)) <==> k !in SelectedIds(m)
    ensures SelectedIds(Flip(m, k)) - {k} == SelectedIds(m) - {k}
  {
  }

  /** Ticking the same box twice leaves the selection as it was. */
  lemma FlipTwice(m: map<string, bool>, k: string)
    ensures SelectedIds(Flip(Flip(m, k), k)) == SelectedIds(m)
  {
    FlipSelection(m, k);
    FlipSelection(Flip(m, k), k);
  }

  // ---------------------------------------------------------------------------------------
  // The token gate

  /** `useState(!!token)`: the main view is shown at once iff the token is non-empty. */
  function InitialShow(token: string): (r: bool)
    ensures r <==> token != []
  {
    token != []
  }

  /**
   * The token the token hook hands over on the first render, when `show` is initialised:
   * its own `useState('')`, before the effect that reads storage has run.
   */
  const FirstRenderToken: string := ""

  /** As written, the token prompt always comes first, even with a token saved. */
  lemma GateAsWritten()
    ensures var store := map[StorageKey := "secret"];
      LoadedToken(store) == "secret" && !InitialShow(FirstRenderToken)
  {
  }

  /** The gate as intended: decided by the token the hook loads from storage. */
  function IntendedShow(store: map<string, string>): (r: bool)
    ensures r <==> StorageKey in store && store[StorageKey] != []
  {
    InitialShow(LoadedToken(store))
  }

  /** A token saved on one visit opens the main view on the next one iff it is non-empty. */
  lemma IntendedShowAfterSave(store: map<string, string>, t: string)
    ensures IntendedShow(store[StorageKey := t]) <==> t != []
  {
    TokenRoundTrip(store, t);
  }

  datatype View = Upload | Manage | Shorts

  class AdminGate {
    var show: bool
    var view: View

    /** The page opens on the upload tab, past the prompt iff a token is saved. */
    constructor(store: map<string, string>)
      ensures show == IntendedShow(store) && view == Upload
    {
      show := IntendedShow(store);
      view := Upload;
    }

    /** The Continue button. */
    method Continue()
      modifies this`show
      ensures show
    {
      show := true;
    }

    method SetView(v: View)
      modifies this`view
      ensures view == v
    {
      view := v;
    }
  }

  // ---------------------------------------------------------------------------------------
  // The posts panel

  datatype Request =
    | FetchPosts
    | SoftDelete(filenames: set<string>)
    | Restore(filenames: set<string>)
    | SaveMeta(filename: string, title: string, tagline: string)
    | GenerateVideo(audioFile: Option<string>, videoTitle: string)

  /** The reply of `load()`: an array, some other JSON value, or a failed request. */
  datatype PostsReply = Array(posts: seq<Post>) | NotArray | LoadFailed

  class PostsPanel {
    var posts: seq<Post>
    var editing: Option<string>
    var title: string
    var tagline: string
    var query: string
    var checked: map<string, bool>
    var requests: seq<Request>

    constructor()
      ensures posts == [] && editing == None && title == [] && tagline == [] && query == []
      ensures checked == map[] && requests == []
    {
      posts, editing, title, tagline, query, checked, requests := [], None, [], [], [], map[], [];
    }

    /** The posts after `load()` with `reply`, from `p0`: a non-array is read as no posts. */
    ghost predicate LoadedFrom(reply: PostsReply, p0: seq<Post>)
      reads this
    {
      && (reply.Array? ==> posts == reply.posts)
      && (reply.NotArray? ==> posts == [])
      && (reply.LoadFailed? ==> posts == p0)
    }

    method Load(reply: PostsReply)
      modifies this`posts, this`requests
      ensures LoadedFrom(reply, old(posts)) && requests == old(requests) + [FetchPosts]
    {
      requests := requests + [FetchPosts];
      match reply {
        case Array(p) => posts := p;
        case NotArray => posts := [];
        case LoadFailed =>
      }
    }

    method SetQuery(q: string)
      modifies this`query
      ensures query == q
    {
      query := q;
    }

    /**
     * `toggleAll`: a fresh map. Checked, exactly the filenames of the filtered posts are
     * selected (a missing filename is the key `"undefined"`); unchecked, nothing is.
     */
    method ToggleAll(box: bool)
      modifies this`checked
      ensures box ==> checked == SetAll(map[], Filenames(Filtered(posts, query)), true)
      ensures box ==> SelectedIds(checked) == set k | k in Filenames(Filtered(posts, query))
      ensures !box ==> checked == map[]
    {
      var m: map<string, bool> := map[];
      if box {
        var list := Filtered(posts, query);
        ghost var keys := Filenames(list);
        for i := 0 to |list|
          invariant m == SetAll(map[], keys[..i], true)
        {
          assert keys[..i + 1] == keys[..i] + [Interp(list[i].filename)];
          SetAllSnoc(map[], keys[..i], Interp(list[i].filename), true);
          m := m[Interp(list[i].filename) := true];
        }
        assert keys[..|list|] == keys;
        SetAllSelects(keys);
      }
      checked := m;
    }

    /** `toggleOne(fn)`: that one key is negated. */
    method ToggleOne(fn: string)
      modifies this`checked
      ensures checked == Flip(old(checked), fn)
    {
      checked := Flip(checked, fn);
    }

    /**
     * `softDeleteMany()`: nothing happens with nothing selected; otherwise the selection is
     * sent and, whatever the status, cleared and the list reloaded. A rejected request ends it.
     */
    method SoftDeleteMany(reply: FetchReply<()>, reload: PostsReply)
      modifies this`checked, this`posts, this`requests
      ensures SelectedIds(old(checked)) == {} ==>
        requests == old(requests) && checked == old(checked) && posts == old(posts)
      ensures SelectedIds(old(checked)) != {} && reply.Rejected? ==>
        requests == old(requests) + [SoftDelete(SelectedIds(old(checked)))] && checked == old(checked) && posts == old(posts)
      ensures SelectedIds(old(checked)) != {} && reply.Response? ==>
        requests == old(requests) + [SoftDelete(SelectedIds(old(checked))), FetchPosts]
        && checked == map[] && LoadedFrom(reload, old(posts))
    {
      var selected := SelectedIds(checked);
      if selected == {} {
        return;
      }
      requests := requests + [SoftDelete(selected)];
      if reply.Rejected? {
        return;
      }
      checked := map[];
      Load(reload);
    }

    /** `restoreMany()`: as `softDeleteMany`, to the restore endpoint. */
    method RestoreMany(reply: FetchReply<()>, reload: PostsReply)
      modifies this`checked, this`posts, this`requests
      ensures SelectedIds(old(checked)) == {} ==>
        requests == old(requests) && checked == old(checked) && posts == old(posts)
      ensures SelectedIds(old(checked)) != {} && reply.Rejected? ==>
        requests == old(requests) + [Restore(SelectedIds(old(checked)))] && checked == old(checked) && posts == old(posts)
      ensures SelectedIds(old(checked)) != {} && reply.Response? ==>
        requests == old(requests) + [Restore(SelectedIds(old(checked))), FetchPosts]
        && checked == map[] && LoadedFrom(reload, old(posts))
    {
      var selected := SelectedIds(checked);
      if selected == {} {
        return;
      }
      requests := requests + [Restore(selected)];
      if reply.Rejected? {
        return;
      }
      checked := map[];
      Load(reload);
    }

    /** The Edit button: edits the post's filename, starting from its title and tagline. */
    method StartEdit(p: Post)
      modifies this`editing, this`title, this`tagline
      ensures editing == p.filename && title == OrEmpty(p.title) && tagline == OrEmpty(p.tagline)
    {
      editing := p.filename;
      title := OrEmpty(p.title);
      tagline := OrEmpty(p.tagline);
    }

    /** `saveMeta()`: nothing happens unless a filename is being edited; afterwards the editor closes. */
    method SaveMetaEdit(reply: FetchReply<()>, reload: PostsReply)
      modifies this`editing, this`posts, this`requests
      ensures !Truthy(old(editing)) ==> requests == old(requests) && editing == old(editing) && posts == old(posts)
      ensures Truthy(old(editing)) && reply.Rejected? ==>
        requests == old(requests) + [SaveMeta(old(editing).value, title, tagline)] && editing == old(editing)
        && posts == old(posts)
      ensures Truthy(old(editing)) && reply.Response? ==>
        requests == old(requests) + [SaveMeta(old(editing).value, title, tagline), FetchPosts]
        && editing == None && LoadedFrom(reload, old(posts))
    {
      if !Truthy(editing) {
        return;
      }
      requests := requests + [SaveMeta(editing.value, title, tagline)];
      if reply.Rejected? {
        return;
      }
      editing := None;
      Load(reload);
    }

    /** The Make Video button, offered on audio posts: asks for a video, then reloads. */
    method MakeVideo(p: Post, reply: FetchReply<()>, reload: PostsReply)
      requires p.kind == Some("audio")
      modifies this`posts, this`requests
      ensures reply.Rejected? ==> requests == old(requests) + [GenerateVideo(p.filename, OrEmpty(p.title))] && posts == old(posts)
      ensures reply.Response? ==>
        requests == old(requests) + [GenerateVideo(p.filename, OrEmpty(p.title)), FetchPosts]
        && LoadedFrom(reload, old(posts))
    {
      requests := requests + [GenerateVideo(p.filename, OrEmpty(p.title))];
      if reply.Rejected? {
        return;
      }
      Load(reload);
    }
  }
}
