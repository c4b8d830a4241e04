/**
 * The "Manage posts" panel: published posts and drafts in one table, a selection map for
 * bulk delete, an edit dialog, and a draft toggle per row.
 */
module ManagePosts {
  import opened Wrappers
  import opened Strings
  import opened Http
  import opened PostRecords

  /** One row of the table, built from a post and its position. */
  datatype Row = Row(key: nat, id: string, title: Option<string>, date: Option<string>,
                     kind: Option<string>, draft: Option<bool>, url: string, snippet: string)

  function RowOf(p: Post, i: nat): Row {
    Row(i, p.id, p.title, p.date, p.kind, p.draft, FirstUrl(p), Snippet(p.body))
  }

  /** `rows`: one row per post and then per draft, keyed by position. */
  function Rows(posts: seq<Post>, drafts: seq<Post>): (r: seq<Row>)
    ensures |r| == |posts| + |drafts|
    ensures forall i :: 0 <= i < |r| ==> r[i] == RowOf((posts + drafts)[i], i)
  {
    var all := posts + drafts;
    seq(|all|, i requires 0 <= i < |all| => RowOf(all[i], i))
  }

  /** The posts come first, in their order, then the drafts; each row keeps its post's link and preview. */
  lemma RowsOrder(posts: seq<Post>, drafts: seq<Post>)
    ensures var r := Rows(posts, drafts);
      && (forall i :: 0 <= i < |posts| ==>
            r[i].key == i && r[i].id == posts[i].id
            && r[i].url == FirstUrl(posts[i]) && r[i].snippet == Snippet(posts[i].body))
      && (forall j :: 0 <= j < |drafts| ==>
            r[|posts| + j].key == |posts| + j && r[|posts| + j].id == drafts[j].id
            && r[|posts| + j].url == FirstUrl(drafts[j]) && r[|posts| + j].snippet == Snippet(drafts[j].body))
  {
    var all := posts + drafts;
    assert forall j :: 0 <= j < |drafts| ==> all[|posts| + j] == drafts[j];
  }

  /** What the edit dialog holds. */
  datatype EditFields = EditFields(title: string, body: string, draft: bool)

  /** `startEdit(p)` on a record with these fields: `p.title || ''`, `p.body || ''`, `p.draft || false`. */
  function EditOf(title: Option<string>, body: Option<string>, draft: Option<bool>): (r: EditFields)
    ensures r.title == OrEmpty(title) && r.body == OrEmpty(body)
    ensures r.draft <==> draft == Some(true)
  {
    EditFields(OrEmpty(title), OrEmpty(body), draft.GetOr(false))
  }

  /**
   * The Edit button as written: it passes the table row to `startEdit`, and a row has a
   * snippet but no `body`, so the dialog opens with an empty body.
   */
  function RowEdit(r: Row): (e: EditFields)
    ensures e.body == []
  {
    EditOf(r.title, None, r.draft)
  }

  /** Editing from the post itself, as the dialog evidently intends. */
  function PostEdit(p: Post): (e: EditFields)
    ensures e.body == OrEmpty(p.body)
  {
    EditOf(p.title, p.body, p.draft)
  }

  /** Saving an unchanged dialog opened from a row sends an empty body, wiping the post's text. */
  lemma RowEditLosesBody()
    ensures var p := Post("p1", None, Some("Hello"), Some("A long story"), None, None, None, false,
                          None, None, None, None, None);
      && RowEdit(RowOf(p, 0)).body == []
      && PostEdit(p).body == "A long story"
  {
  }

  /** Opened from the post, an unchanged dialog saves back the title, body and draft flag the post had. */
  lemma PostEditKeeps(p: Post)
    requires Truthy(p.title) && p.draft.Some?
    ensures PostEdit(p) == EditFields(p.title.value, OrEmpty(p.body), p.draft.value)
  {
  }

  datatype Request =
    | FetchLists
    | PatchPost(id: string, title: string, body: string, draft: bool)
    | PatchDraft(id: string, draft: bool)
    | DeletePost(id: string)
    | BulkDelete(ids: set<string>)

  /** The two list replies of `load()`: both arrays, or a failure of either. */
  datatype ListsReply = Lists(posts: seq<Post>, drafts: seq<Post>) | LoadFailed

  /** What `load()` toasts. */
  function LoadToasts(reply: ListsReply): (r: seq<Toast>)
    ensures reply.Lists? <==> r == []
  {
    if reply.Lists? then [] else [Toast("Failed to load posts", "error")]
  }

  class ManagePostsState {
    var posts: seq<Post>
    var drafts: seq<Post>
    var loading: bool
    var selected: map<string, bool>
    var editing: Option<string>
    var editTitle: string
    var editBody: string
    var editDraft: bool
    var toasts: seq<Toast>
    var requests: seq<Request>

    constructor()
      ensures posts == [] && drafts == [] && loading && selected == map[]
      ensures editing == None && editTitle == [] && editBody == [] && !editDraft
      ensures toasts == [] && requests == []
    {
      posts, drafts, loading, selected := [], [], true, map[];
      editing, editTitle, editBody, editDraft := None, [], [], false;
      toasts, requests := [], [];
    }

    /** The lists, selection and loading flag after `load()` with `reply`, from the given ones. */
    ghost predicate LoadedFrom(reply: ListsReply, p0: seq<Post>, d0: seq<Post>, s0: map<string, bool>)
      reads this
    {
      && !loading
      && (reply.Lists? ==> posts == reply.posts && drafts == reply.drafts && selected == map[])
      && (reply.LoadFailed? ==> posts == p0 && drafts == d0 && selected == s0)
    }

    /** `load()`: a successful load replaces both lists and clears the selection. */
    method Load(reply: ListsReply)
      modifies this
      ensures LoadedFrom(reply, old(posts), old(drafts), old(selected))
      ensures requests == old(requests) + [FetchLists] && toasts == old(toasts) + LoadToasts(reply)
      ensures editing == old(editing) && editTitle == old(editTitle) && editBody == old(editBody) && editDraft == old(editDraft)
    {
      loading := true;
      requests := requests + [FetchLists];
      match reply {
        case Lists(p, d) =>
          posts := p;
          drafts := d;
          selected := map[];
        case LoadFailed =>
          toasts := toasts + [Toast("Failed to load posts", "error")];
      }
      loading := false;
    }

    /** `toggleAll`: every post and draft id is set to `checked`; other keys keep their value. */
    method ToggleAll(checked: bool)
      modifies this`selected
      ensures selected == SetAll(old(selected), Ids(posts + drafts), checked)
    {
      var next := selected;
      var list := posts + drafts;
      ghost var s0, ids := selected, Ids(list);
      for i := 0 to |list|
        invariant next == SetAll(s0, ids[..i], checked)
      {
        assert ids[..i + 1] == ids[..i] + [list[i].id];
        SetAllSnoc(s0, ids[..i], list[i].id, checked);
        next := next[list[i].id := checked];
      }
      assert ids[..|list|] == ids;
      selected := next;
    }

    /** `toggleOne(id, checked)`: only that key changes. */
    method ToggleOne(id: string, checked: bool)
      modifies this`selected
      ensures selected == old(selected)[id := checked]
    {
      selected := selected[id := checked];
    }

    /**
     * `save(id)`: the dialog's fields are sent; the dialog closes, and the lists reload, only
     * on an ok reply. A rejected request ends the handler.
     */
    method Save(id: string, reply: FetchReply<()>, reload: ListsReply)
      modifies this
      ensures |requests| > |old(requests)| && requests[..|old(requests)| + 1] == old(requests) + [PatchPost(id, editTitle, editBody, editDraft)]
      ensures editTitle == old(editTitle) && editBody == old(editBody) && editDraft == old(editDraft)
      ensures reply.Rejected? ==> toasts == old(toasts) && editing == old(editing) && |requests| == |old(requests)| + 1
      ensures reply.Response? && reply.status == 401 ==>
        toasts == old(toasts) + [Toast("Unauthorized (edit). Check token.", "error")] && editing == old(editing)
        && |requests| == |old(requests)| + 1
      ensures reply.Response? && reply.status != 401 && !IsOk(reply.status) ==>
        toasts == old(toasts) + [Toast("Save failed", "error")] && editing == old(editing)
        && |requests| == |old(requests)| + 1
      ensures reply.Response? && IsOk(reply.status) ==>
        toasts == old(toasts) + [Toast("Saved", "ok")] + LoadToasts(reload) && editing == None
        && requests == old(requests) + [PatchPost(id, editTitle, editBody, editDraft), FetchLists]
        && LoadedFrom(reload, old(posts), old(drafts), old(selected))
      ensures !(reply.Response? && IsOk(reply.status)) ==>
        posts == old(posts) && drafts == old(drafts) && selected == old(selected) && loading == old(loading)
    {
      requests := requests + [PatchPost(id, editTitle, editBody, editDraft)];
      if reply.Rejected? {
        return;
      }
      if reply.status == 401 {
        toasts := toasts + [Toast("Unauthorized (edit). Check token.", "error")];
        return;
      }
      if !IsOk(reply.status) {
        toasts := toasts + [Toast("Save failed", "error")];
        return;
      }
      toasts := toasts + [Toast("Saved", "ok")];
      editing := None;
      Load(reload);
    }

    /** `bulkDelete()`: nothing at all happens with nothing selected; otherwise the selected ids are sent. */
    method BulkDeleteSelected(reply: FetchReply<()>, reload: ListsReply)
      modifies this
      ensures SelectedIds(old(selected)) == {} ==>
        requests == old(requests) && toasts == old(toasts) && selected == old(selected)
        && posts == old(posts) && drafts == old(drafts) && loading == old(loading)
      ensures SelectedIds(old(selected)) != {} ==>
        |requests| > |old(requests)| && requests[..|old(requests)| + 1] == old(requests) + [BulkDelete(SelectedIds(old(selected)))]
      ensures SelectedIds(old(selected)) != {} && reply.Response? && reply.status == 401 ==>
        toasts == old(toasts) + [Toast("Unauthorized (bulk delete).", "error")] && selected == old(selected)
      ensures SelectedIds(old(selected)) != {} && reply.Response? && reply.status != 401 && !IsOk(reply.status) ==>
        toasts == old(toasts) + [Toast("Bulk delete failed", "error")] && selected == old(selected)
      ensures SelectedIds(old(selected)) != {} && reply.Response? && IsOk(reply.status) ==>
        toasts == old(toasts) + [Toast("Selected moved to Trash", "ok")] + LoadToasts(reload)
        && requests == old(requests) + [BulkDelete(SelectedIds(old(selected))), FetchLists]
        && LoadedFrom(reload, old(posts), old(drafts), old(selected))
      ensures SelectedIds(old(selected)) != {} && reply.Rejected? ==> toasts == old(toasts)
      ensures SelectedIds(old(selected)) != {} && !(reply.Response? && IsOk(reply.status)) ==>
        requests == old(requests) + [BulkDelete(SelectedIds(old(selected)))]
        && posts == old(posts) && drafts == old(drafts) && selected == old(selected) && loading == old(loading)
      ensures editing == old(editing) && editTitle == old(editTitle) && editBody == old(editBody) && editDraft == old(editDraft)
    {
      var ids := SelectedIds(selected);
      if ids == {} {
        return;
      }
      requests := requests + [BulkDelete(ids)];
      if reply.Rejected? {
        return;
      }
      if reply.status == 401 {
        toasts := toasts + [Toast("Unauthorized (bulk delete).", "error")];
        return;
      }
      if !IsOk(reply.status) {
        toasts := toasts + [Toast("Bulk delete failed", "error")];
        return;
      }
      toasts := toasts + [Toast("Selected moved to Trash", "ok")];
      Load(reload);
    }

    /** `delOne(id)`: a single soft delete. */
    method DeleteOne(id: string, reply: FetchReply<()>, reload: ListsReply)
      modifies this
      ensures |requests| > |old(requests)| && requests[..|old(requests)| + 1] == old(requests) + [DeletePost(id)]
      ensures reply.Response? && reply.status == 401 ==>
        toasts == old(toasts) + [Toast("Unauthorized (delete).", "error")] && selected == old(selected)
      ensures reply.Response? && reply.status != 401 && !IsOk(reply.status) ==>
        toasts == old(toasts) + [Toast("Delete failed", "error")] && selected == old(selected)
      ensures reply.Response? && IsOk(reply.status) ==>
        toasts == old(toasts) + [Toast("Moved to Trash", "ok")] + LoadToasts(reload)
        && requests == old(requests) + [DeletePost(id), FetchLists]
        && LoadedFrom(reload, old(posts), old(drafts), old(selected))
      ensures reply.Rejected? ==> toasts == old(toasts)
      ensures !(reply.Response? && IsOk(reply.status)) ==>
        requests == old(requests) + [DeletePost(id)]
        && posts == old(posts) && drafts == old(drafts) && selected == old(selected) && loading == old(loading)
      ensures editing == old(editing) && editTitle == old(editTitle) && editBody == old(editBody) && editDraft == old(editDraft)
    {
      requests := requests + [DeletePost(id)];
      if reply.Rejected? {
        return;
      }
      if reply.status == 401 {
        toasts := toasts + [Toast("Unauthorized (delete).", "error")];
        return;
      }
      if !IsOk(reply.status) {
        toasts := toasts + [Toast("Delete failed", "error")];
        return;
      }
      toasts := toasts + [Toast("Moved to Trash", "ok")];
      Load(reload);
    }

    /**
     * `toggleDraft(id, currentDraft)`: the opposite flag is sent (a missing flag counts as
     * not a draft), and the toast names the new state.
     */
    method ToggleDraft(id: string, currentDraft: Option<bool>, reply: FetchReply<()>, reload: ListsReply)
      modifies this
      ensures |requests| > |old(requests)| && requests[..|old(requests)| + 1] == old(requests) + [PatchDraft(id, currentDraft != Some(true))]
      ensures reply.Response? && reply.status == 401 ==>
        toasts == old(toasts) + [Toast("Unauthorized (toggle draft).", "error")] && selected == old(selected)
      ensures reply.Response? && reply.status != 401 && !IsOk(reply.status) ==>
        toasts == old(toasts) + [Toast("Failed to toggle draft", "error")] && selected == old(selected)
      ensures reply.Response? && IsOk(reply.status) ==>
        toasts == old(toasts) + [Toast(if currentDraft == Some(true) then "Published" else "Unpublished", "ok")] + LoadToasts(reload)
        && requests == old(requests) + [PatchDraft(id, currentDraft != Some(true)), FetchLists]
        && LoadedFrom(reload, old(posts), old(drafts), old(selected))
      ensures reply.Rejected? ==> toasts == old(toasts)
      ensures !(reply.Response? && IsOk(reply.status)) ==>
        requests == old(requests) + [PatchDraft(id, currentDraft != Some(true))]
        && posts == old(posts) && drafts == old(drafts) && selected == old(selected) && loading == old(loading)
      ensures editing == old(editing) && editTitle == old(editTitle) && editBody == old(editBody) && editDraft == old(editDraft)
    {
      var current := currentDraft.GetOr(false);
      requests := requests + [PatchDraft(id, !current)];
      if reply.Rejected? {
        return;
      }
      if reply.status == 401 {
        toasts := toasts + [Toast("Unauthorized (toggle draft).", "error")];
        return;
      }
      if !IsOk(reply.status) {
        toasts := toasts + [Toast("Failed to toggle draft", "error")];
        return;
      }
      toasts := toasts + [Toast(if current then "Published" else "Unpublished", "ok")];
      Load(reload);
    }

    /**
     * The Edit button as written: `startEdit(row)` with the table row, whose missing `body`
     * leaves the dialog's body empty.
     */
    method StartEditFromRow(r: Row)
      modifies this`editing, this`editTitle, this`editBody, this`editDraft
      ensures editing == Some(r.id) && EditFields(editTitle, editBody, editDraft) == RowEdit(r)
      ensures editBody == []
    {
      var e := RowEdit(r);
      editing := Some(r.id);
      editTitle := e.title;
      editBody := e.body;
      editDraft := e.draft;
    }

    /** `startEdit(p)`, given the post the row shows, as the dialog evidently intends. */
    method StartEdit(p: Post)
      modifies this`editing, this`editTitle, this`editBody, this`editDraft
      ensures editing == Some(p.id) && EditFields(editTitle, editBody, editDraft) == PostEdit(p)
    {
      var e := PostEdit(p);
      editing := Some(p.id);
      editTitle := e.title;
      editBody := e.body;
      editDraft := e.draft;
    }

    /** `cancelEdit()`: the dialog closes and keeps its fields. */
    method CancelEdit()
      modifies this`editing
      ensures editing == None
    {
      editing := None;
    }
  }
}
