/** The Trash panel: soft-deleted posts, restored one by one or in bulk, or deleted for good. */
module Trash {
  import opened Wrappers
  import opened Strings
  import opened Http
  import opened PostRecords

  /** One row of the table. */
  datatype TrashRow = TrashRow(key: nat, id: string, title: Option<string>, date: Option<string>,
                               kind: Option<string>, url: string)

  /** `rows`: one row per item, keyed by its position. */
  function TrashRows(items: seq<Post>): (r: seq<TrashRow>)
    ensures |r| == |items|
    ensures forall i :: 0 <= i < |r| ==>
      r[i] == TrashRow(i, items[i].id, items[i].title, items[i].date, items[i].kind, FirstUrl(items[i]))
  {
    seq(|items|, i requires 0 <= i < |items| =>
      TrashRow(i, items[i].id, items[i].title, items[i].date, items[i].kind, FirstUrl(items[i])))
  }

  /** The rows list the items' ids in the items' order, and a row offers a link iff its item has one. */
  lemma TrashRowsOrder(items: seq<Post>)
    ensures var r := TrashRows(items);
      && seq(|r|, i requires 0 <= i < |r| => r[i].id) == Ids(items)
      && forall i :: 0 <= i < |r| ==>
           (r[i].url == [] <==> !Truthy(items[i].playUrl) && !Truthy(items[i].audioUrl) && !Truthy(items[i].videoUrl))
  {
  }

  datatype Request = FetchTrash | RestorePost(id: string) | HardDelete(id: string) | BulkRestore(ids: set<string>)

  /** The reply of `load()`: the array of items, or a failure. */
  datatype TrashReply = Items(items: seq<Post>) | LoadFailed

  function LoadToasts(reply: TrashReply): (r: seq<Toast>)
    ensures reply.Items? <==> r == []
  {
    if reply.Items? then [] else [Toast("Failed to load trash", "error")]
  }

  class TrashState {
    var items: seq<Post>
    var loading: bool
    var selected: map<string, bool>
    var toasts: seq<Toast>
    var requests: seq<Request>

    constructor()
      ensures items == [] && loading && selected == map[] && toasts == [] && requests == []
    {
      items, loading, selected, toasts, requests := [], true, map[], [], [];
    }

    ghost predicate LoadedFrom(reply: TrashReply, i0: seq<Post>, s0: map<string, bool>)
      reads this
    {
      && !loading
      && (reply.Items? ==> items == reply.items && selected == map[])
      && (reply.LoadFailed? ==> items == i0 && selected == s0)
    }

    /** `load()`: a successful load replaces the items and clears the selection. */
    method Load(reply: TrashReply)
      modifies this
      ensures LoadedFrom(reply, old(items), old(selected))
      ensures requests == old(requests) + [FetchTrash] && toasts == old(toasts) + LoadToasts(reply)
    {
      loading := true;
      requests := requests + [FetchTrash];
      match reply {
        case Items(p) =>
          items := p;
          selected := map[];
        case LoadFailed =>
          toasts := toasts + [Toast("Failed to load trash", "error")];
      }
      loading := false;
    }

    /**
     * `toggleAll`: a fresh map. Checked, it holds exactly the item ids, each set; unchecked,
     * it is empty.
     */
    method ToggleAll(checked: bool)
      modifies this`selected
      ensures checked ==> selected == SetAll(map[], Ids(items), true)
      ensures checked ==> forall k :: k in selected <==> k in Ids(items)
      ensures checked ==> SelectedIds(selected) == set k | k in Ids(items)
      ensures !checked ==> selected == map[]
    {
      var next: map<string, bool> := map[];
      if checked {
        ghost var ids := Ids(items);
        for i := 0 to |items|
          invariant next == SetAll(map[], ids[..i], true)
        {
          assert ids[..i + 1] == ids[..i] + [items[i].id];
          SetAllSnoc(map[], ids[..i], items[i].id, true);
          next := next[items[i].id := true];
        }
        assert ids[..|items|] == ids;
      }
      selected := next;
    }

    /** `toggleOne(id, checked)`: only that key changes. */
    method ToggleOne(id: string, checked: bool)
      modifies this`selected
      ensures selected == old(selected)[id := checked]
    {
      selected := selected[id := checked];
    }

    /** `restoreOne(id)`: reloads only on an ok reply. */
    method RestoreOne(id: string, reply: FetchReply<()>, reload: TrashReply)
      modifies this
      ensures |requests| > |old(requests)| && requests[..|old(requests)| + 1] == old(requests) + [RestorePost(id)]
      ensures reply.Response? && reply.status == 401 ==>
        toasts == old(toasts) + [Toast("Unauthorized (restore).", "error")] && |requests| == |old(requests)| + 1
      ensures reply.Response? && reply.status != 401 && !IsOk(reply.status) ==>
        toasts == old(toasts) + [Toast("Restore failed", "error")] && |requests| == |old(requests)| + 1
      ensures reply.Response? && IsOk(reply.status) ==>
        toasts == old(toasts) + [Toast("Restored", "ok")] + LoadToasts(reload)
        && requests == old(requests) + [RestorePost(id), FetchTrash]
        && LoadedFrom(reload, old(items), old(selected))
      ensures reply.Rejected? ==> toasts == old(toasts) && |requests| == |old(requests)| + 1
      ensures !(reply.Response? && IsOk(reply.status)) ==>
        items == old(items) && selected == old(selected) && loading == old(loading)
    {
      requests := requests + [RestorePost(id)];
      if reply.Rejected? {
        return;
      }
      if reply.status == 401 {
        toasts := toasts + [Toast("Unauthorized (restore).", "error")];
        return;
      }
      if !IsOk(reply.status) {
        toasts := toasts + [Toast("Restore failed", "error")];
        return;
      }
      toasts := toasts + [Toast("Restored", "ok")];
      Load(reload);
    }

    /** `hardDeleteOne(id)`: nothing is sent unless the user confirms. */
    method HardDeleteOne(id: string, confirmed: bool, reply: FetchReply<()>, reload: TrashReply)
      modifies this
      ensures !confirmed ==>
        requests == old(requests) && toasts == old(toasts) && items == old(items) && selected == old(selected)
      ensures confirmed ==>
        |requests| > |old(requests)| && requests[..|old(requests)| + 1] == old(requests) + [HardDelete(id)]
      ensures confirmed && reply.Response? && reply.status == 401 ==>
        toasts == old(toasts) + [Toast("Unauthorized (hard delete).", "error")] && |requests| == |old(requests)| + 1
      ensures confirmed && reply.Response? && reply.status != 401 && !IsOk(reply.status) ==>
        toasts == old(toasts) + [Toast("Hard delete failed", "error")] && |requests| == |old(requests)| + 1
      ensures confirmed && reply.Response? && IsOk(reply.status) ==>
        toasts == old(toasts) + [Toast("Deleted permanently", "ok")] + LoadToasts(reload)
        && requests == old(requests) + [HardDelete(id), FetchTrash]
        && LoadedFrom(reload, old(items), old(selected))
      ensures confirmed && reply.Rejected? ==> toasts == old(toasts) && |requests| == |old(requests)| + 1
      ensures !(confirmed && reply.Response? && IsOk(reply.status)) ==>
        items == old(items) && selected == old(selected) && loading == old(loading)
    {
      if !confirmed {
        return;
      }
      requests := requests + [HardDelete(id)];
      if reply.Rejected? {
        return;
      }
      if reply.status == 401 {
        toasts := toasts + [Toast("Unauthorized (hard delete).", "error")];
        return;
      }
      if !IsOk(reply.status) {
        toasts := toasts + [Toast("Hard delete failed", "error")];
        return;
      }
      toasts := toasts + [Toast("Deleted permanently", "ok")];
      Load(reload);
    }

    /** `bulkRestore()`: nothing happens with nothing selected; otherwise exactly the selected ids are sent. */
    method BulkRestoreSelected(reply: FetchReply<()>, reload: TrashReply)
      modifies this
      ensures SelectedIds(old(selected)) == {} ==>
        requests == old(requests) && toasts == old(toasts) && items == old(items) && selected == old(selected)
        && loading == old(loading)
      ensures SelectedIds(old(selected)) != {} ==>
        |requests| > |old(requests)| && requests[..|old(requests)| + 1] == old(requests) + [BulkRestore(SelectedIds(old(selected)))]
      ensures SelectedIds(old(selected)) != {} && reply.Response? && reply.status == 401 ==>
        toasts == old(toasts) + [Toast("Unauthorized (bulk restore).", "error")] && selected == old(selected)
      ensures SelectedIds(old(selected)) != {} && reply.Response? && reply.status != 401 && !IsOk(reply.status) ==>
        toasts == old(toasts) + [Toast("Bulk restore failed", "error")] && selected == old(selected)
      ensures SelectedIds(old(selected)) != {} && reply.Response? && IsOk(reply.status) ==>
        toasts == old(toasts) + [Toast("Selected restored", "ok")] + LoadToasts(reload)
        && requests == old(requests) + [BulkRestore(SelectedIds(old(selected))), FetchTrash]
        && LoadedFrom(reload, old(items), old(selected))
      ensures SelectedIds(old(selected)) != {} && reply.Rejected? ==> toasts == old(toasts)
      ensures SelectedIds(old(selected)) != {} && !(reply.Response? && IsOk(reply.status)) ==>
        requests == old(requests) + [BulkRestore(SelectedIds(old(selected)))]
        && items == old(items) && selected == old(selected) && loading == old(loading)
    {
      var ids := SelectedIds(selected);
      if ids == {} {
        return;
      }
      requests := requests + [BulkRestore(ids)];
      if reply.Rejected? {
        return;
      }
      if reply.status == 401 {
        toasts := toasts + [Toast("Unauthorized (bulk restore).", "error")];
        return;
      }
      if !IsOk(reply.status) {
        toasts := toasts + [Toast("Bulk restore failed", "error")];
        return;
      }
      toasts := toasts + [Toast("Selected restored", "ok")];
      Load(reload);
    }
  }
}
