/** `useSnackbar`: a message shown with a kind, closed by hand or after a delay. */
module Snackbar {
  import opened Wrappers

  const DefaultKind: string := "ok"
  const DefaultTtl: int := 3800

  /**
   * The auto-close delay `show` schedules: `ttl` defaults to 3800 when not passed, and a
   * falsy (zero) one schedules nothing.
   */
  function AutoClose(ttl: Option<int>): (r: Option<int>)
    ensures ttl == None ==> r == Some(DefaultTtl)
    ensures ttl.Some? ==> (r.Some? <==> ttl.value != 0)
    ensures r.Some? ==> r.value != 0 && r.value == ttl.GetOr(DefaultTtl)
  {
    var t := ttl.GetOr(DefaultTtl);
    if t != 0 then Some(t) else None
  }

  class SnackbarState {
    var open: bool
    var message: string
    var kind: string

    constructor()
      ensures !open && message == [] && kind == DefaultKind
    {
      open := false;
      message := [];
      kind := DefaultKind;
    }

    /**
     * `show(msg, k, ttl)`: the bar opens with `msg` and kind `k` (default `'ok'`); the
     * returned delay, if any, is when the timer calls `Close`.
     */
    method Show(msg: string, k: Option<string>, ttl: Option<int>) returns (timer: Option<int>)
      modifies this
      ensures open && message == msg && kind == k.GetOr(DefaultKind)
      ensures timer == AutoClose(ttl)
    {
      message := msg;
      kind := k.GetOr(DefaultKind);
      open := true;
      timer := AutoClose(ttl);
    }

    /** `close()`, also what the auto-close timer does: only `open` changes. */
    method Close()
      modifies this
      ensures !open && message == old(message) && kind == old(kind)
    {
      open := false;
    }
  }
}
