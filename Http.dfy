/**
 * The shapes of the backend's replies as the components see them, and the toasts and
 * messages they show. Transport, headers and JSON parsing are not modelled: a reply is
 * given as a value.
 */
module Http {
  import opened Wrappers
  import opened Strings

  /** `res.ok`: a status in 200..299. */
  predicate IsOk(status: int) {
    200 <= status <= 299
  }

  /** `await fetch(...)` followed by `res.json()`: a status and the parsed body, or a rejected promise. */
  datatype FetchReply<T> = Response(status: int, json: T) | Rejected(message: string)

  /**
   * An `XMLHttpRequest` upload: `onload` with a status and the body parsed with `JSON.parse`
   * (absent when the text is not JSON), or `onerror`.
   */
  datatype XhrReply<T> = Loaded(status: int, json: Option<T>) | NetworkError

  /** An `axios` call: it resolves with the body of a 2xx reply and rejects otherwise. */
  datatype AxiosReply<T> = Resolved(data: T) | Failed(message: string)

  /** `toast.show(message, kind)`. */
  datatype Toast = Toast(message: string, kind: string)

  /** The reply body of `/api/upload`. */
  datatype UploadJson = UploadJson(id: Option<string>, filename: Option<string>)

  /** `` `Unauthorized (${where}). Check your admin token.` `` */
  function UnauthorizedMessage(where: string): string {
    "Unauthorized (" + where + "). Check your admin token."
  }

  /** The message is `Unauthorized (`, the place, and a fixed 26-character tail. */
  lemma UnauthorizedMessageShape(where: string)
    ensures var r := UnauthorizedMessage(where);
      |r| == |where| + 40 && r[..14] == "Unauthorized (" && r[14..14 + |where|] == where
  {
    var r := UnauthorizedMessage(where);
    assert r[..14] == "Unauthorized (";
    assert r[14..14 + |where|] == where;
  }

  /** The message names the place it comes from: different places give different messages. */
  lemma UnauthorizedInjective(a: string, b: string)
    requires UnauthorizedMessage(a) == UnauthorizedMessage(b)
    ensures a == b
  {
    var m := UnauthorizedMessage(a);
    UnauthorizedMessageShape(a);
    UnauthorizedMessageShape(b);
    assert |a| == |b|;
    assert a == m[14..14 + |a|];
  }

  /** `err.message || fallback`: the message of a caught error, or the fallback when it is empty. */
  function ErrorText(message: string, fallback: string): (r: string)
    ensures message != [] ==> r == message
    ensures message == [] ==> r == fallback
  {
    if message != [] then message else fallback
  }

  /** `` `${what} failed (${status})` ``, the message of the error a failed reply throws. */
  function FailedStatus(what: string, status: int): string {
    what + " failed (" + IntToString(status) + ")"
  }

  /** The message starts with the failed step's name and ends with the status in parentheses. */
  lemma FailedStatusShape(what: string, status: int)
    ensures var r := FailedStatus(what, status);
      |r| >= |what| + 11 && r[..|what| + 9] == what + " failed (" && r[|r| - 1] == ')'
  {
    var r := FailedStatus(what, status);
    assert r[..|what| + 9] == what + " failed (";
  }
}
