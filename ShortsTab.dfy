/** The Shorts tab: pick an uploaded audio post and a length, queue a short, list finished jobs. */
module ShortsTab {
  import opened Wrappers
  import opened Strings
  import opened Http
  import opened PostRecords

  const DefaultMaxSeconds: int := 45

  /** `Number(value) || 45`, given `Number(value)` with `None` for NaN: 0 and NaN fall back to 45. */
  function MaxFallback(n: Option<int>): (r: int)
    ensures n == Some(0) || n == None ==> r == DefaultMaxSeconds
    ensures n.Some? && n.value != 0 ==> r == n.value
  {
    if n.Some? && n.value != 0 then n.value else DefaultMaxSeconds
  }

  /** The length kept is never zero, and feeding it back in keeps it. */
  lemma MaxFallbackStable(n: Option<int>)
    ensures MaxFallback(n) != 0
    ensures MaxFallback(Some(MaxFallback(n))) == MaxFallback(n)
  {
  }

  predicate IsAudio(p: Post) {
    p.kind == Some("audio")
  }

  function IsAudioFn(): Post -> bool {
    p => IsAudio(p)
  }

  /** `aud`: the audio posts the picker offers, in their order. */
  function Aud(posts: seq<Post>): (r: seq<Post>)
    ensures IsSubseq(r, posts)
    ensures forall p :: p in r <==> p in posts && IsAudio(p)
  {
    Filter(posts, IsAudioFn())
  }

  /** A list of audio posts is offered whole. */
  lemma AudOfAudio(posts: seq<Post>)
    requires forall i :: 0 <= i < |posts| ==> IsAudio(posts[i])
    ensures Aud(posts) == posts
  {
    FilterAll(posts, IsAudioFn());
  }

  /** No post is offered more often than it is listed. */
  lemma AudCount(posts: seq<Post>, p: Post)
    ensures multiset(Aud(posts))[p] == if IsAudio(p) then multiset(posts)[p] else 0
  {
    FilterCount(posts, IsAudioFn(), p);
  }

  /** One finished or pending short. */
  datatype ShortJob = ShortJob(id: string, source: string, url: Option<string>)

  datatype Request = FetchPosts | FetchJobs | RequestShort(filename: string, maxSeconds: int)

  class ShortsTabState {
    var posts: seq<Post>
    var sel: string
    var maxSeconds: int
    var jobs: seq<ShortJob>
    var toasts: seq<Toast>
    var requests: seq<Request>

    constructor()
      ensures posts == [] && sel == [] && maxSeconds == DefaultMaxSeconds && jobs == []
      ensures toasts == [] && requests == []
    {
      posts, sel, maxSeconds, jobs, toasts, requests := [], [], DefaultMaxSeconds, [], [], [];
    }

    /** `loadPosts()`: whatever JSON comes back becomes the list; a failed request changes nothing. */
    method LoadPosts(reply: FetchReply<seq<Post>>)
      modifies this`posts, this`requests
      ensures requests == old(requests) + [FetchPosts]
      ensures reply.Response? ==> posts == reply.json
      ensures reply.Rejected? ==> posts == old(posts)
    {
      requests := requests + [FetchPosts];
      if reply.Response? {
        posts := reply.json;
      }
    }

    /** `loadJobs()`, also run by the five-second interval. */
    method LoadJobs(reply: FetchReply<seq<ShortJob>>)
      modifies this`jobs, this`requests
      ensures requests == old(requests) + [FetchJobs]
      ensures reply.Response? ==> jobs == reply.json
      ensures reply.Rejected? ==> jobs == old(jobs)
    {
      requests := requests + [FetchJobs];
      if reply.Response? {
        jobs := reply.json;
      }
    }

    method Select(filename: string)
      modifies this`sel
      ensures sel == filename
    {
      sel := filename;
    }

    /** The length input's `onChange`. */
    method SetMax(n: Option<int>)
      modifies this`maxSeconds
      ensures maxSeconds == MaxFallback(n)
    {
      maxSeconds := MaxFallback(n);
    }

    /**
     * `enqueue()`: no audio picked, no request; otherwise the pick and the length are sent,
     * and the jobs reload only after an ok reply.
     */
    method Enqueue(reply: FetchReply<()>, reload: FetchReply<seq<ShortJob>>)
      modifies this`toasts, this`requests, this`jobs
      ensures sel == [] ==>
        toasts == old(toasts) + [Toast("Pick audio", "error")] && requests == old(requests) && jobs == old(jobs)
      ensures sel != [] && reply.Rejected? ==>
        requests == old(requests) + [RequestShort(sel, maxSeconds)] && toasts == old(toasts) && jobs == old(jobs)
      ensures sel != [] && reply.Response? && !IsOk(reply.status) ==>
        requests == old(requests) + [RequestShort(sel, maxSeconds)]
        && toasts == old(toasts) + [Toast("Queue failed", "error")] && jobs == old(jobs)
      ensures sel != [] && reply.Response? && IsOk(reply.status) ==>
        requests == old(requests) + [RequestShort(sel, maxSeconds), FetchJobs]
        && toasts == old(toasts) + [Toast("Queued", "ok")]
        && (reload.Response? ==> jobs == reload.json) && (reload.Rejected? ==> jobs == old(jobs))
    {
      if sel == [] {
        toasts := toasts + [Toast("Pick audio", "error")];
        return;
      }
      requests := requests + [RequestShort(sel, maxSeconds)];
      if reply.Rejected? {
        return;
      }
      if !IsOk(reply.status) {
        toasts := toasts + [Toast("Queue failed", "error")];
        return;
      }
      toasts := toasts + [Toast("Queued", "ok")];
      LoadJobs(reload);
    }
  }
}
