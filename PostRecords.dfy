/**
 * The post records the admin screens list, the rows built from them, and the selection maps
 * (`{ [id]: checked }`) they keep.
 */
module PostRecords {
  import opened Wrappers
  import opened Strings

  /** A post as the listing endpoints return it; a field the JSON lacks is `None`. */
  datatype Post = Post(
    id: string,
    filename: Option<string>,
    title: Option<string>,
    body: Option<string>,
    date: Option<string>,
    kind: Option<string>,
    draft: Option<bool>,
    deleted: bool,
    playUrl: Option<string>,
    audioUrl: Option<string>,
    videoUrl: Option<string>,
    imageUrl: Option<string>,
    tagline: Option<string>)

  const SnippetMax: nat := 60
  const Ellipsis: char := '…'

  /**
   * The preview of a body: the first 60 characters and an ellipsis when it is longer, the
   * body itself when it is not, and `''` without a body.
   */
  function Snippet(body: Option<string>): (r: string)
    ensures |r| <= SnippetMax + 1
    ensures !Truthy(body) ==> r == []
    ensures Truthy(body) && |body.value| <= SnippetMax ==> r == body.value
    ensures Truthy(body) && |body.value| > SnippetMax ==>
      |r| == SnippetMax + 1 && r[..SnippetMax] == body.value[..SnippetMax] && r[SnippetMax] == Ellipsis
  {
    if !Truthy(body) then []
    else if |body.value| > SnippetMax then body.value[..SnippetMax] + [Ellipsis]
    else body.value
  }

  /** `p.playUrl || p.audioUrl || p.videoUrl || ''`. */
  function FirstUrl(p: Post): (r: string)
    ensures Truthy(p.playUrl) ==> r == p.playUrl.value
    ensures !Truthy(p.playUrl) && Truthy(p.audioUrl) ==> r == p.audioUrl.value
    ensures !Truthy(p.playUrl) && !Truthy(p.audioUrl) && Truthy(p.videoUrl) ==> r == p.videoUrl.value
    ensures r == [] <==> !Truthy(p.playUrl) && !Truthy(p.audioUrl) && !Truthy(p.videoUrl)
  {
    OrElse(p.playUrl, OrElse(p.audioUrl, OrElse(p.videoUrl, [])))
  }

  /** The ids of the posts, in order: the keys `list.forEach(p => next[p.id] = ...)` writes. */
  function Ids(s: seq<Post>): (r: seq<string>)
    ensures |r| == |s|
    ensures forall i :: 0 <= i < |s| ==> r[i] == s[i].id
  {
    if s == [] then [] else Ids(s[..|s| - 1]) + [s[|s| - 1].id]
  }

  /** The keys `m[p.filename] = ...` writes: a missing filename is the key `"undefined"`. */
  function Filenames(s: seq<Post>): (r: seq<string>)
    ensures |r| == |s|
    ensures forall i :: 0 <= i < |s| ==> r[i] == Interp(s[i].filename)
  {
    if s == [] then [] else Filenames(s[..|s| - 1]) + [Interp(s[|s| - 1].filename)]
  }

  /** `Object.keys(selected).filter(k => selected[k])`, as a set: the keys mapped to `true`. */
  function SelectedIds(m: map<string, bool>): (r: set<string>)
    ensures forall k :: k in r <==> k in m && m[k]
  {
    set k | k in m && m[k]
  }

  /** `m` with every key of `keys` set to `v`: what `keys.forEach(k => { m[k] = v })` leaves. */
  function SetAll(m: map<string, bool>, keys: seq<string>, v: bool): (r: map<string, bool>)
    ensures forall k :: k in r <==> k in m || k in keys
    ensures forall k :: k in keys ==> r[k] == v
    ensures forall k :: k in m && k !in keys ==> r[k] == m[k]
  {
    if keys == [] then m
    else
      var init := keys[..|keys| - 1];
      assert forall k :: k in keys <==> k in init || k == keys[|keys| - 1];
      SetAll(m, init, v)[keys[|keys| - 1] := v]
  }

  /** One more key set is one more step of the loop. */
  lemma SetAllSnoc(m: map<string, bool>, keys: seq<string>, k: string, v: bool)
    ensures SetAll(m, keys + [k], v) == SetAll(m, keys, v)[k := v]
  {
    assert (keys + [k])[..|keys|] == keys;
  }

  /** Selecting every key of a list from scratch selects exactly that list's keys. */
  lemma SetAllSelects(keys: seq<string>)
    ensures SelectedIds(SetAll(map[], keys, true)) == set k | k in keys
  {
    var r := SetAll(map[], keys, true);
    assert forall k :: k in SelectedIds(r) <==> k in keys;
  }

  /** `a` is `b` with some elements left out, the rest in their order. */
  predicate IsSubseq<T(==)>(a: seq<T>, b: seq<T>)
    decreases |b|
  {
    if a == [] then true
    else if b == [] then false
    else (a[0] == b[0] && IsSubseq(a[1..], b[1..])) || IsSubseq(a, b[1..])
  }

  lemma {:induction false} SubseqRefl<T>(s: seq<T>)
    ensures IsSubseq(s, s)
  {
    if s != [] {
      SubseqRefl(s[1..]);
    }
  }

  /** `s.filter(f)`: the elements that pass, in their order. */
  function Filter<T(==, !new)>(s: seq<T>, f: T -> bool): (r: seq<T>)
    ensures |r| <= |s|
    ensures forall x :: x in r <==> x in s && f(x)
    ensures IsSubseq(r, s)
  {
    if s == [] then []
    else
      var rest := Filter(s[1..], f);
      assert forall x :: x in s <==> x == s[0] || x in s[1..];
      if f(s[0]) then
        assert ([s[0]] + rest)[1..] == rest;
        [s[0]] + rest
      else rest
  }

  /** A filter that passes everything changes nothing. */
  lemma {:induction false} FilterAll<T(!new)>(s: seq<T>, f: T -> bool)
    requires forall i :: 0 <= i < |s| ==> f(s[i])
    ensures Filter(s, f) == s
  {
    if s != [] {
      FilterAll(s[1..], f);
      assert [s[0]] + s[1..] == s;
    }
  }

  /** Filtering keeps the multiplicity of what passes: nothing is dropped or repeated. */
  lemma {:induction false} FilterCount<T(!new)>(s: seq<T>, f: T -> bool, x: T)
    ensures multiset(Filter(s, f))[x] == if f(x) then multiset(s)[x] else 0
  {
    if s != [] {
      FilterCount(s[1..], f, x);
      assert s == [s[0]] + s[1..];
    }
  }

  /** Filters that agree on every element keep the same elements. */
  lemma {:induction false} FilterSame<T(!new)>(s: seq<T>, f: T -> bool, g: T -> bool)
    requires forall i :: 0 <= i < |s| ==> f(s[i]) == g(s[i])
    ensures Filter(s, f) == Filter(s, g)
  {
    if s != [] {
      FilterSame(s[1..], f, g);
    }
  }
}
