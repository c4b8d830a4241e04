/**
 * The hash router (`useHashRoute`): the route is read from `location.hash`, and every
 * subscriber is told the new route on each `hashchange`.
 */
module Router {
  import opened Strings
  import opened Sorting

  predicate IsQuestion(c: char) { c == '?' }

  /** `hash.replace(/^#\/?/, '')`: a leading `#` goes, and with it at most one `/` after it. */
  function StripHash(hash: string): (r: string)
    ensures |hash| - 2 <= |r| <= |hash| && r == hash[|hash| - |r|..]
    ensures |r| < |hash| <==> |hash| >= 1 && hash[0] == '#'
    ensures |r| == |hash| - 2 <==> |hash| >= 2 && hash[0] == '#' && hash[1] == '/'
  {
    if |hash| >= 2 && hash[0] == '#' && hash[1] == '/' then hash[2..]
    else if |hash| >= 1 && hash[0] == '#' then hash[1..]
    else hash
  }

  /**
   * `get()`: the route in `hash`, the text after the `#/` prefix up to the first `?`.
   * (The two `|| ''` of the source leave a string unchanged.)
   */
  function Get(hash: string): (r: string)
    ensures var s := StripHash(hash);
      && StartsWith(s, r)
      && (forall i :: 0 <= i < |r| ==> r[i] != '?')
      && (|r| < |s| ==> s[|r|] == '?')
  {
    var s := StripHash(hash);
    SplitFirstPiece(s, IsQuestion);
    Split(s, IsQuestion)[0]
  }

  /** The part before the first `?` is the only prefix with no `?` that is followed by one or by the end. */
  lemma BeforeQuestion(s: string, p: string)
    requires StartsWith(s, p)
    requires forall i :: 0 <= i < |p| ==> p[i] != '?'
    requires |p| < |s| ==> s[|p|] == '?'
    ensures Split(s, IsQuestion)[0] == p
  {
    var rest := s[|p|..];
    assert s == p + rest;
    assert NoSep(p, IsQuestion);
    SplitAfterPiece(p, rest, IsQuestion);
    if rest != [] {
      assert rest == ['?'] + rest[1..];
      SplitAtSep(rest[1..], '?', IsQuestion);
    }
    assert p + [] == p;
  }

  /** An empty hash, `#` and `#/` all name the empty route. */
  lemma GetOfEmpty()
    ensures Get("") == [] && Get("#") == [] && Get("#/") == []
  {
    assert StripHash("#") == [];
    assert StripHash("#/") == [];
  }

  /** `#/route` and `#/route?query` both name `route` when it holds no `?`. */
  lemma GetRoundTrip(route: string, query: string)
    requires forall i :: 0 <= i < |route| ==> route[i] != '?'
    ensures Get("#/" + route) == route
    ensures Get("#/" + route + "?" + query) == route
  {
    var h1 := "#/" + route;
    assert StripHash(h1) == route;
    BeforeQuestion(route, route);
    var h2 := "#/" + route + "?" + query;
    var s2 := route + "?" + query;
    assert StripHash(h2) == s2 by {
      assert h2[2..] == s2;
    }
    assert s2[..|route|] == route;
    assert s2[|route|] == '?';
    BeforeQuestion(s2, route);
  }

  /** A `#route` without the slash names the same route, unless the route itself starts with `/`. */
  lemma GetWithoutSlash(route: string)
    requires forall i :: 0 <= i < |route| ==> route[i] != '?'
    requires route == [] || route[0] != '/'
    ensures Get("#" + route) == route
  {
    var h := "#" + route;
    assert StripHash(h) == route by {
      assert h[1..] == route;
    }
    BeforeQuestion(route, route);
  }

  /** The identity of a subscribed callback. */
  type Subscriber = nat

  /** One call `fn(get())` made on a `hashchange`. */
  datatype Delivery = Delivery(fn: Subscriber, route: string)

  /** `Set.prototype.delete`: the set without `fn`, the others in their order. */
  function Remove(s: seq<Subscriber>, fn: Subscriber): (r: seq<Subscriber>)
    ensures forall g :: g in r <==> g in s && g != fn
    ensures fn in s || r == s
  {
    if s == [] then []
    else if s[0] == fn then Remove(s[1..], fn)
    else [s[0]] + Remove(s[1..], fn)
  }

  /** Removing a subscriber that was just added gives back the subscribers before it. */
  lemma {:induction false} RemoveAdded(s: seq<Subscriber>, fn: Subscriber)
    requires fn !in s
    ensures Remove(s + [fn], fn) == s
  {
    if s != [] {
      assert (s + [fn])[1..] == s[1..] + [fn];
      RemoveAdded(s[1..], fn);
      assert [s[0]] + s[1..] == s;
    } else {
      assert [fn][1..] == [];
    }
  }

  lemma {:induction false} RemoveDistinct(s: seq<Subscriber>, fn: Subscriber)
    requires Distinct(s)
    ensures Distinct(Remove(s, fn))
  {
    if s != [] {
      assert Distinct(s[1..]) by {
        forall i, j | 0 <= i < j < |s[1..]| ensures s[1..][i] != s[1..][j] {
          assert s[1..][i] == s[i + 1] && s[1..][j] == s[j + 1];
        }
      }
      RemoveDistinct(s[1..], fn);
      if s[0] != fn {
        var rest := Remove(s[1..], fn);
        assert s[0] !in s[1..] by {
          forall j | 0 <= j < |s[1..]| ensures s[1..][j] != s[0] {
            assert s[1..][j] == s[j + 1];
          }
        }
        assert s[0] !in rest;
        forall i, j | 0 <= i < j < |[s[0]] + rest| ensures ([s[0]] + rest)[i] != ([s[0]] + rest)[j] {
          if i > 0 {
            assert ([s[0]] + rest)[i] == rest[i - 1];
          }
          assert ([s[0]] + rest)[j] == rest[j - 1];
        }
      }
    }
  }

  /** The subscribers of one `useHashRoute()` call, in the order a `Set` keeps them. */
  class HashRoute {
    var subs: seq<Subscriber>

    ghost predicate Valid()
      reads this
    {
      Distinct(subs)
    }

    constructor()
      ensures Valid() && subs == []
    {
      subs := [];
    }

    /** `subscribe(fn)`: `fn` joins the set, at the end if it was not already there. */
    method Subscribe(fn: Subscriber)
      requires Valid()
      modifies this
      ensures Valid()
      ensures subs == if fn in old(subs) then old(subs) else old(subs) + [fn]
    {
      if fn !in subs {
        forall i, j | 0 <= i < j < |subs + [fn]| ensures (subs + [fn])[i] != (subs + [fn])[j] {
          if j == |subs| {
            assert (subs + [fn])[i] == subs[i];
          }
        }
        subs := subs + [fn];
      }
    }

    /** The function `subscribe` returns: `fn` leaves the set, the others keep their order. */
    method Unsubscribe(fn: Subscriber)
      requires Valid()
      modifies this
      ensures Valid()
      ensures subs == Remove(old(subs), fn)
    {
      RemoveDistinct(subs, fn);
      subs := Remove(subs, fn);
    }

    /** The `hashchange` listener: every current subscriber is called with the new route, in order. */
    method HashChange(hash: string) returns (calls: seq<Delivery>)
      ensures |calls| == |subs|
      ensures forall i :: 0 <= i < |subs| ==> calls[i] == Delivery(subs[i], Get(hash))
    {
      var route := Get(hash);
      calls := [];
      for i := 0 to |subs|
        invariant |calls| == i
        invariant forall j :: 0 <= j < i ==> calls[j] == Delivery(subs[j], route)
      {
        calls := calls + [Delivery(subs[i], route)];
      }
    }
  }
}
