/**
 * The string operations of JavaScript that the components use, restricted to what they need:
 * ASCII whitespace and case mapping, `split`, `join`, `includes`, `lastIndexOf`,
 * `substring`, and the truthiness of optional strings (`x || ''`, template literals of
 * possibly-undefined values).
 */
module Strings {
  import opened Wrappers

  // ---------------------------------------------------------------------------------------
  // Characters

  /** The ASCII members of JavaScript's `\s` class. */
  predicate IsWs(c: char) {
    c == ' ' || c == '\t' || c == '\n' || c == '\r' || c == '\U{000B}' || c == '\U{000C}'
  }

  /** The single space, the separator of `split(' ')`. */
  predicate IsSpace(c: char) { c == ' ' }

  predicate AllWs(s: string) {
    forall i :: 0 <= i < |s| ==> IsWs(s[i])
  }

  predicate IsDigit(c: char) { '0' <= c <= '9' }

  /** `toLowerCase` on one character, ASCII only. */
  function LowerChar(c: char): (r: char)
    ensures !('A' <= r <= 'Z')
    ensures IsWs(r) <==> IsWs(c)
    ensures IsDigit(r) <==> IsDigit(c)
  {
    if 'A' <= c <= 'Z' then (c as int + 32) as char else c
  }

  /** `toUpperCase` on one character, ASCII only. */
  function UpperChar(c: char): (r: char)
    ensures !('a' <= r <= 'z')
    ensures IsWs(r) <==> IsWs(c)
    ensures LowerChar(r) == LowerChar(c)
  {
    if 'a' <= c <= 'z' then (c as int - 32) as char else c
  }

  function Lower(s: string): (r: string)
    ensures |r| == |s|
    ensures forall i :: 0 <= i < |s| ==> r[i] == LowerChar(s[i])
  {
    seq(|s|, i requires 0 <= i < |s| => LowerChar(s[i]))
  }

  function Upper(s: string): (r: string)
    ensures |r| == |s|
    ensures forall i :: 0 <= i < |s| ==> r[i] == UpperChar(s[i])
  {
    seq(|s|, i requires 0 <= i < |s| => UpperChar(s[i]))
  }

  /** Lower-casing forgets the case the text was written in. */
  lemma LowerOfUpper(s: string)
    ensures Lower(Upper(s)) == Lower(s)
  {
  }

  // ---------------------------------------------------------------------------------------
  // Searching

  predicate StartsWith(s: string, prefix: string) {
    |prefix| <= |s| && s[..|prefix|] == prefix
  }

  /** `s.includes(sub)`, as a left-to-right search. */
  predicate Contains(s: string, sub: string)
    decreases |s|
  {
    StartsWith(s, sub) || (|s| > 0 && Contains(s[1..], sub))
  }

  predicate OccursAt(s: string, sub: string, i: int) {
    0 <= i && i + |sub| <= |s| && s[i..i + |sub|] == sub
  }

  /** The search finds `sub` exactly when it occurs somewhere in `s`. */
  lemma {:induction false} ContainsIffOccurs(s: string, sub: string)
    ensures Contains(s, sub) <==> exists i :: OccursAt(s, sub, i)
    decreases |s|
  {
    if StartsWith(s, sub) {
      assert OccursAt(s, sub, 0);
    } else if |s| > 0 {
      ContainsIffOccurs(s[1..], sub);
      if Contains(s[1..], sub) {
        var i :| OccursAt(s[1..], sub, i);
        assert s[1..][i..i + |sub|] == s[i + 1..i + 1 + |sub|];
        assert OccursAt(s, sub, i + 1);
      } else {
        forall i | 0 <= i ensures !OccursAt(s, sub, i) {
          if i == 0 && |sub| <= |s| {
            assert s[..|sub|] == s[0..0 + |sub|];
          } else if i > 0 && i + |sub| <= |s| {
            assert s[1..][i - 1..i - 1 + |sub|] == s[i..i + |sub|];
            assert !OccursAt(s[1..], sub, i - 1);
          }
        }
      }
    }
  }

  /** `s.lastIndexOf(c)`: the last position holding `c`, or -1. */
  function LastIndexOf(s: string, c: char): (r: int)
    ensures -1 <= r < |s|
    ensures r >= 0 ==> s[r] == c
    ensures forall j :: r < j < |s| ==> s[j] != c
  {
    if s == [] then -1
    else if s[|s| - 1] == c then |s| - 1
    else LastIndexOf(s[..|s| - 1], c)
  }

  /** `s.substring(start, end)`: both ends are clamped into 0..|s| and swapped when reversed. */
  function Substring(s: string, start: int, end: int): (r: string)
    ensures |r| <= |s|
  {
    var a := if start < 0 then 0 else if start > |s| then |s| else start;
    var b := if end < 0 then 0 else if end > |s| then |s| else end;
    if a <= b then s[a..b] else s[b..a]
  }

  /** `s.slice(0, n)` for n >= 0: the first n characters, or all of them. */
  function Take(s: string, n: nat): (r: string)
    ensures |r| == if |s| < n then |s| else n
    ensures r == s[..|r|]
  {
    if |s| <= n then s else s[..n]
  }

  // ---------------------------------------------------------------------------------------
  // Whitespace: `trim()` and `replace(/\s+/g, ' ')`

  function TrimStart(s: string): (r: string)
    ensures |r| <= |s| && r == s[|s| - |r|..]
    ensures AllWs(s[..|s| - |r|])
    ensures |r| > 0 ==> !IsWs(r[0])
  {
    if |s| > 0 && IsWs(s[0]) then TrimStart(s[1..]) else s
  }

  function TrimEnd(s: string): (r: string)
    ensures |r| <= |s| && r == s[..|r|]
    ensures AllWs(s[|r|..])
    ensures |r| > 0 ==> !IsWs(r[|r| - 1])
  {
    if |s| > 0 && IsWs(s[|s| - 1]) then TrimEnd(s[..|s| - 1]) else s
  }

  function Trim(s: string): string {
    TrimEnd(TrimStart(s))
  }

  /** Every maximal run of whitespace becomes one space. */
  function SquashWs(s: string): string
    decreases |s|
  {
    if s == [] then []
    else if IsWs(s[0]) then [' '] + SquashWs(TrimStart(s))
    else [s[0]] + SquashWs(s[1..])
  }

  /** `s.trim().replace(/\s+/g, ' ')`. */
  function Collapse(s: string): string {
    SquashWs(Trim(s))
  }

  /** No two adjacent whitespace characters, and the only whitespace is the space. */
  predicate WsNormal(s: string) {
    && (forall i :: 0 <= i < |s| && IsWs(s[i]) ==> s[i] == ' ')
    && (forall i :: 0 <= i < |s| - 1 ==> !(IsWs(s[i]) && IsWs(s[i + 1])))
  }

  /** The characters of `s` that are not whitespace, in order. */
  function Visible(s: string): string {
    if s == [] then [] else (if IsWs(s[0]) then [] else [s[0]]) + Visible(s[1..])
  }

  lemma {:induction false} VisibleAppend(a: string, b: string)
    ensures Visible(a + b) == Visible(a) + Visible(b)
  {
    if a != [] {
      assert (a + b)[0] == a[0];
      assert (a + b)[1..] == a[1..] + b;
      VisibleAppend(a[1..], b);
      var h := if IsWs(a[0]) then [] else [a[0]];
      assert Visible(a + b) == h + Visible(a[1..] + b);
      assert Visible(a) == h + Visible(a[1..]);
    } else {
      assert a + b == b;
    }
  }

  lemma {:induction false} VisibleOfWs(s: string)
    requires AllWs(s)
    ensures Visible(s) == []
  {
    if s != [] {
      VisibleOfWs(s[1..]);
    }
  }

  /** Squashing keeps the first and last character's kind, and empties only the empty string. */
  lemma {:induction false} SquashEnds(s: string)
    ensures |SquashWs(s)| == 0 <==> |s| == 0
    ensures |s| > 0 && !IsWs(s[0]) ==> SquashWs(s)[0] == s[0]
    ensures |s| > 0 && !IsWs(s[|s| - 1]) ==> SquashWs(s)[|SquashWs(s)| - 1] == s[|s| - 1]
    decreases |s|
  {
    if s == [] {
    } else if IsWs(s[0]) {
      var t := TrimStart(s);
      var q := SquashWs(t);
      assert SquashWs(s) == [' '] + q;
      SquashEnds(t);
      if !IsWs(s[|s| - 1]) {
        assert |t| > 0 && t[|t| - 1] == s[|s| - 1];
        assert SquashWs(s)[|SquashWs(s)| - 1] == q[|q| - 1];
      }
    } else {
      var q := SquashWs(s[1..]);
      assert SquashWs(s) == [s[0]] + q;
      SquashEnds(s[1..]);
      if |s| > 1 {
        assert s[1..][|s| - 2] == s[|s| - 1];
      }
    }
  }

  lemma NormalCons(c: char, x: string)
    requires WsNormal(x)
    requires IsWs(c) ==> c == ' '
    requires IsWs(c) && |x| > 0 ==> !IsWs(x[0])
    ensures WsNormal([c] + x)
  {
    var r := [c] + x;
    forall i | 0 <= i < |r| - 1 ensures !(IsWs(r[i]) && IsWs(r[i + 1])) {
      if i > 0 { assert r[i] == x[i - 1] && r[i + 1] == x[i]; }
    }
    forall i | 0 <= i < |r| && IsWs(r[i]) ensures r[i] == ' ' {
      if i > 0 { assert r[i] == x[i - 1]; }
    }
  }

  lemma {:induction false} SquashIsNormal(s: string)
    ensures WsNormal(SquashWs(s))
    decreases |s|
  {
    if s == [] {
    } else if IsWs(s[0]) {
      var t := TrimStart(s);
      SquashIsNormal(t);
      SquashEnds(t);
      NormalCons(' ', SquashWs(t));
    } else {
      SquashIsNormal(s[1..]);
      NormalCons(s[0], SquashWs(s[1..]));
    }
  }

  lemma {:induction false} SquashKeepsVisible(s: string)
    ensures Visible(SquashWs(s)) == Visible(s)
    decreases |s|
  {
    if s == [] {
    } else if IsWs(s[0]) {
      var t := TrimStart(s);
      SquashKeepsVisible(t);
      assert s == s[..|s| - |t|] + t;
      VisibleAppend(s[..|s| - |t|], t);
      VisibleOfWs(s[..|s| - |t|]);
      VisibleAppend([' '], SquashWs(t));
    } else {
      SquashKeepsVisible(s[1..]);
      VisibleAppend([s[0]], SquashWs(s[1..]));
      assert s == [s[0]] + s[1..];
      VisibleAppend([s[0]], s[1..]);
    }
  }

  lemma TrimStartSpec(s: string)
    ensures Visible(TrimStart(s)) == Visible(s)
    ensures TrimStart(s) == [] <==> AllWs(s)
  {
    var a := TrimStart(s);
    assert s == s[..|s| - |a|] + a;
    VisibleAppend(s[..|s| - |a|], a);
    VisibleOfWs(s[..|s| - |a|]);
    if !AllWs(s) {
      var i :| 0 <= i < |s| && !IsWs(s[i]);
      assert i >= |s| - |a|;
    }
  }

  lemma TrimEndVisible(a: string)
    ensures Visible(TrimEnd(a)) == Visible(a)
  {
    var t := TrimEnd(a);
    assert a == t + a[|t|..];
    VisibleAppend(t, a[|t|..]);
    VisibleOfWs(a[|t|..]);
  }

  lemma TrimEndSpec(a: string)
    ensures Visible(TrimEnd(a)) == Visible(a)
    ensures TrimEnd(a) == [] <==> AllWs(a)
    ensures |TrimEnd(a)| > 0 ==> TrimEnd(a)[0] == a[0]
  {
    TrimEndVisible(a);
    var t := TrimEnd(a);
    if t != [] {
      assert a[|t| - 1] == t[|t| - 1];
      assert !IsWs(a[|t| - 1]);
    } else {
      assert a[|t|..] == a;
    }
  }

  /** Trimming keeps the visible characters, and empties exactly the all-whitespace strings. */
  lemma TrimSpec(s: string)
    ensures Visible(Trim(s)) == Visible(s)
    ensures Trim(s) == [] <==> AllWs(s)
    ensures |Trim(s)| > 0 ==> !IsWs(Trim(s)[0]) && !IsWs(Trim(s)[|Trim(s)| - 1])
  {
    TrimStartSpec(s);
    TrimEndSpec(TrimStart(s));
  }

  // ---------------------------------------------------------------------------------------
  // `split` and `join`

  /**
   * `s.split(sep)` where `sep` matches single characters (a one-character string, or a
   * character class): the pieces between separators, with empty pieces kept.
   */
  function Split(s: string, isSep: char -> bool): (r: seq<string>)
    ensures |r| >= 1
    ensures forall i, j :: 0 <= i < |r| && 0 <= j < |r[i]| ==> !isSep(r[i][j])
    decreases |s|
  {
    if s == [] then [[]]
    else
      var rest := Split(s[1..], isSep);
      if isSep(s[0]) then [[]] + rest
      else [[s[0]] + rest[0]] + rest[1..]
  }

  /** `parts.join(sep)`. */
  function Join(parts: seq<string>, sep: char): string {
    if |parts| == 0 then []
    else if |parts| == 1 then parts[0]
    else parts[0] + [sep] + Join(parts[1..], sep)
  }

  predicate NoSep(s: string, isSep: char -> bool) {
    forall j :: 0 <= j < |s| ==> !isSep(s[j])
  }

  lemma {:induction false} SplitAfterPiece(a: string, t: string, isSep: char -> bool)
    requires NoSep(a, isSep)
    ensures Split(a + t, isSep) == [a + Split(t, isSep)[0]] + Split(t, isSep)[1..]
    decreases |a|
  {
    if a != [] {
      var st := Split(t, isSep);
      assert (a + t)[0] == a[0];
      assert (a + t)[1..] == a[1..] + t;
      SplitAfterPiece(a[1..], t, isSep);
      var rest := Split(a[1..] + t, isSep);
      assert rest == [a[1..] + st[0]] + st[1..];
      assert Split(a + t, isSep) == [[a[0]] + rest[0]] + rest[1..];
      assert [a[0]] + (a[1..] + st[0]) == a + st[0];
    } else {
      var st := Split(t, isSep);
      assert a + t == t;
      assert a + st[0] == st[0];
      assert st == [st[0]] + st[1..];
    }
  }

  /**
   * The first piece is the longest prefix without a separator; when it stops short of the
   * end, a separator follows it and the other pieces are those of the text after it.
   */
  lemma {:induction false} SplitFirstPiece(s: string, isSep: char -> bool)
    ensures var p := Split(s, isSep)[0];
      && |p| <= |s| && p == s[..|p|]
      && (|p| < |s| ==> isSep(s[|p|]) && Split(s, isSep) == [p] + Split(s[|p| + 1..], isSep))
    decreases |s|
  {
    if s != [] {
      var rest := Split(s[1..], isSep);
      SplitFirstPiece(s[1..], isSep);
      if !isSep(s[0]) {
        var q := rest[0];
        assert s[1..][..|q|] == s[1..|q| + 1];
        assert [s[0]] + s[1..|q| + 1] == s[..|q| + 1];
        if |q| < |s[1..]| {
          assert s[1..][|q| + 1..] == s[|q| + 2..];
          assert rest[1..] == Split(s[|q| + 2..], isSep);
        }
      } else {
        assert s[1..] == s[0 + 1..];
      }
    }
  }

  lemma SplitAtSep(t: string, sep: char, isSep: char -> bool)
    requires isSep(sep)
    ensures Split([sep] + t, isSep) == [[]] + Split(t, isSep)
  {
    assert ([sep] + t)[0] == sep;
    assert ([sep] + t)[1..] == t;
  }

  /** Joining pieces that hold no separator and splitting again gives the pieces back. */
  lemma {:induction false} SplitJoin(parts: seq<string>, sep: char, isSep: char -> bool)
    requires |parts| >= 1
    requires isSep(sep)
    requires forall i :: 0 <= i < |parts| ==> NoSep(parts[i], isSep)
    ensures Split(Join(parts, sep), isSep) == parts
  {
    if |parts| == 1 {
      SplitAfterPiece(parts[0], [], isSep);
      assert parts[0] + [] == parts[0];
    } else {
      var rest := Join(parts[1..], sep);
      SplitJoin(parts[1..], sep, isSep);
      assert Join(parts, sep) == parts[0] + ([sep] + rest);
      SplitAfterPiece(parts[0], [sep] + rest, isSep);
      SplitAtSep(rest, sep, isSep);
      assert parts[0] + [] == parts[0];
      assert parts == [parts[0]] + parts[1..];
    }
  }

  /** Splitting text with no separator gives one piece; text with one gives several. */
  lemma {:induction false} SplitCount(s: string, isSep: char -> bool)
    ensures NoSep(s, isSep) ==> Split(s, isSep) == [s]
    ensures !NoSep(s, isSep) ==> |Split(s, isSep)| >= 2
    decreases |s|
  {
    if s != [] {
      SplitCount(s[1..], isSep);
      if !isSep(s[0]) && NoSep(s, isSep) {
        assert NoSep(s[1..], isSep);
        assert [s[0]] + s[1..] == s;
      }
      if !isSep(s[0]) && !NoSep(s, isSep) {
        assert !NoSep(s[1..], isSep);
      }
    }
  }

  /** Past a first character, text that still holds a separator keeps its last piece. */
  lemma LastPieceTail(s: string, isSep: char -> bool)
    requires s != [] && !NoSep(s[1..], isSep)
    ensures var r := Split(s, isSep); var q := Split(s[1..], isSep);
      r[|r| - 1] == q[|q| - 1]
  {
    SplitCount(s[1..], isSep);
  }

  /** Whatever precedes a separator, the last piece is the last piece of the text after it. */
  lemma {:induction false} LastPieceAfterSep(a: string, sep: char, b: string, isSep: char -> bool)
    requires isSep(sep)
    ensures var r := Split(a + ([sep] + b), isSep); var q := Split(b, isSep);
      r[|r| - 1] == q[|q| - 1]
    decreases |a|
  {
    if a == [] {
      assert a + ([sep] + b) == [sep] + b;
      SplitAtSep(b, sep, isSep);
    } else {
      var s := a + ([sep] + b);
      TailHoldsSep(a, sep, b, isSep);
      LastPieceTail(s, isSep);
      LastPieceAfterSep(a[1..], sep, b, isSep);
    }
  }

  lemma TailHoldsSep(a: string, sep: char, b: string, isSep: char -> bool)
    requires a != [] && isSep(sep)
    ensures (a + ([sep] + b))[1..] == a[1..] + ([sep] + b)
    ensures !NoSep(a[1..] + ([sep] + b), isSep)
  {
    assert (a[1..] + ([sep] + b))[|a| - 1] == sep;
  }

  /** The last piece of a split on one character is the text after that character's last occurrence. */
  lemma LastPieceAfterLastIndex(s: string, c: char, isSep: char -> bool)
    requires forall x :: isSep(x) <==> x == c
    ensures var r := Split(s, isSep); r[|r| - 1] == s[LastIndexOf(s, c) + 1..]
  {
    var k := LastIndexOf(s, c);
    var b := s[k + 1..];
    assert NoSep(b, isSep) by {
      forall j | 0 <= j < |b| ensures !isSep(b[j]) {
        assert b[j] == s[k + 1 + j];
      }
    }
    SplitCount(b, isSep);
    if k < 0 {
      assert b == s;
    } else {
      assert s == s[..k] + ([c] + b);
      LastPieceAfterSep(s[..k], c, b, isSep);
    }
  }

  /** A position holding `c` with no later `c` is what `LastIndexOf` finds. */
  lemma LastIndexUnique(s: string, c: char, k: int)
    requires 0 <= k < |s| && s[k] == c
    requires forall j :: k < j < |s| ==> s[j] != c
    ensures LastIndexOf(s, c) == k
  {
    var r := LastIndexOf(s, c);
    assert r >= k;
    assert !(r > k);
  }

  // ---------------------------------------------------------------------------------------
  // Words, and what `trim().replace(/\s+/g, ' ')` makes of them

  /** The pieces that are not empty, in order. */
  function NonEmpty(ps: seq<string>): seq<string> {
    if ps == [] then [] else (if ps[0] == [] then [] else [ps[0]]) + NonEmpty(ps[1..])
  }

  /** The words of `s`: the non-empty pieces between whitespace characters, in order. */
  function Words(s: string): seq<string> {
    NonEmpty(Split(s, IsWs))
  }

  lemma {:induction false} NonEmptyKeeps(ps: seq<string>, isSep: char -> bool)
    requires forall i :: 0 <= i < |ps| ==> NoSep(ps[i], isSep)
    ensures forall i :: 0 <= i < |NonEmpty(ps)| ==> NonEmpty(ps)[i] != [] && NoSep(NonEmpty(ps)[i], isSep)
  {
    if ps != [] {
      NonEmptyKeeps(ps[1..], isSep);
    }
  }

  /** Every word is non-empty and holds no whitespace. */
  lemma WordsShape(s: string)
    ensures forall i :: 0 <= i < |Words(s)| ==> Words(s)[i] != [] && NoSep(Words(s)[i], IsWs)
  {
    var ps := Split(s, IsWs);
    assert forall i :: 0 <= i < |ps| ==> NoSep(ps[i], IsWs);
    NonEmptyKeeps(ps, IsWs);
  }

  lemma NoWords()
    ensures Words([]) == []
  {
    assert Split([], IsWs) == [[]];
    assert NonEmpty([[]]) == [] + NonEmpty([]);
  }

  lemma WordsOfWsCons(s: string)
    requires |s| > 0 && IsWs(s[0])
    ensures Words(s) == Words(s[1..])
  {
    assert Split(s, IsWs) == [[]] + Split(s[1..], IsWs);
    assert ([[]] + Split(s[1..], IsWs))[1..] == Split(s[1..], IsWs);
  }

  lemma {:induction false} WordsOfWsPrefix(e: string, y: string)
    requires AllWs(e)
    ensures Words(e + y) == Words(y)
    decreases |e|
  {
    if e == [] {
      assert e + y == y;
    } else {
      WordsOfWsCons(e + y);
      assert (e + y)[1..] == e[1..] + y;
      WordsOfWsPrefix(e[1..], y);
    }
  }

  /** A word followed by the end or by whitespace is the first word. */
  lemma WordsAfterWord(w: string, r: string)
    requires w != [] && NoSep(w, IsWs)
    requires r == [] || IsWs(r[0])
    ensures Words(w + r) == [w] + Words(r)
  {
    SplitAfterPiece(w, r, IsWs);
    var st := Split(r, IsWs);
    if r == [] {
      assert w + st[0] == w;
      assert NonEmpty(st) == [];
    } else {
      assert st == [[]] + Split(r[1..], IsWs);
      assert w + st[0] == w;
      WordsOfWsCons(r);
    }
    var ps := [w] + st[1..];
    assert Split(w + r, IsWs) == ps && ps[1..] == st[1..];
    assert NonEmpty(st) == NonEmpty(st[1..]) by {
      if r != [] { assert st[0] == []; }
    }
  }

  /** The first piece of text that starts with a visible character is a word. */
  lemma FirstWord(x: string) returns (p: string)
    requires |x| > 0 && !IsWs(x[0])
    ensures p != [] && NoSep(p, IsWs) && |p| <= |x| && x == p + x[|p|..]
    ensures |p| < |x| ==> IsWs(x[|p|])
  {
    p := Split(x, IsWs)[0];
    SplitFirstPiece(x, IsWs);
    assert Split(x, IsWs)[0] == [x[0]] + Split(x[1..], IsWs)[0];
  }

  lemma {:induction false} WordsOfWsSuffix(u: string, e: string)
    requires AllWs(e)
    ensures Words(u + e) == Words(u)
    decreases |u|
  {
    if u == [] {
      assert u + e == e && e + [] == e;
      WordsOfWsPrefix(e, []);
      NoWords();
    } else if IsWs(u[0]) {
      WordsOfWsSuffix(u[1..], e);
      WordsSuffixWs(u, e);
    } else {
      var p := FirstWord(u);
      var r := u[|p|..];
      WordsOfWsSuffix(r, e);
      WordsSuffixStep(p, r, e);
    }
  }

  lemma WordsSuffixWs(u: string, e: string)
    requires |u| > 0 && IsWs(u[0])
    requires Words(u[1..] + e) == Words(u[1..])
    ensures Words(u + e) == Words(u)
  {
    WordsOfWsCons(u + e);
    WordsOfWsCons(u);
    assert (u + e)[1..] == u[1..] + e;
  }

  lemma WordsSuffixStep(p: string, r: string, e: string)
    requires p != [] && NoSep(p, IsWs) && (r == [] || IsWs(r[0])) && AllWs(e)
    requires Words(r + e) == Words(r)
    ensures Words(p + r + e) == Words(p + r)
  {
    assert p + r + e == p + (r + e);
    if r == [] {
      assert r + e == e;
    }
    WordsAfterWord(p, r + e);
    WordsAfterWord(p, r);
  }

  lemma {:induction false} SquashAfterWord(w: string, r: string)
    requires NoSep(w, IsWs)
    ensures SquashWs(w + r) == w + SquashWs(r)
    decreases |w|
  {
    if w != [] {
      assert (w + r)[0] == w[0];
      assert (w + r)[1..] == w[1..] + r;
      SquashAfterWord(w[1..], r);
      assert w == [w[0]] + w[1..];
    } else {
      assert w + r == r;
    }
  }

  lemma JoinCons(a: string, ps: seq<string>, sep: char)
    requires ps != []
    ensures Join([a] + ps, sep) == a + [sep] + Join(ps, sep)
  {
    assert ([a] + ps)[1..] == ps;
  }

  /** After the first word, the rest starts with whitespace and squashes to one space and the rest's words. */
  lemma AfterFirstWord(x: string, p: string, r: string) returns (y: string)
    requires |x| > 0 && !IsWs(x[0]) && !IsWs(x[|x| - 1])
    requires p != [] && x == p + r && r != [] && IsWs(r[0])
    ensures y != [] && |y| < |x| && !IsWs(y[0]) && !IsWs(y[|y| - 1])
    ensures SquashWs(r) == [' '] + SquashWs(y) && Words(r) == Words(y) && SquashWs(y) != []
  {
    assert r[|r| - 1] == x[|x| - 1];
    y := TrimStart(r);
    TrimStartSpec(r);
    assert y[|y| - 1] == r[|r| - 1];
    assert r == r[..|r| - |y|] + y;
    WordsOfWsPrefix(r[..|r| - |y|], y);
    SquashEnds(y);
  }

  lemma SquashJoinedStep(p: string, r: string, y: string)
    requires p != [] && NoSep(p, IsWs) && r != [] && IsWs(r[0])
    requires SquashWs(r) == [' '] + SquashWs(y) && Words(r) == Words(y) && SquashWs(y) != []
    requires SquashWs(y) == Join(Words(y), ' ')
    ensures SquashWs(p + r) == Join(Words(p + r), ' ')
  {
    SquashAfterWord(p, r);
    WordsAfterWord(p, r);
    var w := Words(y);
    JoinedNonEmpty(w, ' ');
    JoinAfterWord(p, w, SquashWs(r));
  }

  lemma JoinAfterWord(p: string, w: seq<string>, tail: string)
    requires w != [] && tail == [' '] + Join(w, ' ')
    ensures p + tail == Join([p] + w, ' ')
  {
    JoinCons(p, w, ' ');
    assert p + ([' '] + Join(w, ' ')) == p + [' '] + Join(w, ' ');
  }

  lemma JoinedNonEmpty(ps: seq<string>, sep: char)
    requires Join(ps, sep) != []
    ensures ps != []
  {
  }

  lemma SquashOneWord(p: string)
    requires p != [] && NoSep(p, IsWs)
    ensures SquashWs(p) == Join(Words(p), ' ')
  {
    SquashAfterWord(p, []);
    WordsAfterWord(p, []);
    NoWords();
    assert p + [] == p;
  }

  /** Text with no whitespace at either end squashes to its words, one space between each two. */
  lemma {:induction false} SquashIsWordsJoined(x: string)
    requires |x| > 0 ==> !IsWs(x[0]) && !IsWs(x[|x| - 1])
    ensures SquashWs(x) == Join(Words(x), ' ')
    decreases |x|
  {
    if x == [] {
      NoWords();
    } else {
      var p := FirstWord(x);
      var r := x[|p|..];
      if r == [] {
        assert x == p;
        SquashOneWord(p);
      } else {
        var y := AfterFirstWord(x, p, r);
        SquashIsWordsJoined(y);
        SquashJoinedStep(p, r, y);
      }
    }
  }

  /** Whitespace at either end changes no word. */
  lemma WordsOfTrim(s: string)
    ensures Words(Trim(s)) == Words(s)
  {
    WordsOfTrimStart(s);
    WordsOfTrimEnd(TrimStart(s));
  }

  lemma WordsOfTrimStart(s: string)
    ensures Words(TrimStart(s)) == Words(s)
  {
    var a := TrimStart(s);
    var e := s[..|s| - |a|];
    assert s == e + a;
    WordsOfWsPrefix(e, a);
  }

  lemma WordsOfTrimEnd(a: string)
    ensures Words(TrimEnd(a)) == Words(a)
  {
    var t := TrimEnd(a);
    var e := a[|t|..];
    assert a == t + e;
    WordsOfWsSuffix(t, e);
  }

  /** `trim().replace(/\s+/g, ' ')` is the words of the text with one space between each two. */
  lemma CollapseIsWordsJoined(s: string)
    ensures Collapse(s) == Join(Words(s), ' ')
  {
    TrimSpec(s);
    SquashIsWordsJoined(Trim(s));
    WordsOfTrim(s);
  }

  /** Collapsed text has single spaces only, none at the ends, the same visible characters, and is empty iff blank. */
  lemma CollapseNormal(s: string)
    ensures WsNormal(Collapse(s))
    ensures |Collapse(s)| > 0 ==> !IsWs(Collapse(s)[0]) && !IsWs(Collapse(s)[|Collapse(s)| - 1])
    ensures Visible(Collapse(s)) == Visible(s)
    ensures Collapse(s) == [] <==> AllWs(s)
  {
    var t := Trim(s);
    TrimSpec(s);
    SquashIsNormal(t);
    SquashKeepsVisible(t);
    SquashEnds(t);
  }

  /**
   * What `trim().replace(/\s+/g, ' ')` promises: the words of the text, in order, with one
   * space between each two and none at either end; so it keeps every visible character,
   * leaves whitespace-normal text, is empty exactly when the input is all whitespace, and
   * splits on whitespace back into the words.
   */
  lemma CollapseSpec(s: string)
    ensures Collapse(s) == Join(Words(s), ' ')
    ensures Words(s) != [] ==> Split(Collapse(s), IsWs) == Words(s)
    ensures WsNormal(Collapse(s))
    ensures |Collapse(s)| > 0 ==> !IsWs(Collapse(s)[0]) && !IsWs(Collapse(s)[|Collapse(s)| - 1])
    ensures Visible(Collapse(s)) == Visible(s)
    ensures Collapse(s) == [] <==> AllWs(s)
  {
    CollapseNormal(s);
    CollapseIsWordsJoined(s);
    if Words(s) != [] {
      WordsShape(s);
      SplitJoin(Words(s), ' ', IsWs);
    }
  }

  // ---------------------------------------------------------------------------------------
  // Truthiness and template literals

  /** A string value is truthy when present and non-empty. */
  predicate Truthy(o: Option<string>) {
    o.Some? && o.value != []
  }

  /** `o || ''`. */
  function OrEmpty(o: Option<string>): (r: string)
    ensures Truthy(o) ==> r == o.value
    ensures !Truthy(o) ==> r == []
  {
    if Truthy(o) then o.value else []
  }

  /** `o || d`. */
  function OrElse(o: Option<string>, d: string): (r: string)
    ensures Truthy(o) ==> r == o.value
    ensures !Truthy(o) ==> r == d
  {
    if Truthy(o) then o.value else d
  }

  /** `${o}`: a missing value prints as `undefined`. */
  function Interp(o: Option<string>): string {
    match o
    case Some(s) => s
    case None => "undefined"
  }

  /** The decimal text of an integer, as a template literal prints it. */
  function IntToString(n: int): (r: string)
    ensures |r| >= 1
    decreases if n < 0 then 1 - n else n
  {
    if n < 0 then "-" + IntToString(-n)
    else if n < 10 then [('0' as int + n) as char]
    else IntToString(n / 10) + [('0' as int + n % 10) as char]
  }
}
