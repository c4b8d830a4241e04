/**
 * The Exports page: a suggested title and hashtags derived from a piece of text, and the
 * greedy word wrap that lays them out on the export canvas.
 */
module Exports {
  import opened Wrappers
  import opened Strings
  import opened Sorting

  // ---------------------------------------------------------------------------------------
  // makeTitle

  const DefaultTitle: string := "New Short: Thoughts & Audio"
  const TitleMax: nat := 80

  /** The character class `[.!?\n]` that ends a sentence. */
  predicate IsSentenceEnd(c: char) {
    c == '.' || c == '!' || c == '?' || c == '\n'
  }

  /** `pieces.find(Boolean)`: the first non-empty piece, if any. */
  function FindNonEmpty(pieces: seq<string>): (r: Option<string>)
    ensures r.Some? ==> r.value != [] && r.value in pieces
    ensures r.None? <==> forall i :: 0 <= i < |pieces| ==> pieces[i] == []
  {
    if pieces == [] then None
    else if pieces[0] != [] then Some(pieces[0])
    else
      var r := FindNonEmpty(pieces[1..]);
      assert forall i :: 1 <= i < |pieces| ==> pieces[i] == pieces[1..][i - 1];
      r
  }

  /**
   * The suggested title: the text with its whitespace collapsed, cut at the first sentence
   * end, at most 80 characters, first letter upper-cased; a fixed title for blank text.
   */
  function MakeTitle(text: string): (r: string)
    ensures AllWs(text) ==> r == DefaultTitle
    ensures !AllWs(text) ==> 1 <= |r| <= TitleMax
  {
    CollapseNormal(text);
    var t := Collapse(text);
    if t == [] then DefaultTitle
    else
      var first := FindNonEmpty(Split(t, IsSentenceEnd)).GetOr(t);
      var cap := Take(first, TitleMax);
      [UpperChar(cap[0])] + cap[1..]
  }

  /**
   * `seg` is the first sentence of `t`: it starts at `i`, only sentence ends precede it, it
   * holds none, and a sentence end or the end of the text follows it.
   */
  predicate FirstSentenceAt(t: string, i: int, seg: string) {
    && 0 <= i && i + |seg| <= |t| && seg != []
    && t[i..i + |seg|] == seg
    && (forall j :: 0 <= j < i ==> IsSentenceEnd(t[j]))
    && NoSep(seg, IsSentenceEnd)
    && (i + |seg| == |t| || IsSentenceEnd(t[i + |seg|]))
  }

  lemma FirstSentenceShift(t: string, i: int, seg: string)
    requires t != [] && IsSentenceEnd(t[0])
    requires FirstSentenceAt(t[1..], i, seg)
    ensures FirstSentenceAt(t, i + 1, seg)
  {
    assert t[i + 1..i + 1 + |seg|] == t[1..][i..i + |seg|];
    assert forall j :: 1 <= j < i + 1 ==> t[j] == t[1..][j - 1];
  }

  lemma FirstSentenceHead(t: string)
    requires t != [] && !IsSentenceEnd(t[0])
    ensures var p := Split(t, IsSentenceEnd)[0];
      FindNonEmpty(Split(t, IsSentenceEnd)) == Some(p) && FirstSentenceAt(t, 0, p)
  {
    SplitFirstPiece(t, IsSentenceEnd);
    var p := Split(t, IsSentenceEnd)[0];
    assert p != [];
    assert t[0..|p|] == p;
  }

  /** The first non-empty piece of the split is the first sentence; there is none only when
      the text consists of sentence ends. */
  lemma {:induction false} FindFirstSentence(t: string)
    ensures match FindNonEmpty(Split(t, IsSentenceEnd))
      case None => forall j :: 0 <= j < |t| ==> IsSentenceEnd(t[j])
      case Some(seg) => exists i :: FirstSentenceAt(t, i, seg)
    decreases |t|
  {
    if t != [] {
      if IsSentenceEnd(t[0]) {
        var all := Split(t, IsSentenceEnd);
        var rest := Split(t[1..], IsSentenceEnd);
        FindFirstSentence(t[1..]);
        assert all == [[]] + rest;
        assert all[1..] == rest;
        assert FindNonEmpty(all) == FindNonEmpty(rest);
        match FindNonEmpty(rest)
        case None =>
          assert forall j :: 1 <= j < |t| ==> t[j] == t[1..][j - 1];
        case Some(seg) =>
          var i :| FirstSentenceAt(t[1..], i, seg);
          FirstSentenceShift(t, i, seg);
      } else {
        FirstSentenceHead(t);
      }
    }
  }

  /** The title is `seg` cut to 80 characters with its first letter upper-cased. */
  predicate TitleOf(r: string, seg: string) {
    && seg != []
    && |r| == (if |seg| < TitleMax then |seg| else TitleMax)
    && r[0] == UpperChar(seg[0])
    && r[1..] == seg[1..|r|]
  }

  /**
   * For text that is not blank, the title comes from the first sentence of the collapsed
   * text, or from the whole collapsed text when it holds nothing but sentence ends.
   */
  lemma TitleFromFirstSentence(text: string)
    requires !AllWs(text)
    ensures var t := Collapse(text);
      || (exists i, seg :: FirstSentenceAt(t, i, seg) && TitleOf(MakeTitle(text), seg))
      || ((forall j :: 0 <= j < |t| ==> IsSentenceEnd(t[j])) && TitleOf(MakeTitle(text), t))
  {
    CollapseNormal(text);
    var t := Collapse(text);
    FindFirstSentence(t);
    match FindNonEmpty(Split(t, IsSentenceEnd))
    case None =>
    case Some(seg) =>
      var i :| FirstSentenceAt(t, i, seg);
      assert TitleOf(MakeTitle(text), seg);
  }

  lemma WsNormalSlice(s: string, a: int, b: int)
    requires WsNormal(s)
    requires 0 <= a <= b <= |s|
    ensures WsNormal(s[a..b])
  {
    assert forall i :: 0 <= i < b - a ==> s[a..b][i] == s[a + i];
  }

  lemma CapitalisedNormal(cap: string)
    requires cap != [] && WsNormal(cap)
    ensures WsNormal([UpperChar(cap[0])] + cap[1..])
  {
    var r := [UpperChar(cap[0])] + cap[1..];
    assert forall k :: 1 <= k < |r| ==> r[k] == cap[k];
  }

  /** The title text before capitalisation is a stretch of the collapsed text. */
  lemma TitleSourceIsSlice(t: string) returns (a: int, b: int)
    requires t != []
    ensures 0 <= a < b <= |t|
    ensures FindNonEmpty(Split(t, IsSentenceEnd)).GetOr(t) == t[a..b]
  {
    FindFirstSentence(t);
    match FindNonEmpty(Split(t, IsSentenceEnd))
    case None =>
      a, b := 0, |t|;
    case Some(seg) =>
      var i :| FirstSentenceAt(t, i, seg);
      a, b := i, i + |seg|;
  }

  /** A title never holds two whitespace characters in a row, nor any but the space. */
  lemma TitleWsNormal(text: string)
    ensures WsNormal(MakeTitle(text))
  {
    CollapseNormal(text);
    var t := Collapse(text);
    if t != [] {
      var first := FindNonEmpty(Split(t, IsSentenceEnd)).GetOr(t);
      var cap := Take(first, TitleMax);
      assert MakeTitle(text) == [UpperChar(cap[0])] + cap[1..];
      CutSentenceNormal(t);
      CapitalisedNormal(cap);
    } else {
      assert MakeTitle(text) == DefaultTitle;
      DefaultTitleNormal();
    }
  }

  lemma DefaultTitleNormal()
    ensures WsNormal(DefaultTitle)
  {
    var d := DefaultTitle;
    assert forall i :: 0 <= i < |d| && IsWs(d[i]) ==> d[i] == ' ';
  }

  lemma CutSentenceNormal(t: string)
    requires t != [] && WsNormal(t)
    ensures var first := FindNonEmpty(Split(t, IsSentenceEnd)).GetOr(t);
      first != [] && WsNormal(Take(first, TitleMax))
  {
    var first := FindNonEmpty(Split(t, IsSentenceEnd)).GetOr(t);
    var a, b := TitleSourceIsSlice(t);
    WsNormalSlice(t, a, b);
    WsNormalSlice(first, 0, |Take(first, TitleMax)|);
  }

  // ---------------------------------------------------------------------------------------
  // makeHashtags: the words

  /** The character class `[a-z0-9]`. */
  predicate IsWordChar(c: char) {
    'a' <= c <= 'z' || '0' <= c <= '9'
  }

  predicate NotWordChar(c: char) {
    !IsWordChar(c)
  }

  /** The length of the run of word characters that starts the text. */
  function RunLen(s: string): (k: nat)
    ensures k <= |s|
    ensures NoSep(s[..k], NotWordChar)
    ensures k < |s| ==> NotWordChar(s[k])
  {
    if s == [] || NotWordChar(s[0]) then 0
    else
      var k := 1 + RunLen(s[1..]);
      assert s[..k] == [s[0]] + s[1..][..k - 1];
      k
  }

  /**
   * `s.match(/[a-z0-9]{3,}/g) || []`: the regular expression engine tries each position in
   * turn, takes the longest run of word characters there when it is at least 3 long and goes
   * on after it, and otherwise moves one character on.
   */
  function Scan(s: string): (r: seq<string>)
    ensures forall i :: 0 <= i < |r| ==> |r[i]| >= 3 && NoSep(r[i], NotWordChar)
    decreases |s|
  {
    if s == [] then []
    else
      var k := RunLen(s);
      if k >= 3 then [s[..k]] + Scan(s[k..]) else Scan(s[1..])
  }

  /** The words of `makeHashtags`: the matches in the lower-cased text. */
  function Words(text: string): seq<string> {
    Scan(Lower(text))
  }

  /** The pieces that are at least three characters long. */
  function LongPieces(ps: seq<string>): seq<string> {
    if ps == [] then [] else (if |ps[0]| >= 3 then [ps[0]] else []) + LongPieces(ps[1..])
  }

  lemma {:induction false} ScanShortRun(s: string)
    requires RunLen(s) < 3
    ensures Scan(s) == Scan(s[RunLen(s)..])
    decreases |s|
  {
    var k := RunLen(s);
    if k > 0 {
      ScanShortRun(s[1..]);
      assert s[1..][k - 1..] == s[k..];
    }
  }

  lemma RunIsFirstPiece(s: string)
    ensures Split(s, NotWordChar)[0] == s[..RunLen(s)]
  {
    SplitFirstPiece(s, NotWordChar);
  }

  /**
   * The matches are exactly the pieces between non-word characters that are at least three
   * characters long, in order.
   */
  lemma {:induction false} ScanIsLongPieces(s: string)
    ensures Scan(s) == LongPieces(Split(s, NotWordChar))
    decreases |s|
  {
    if s != [] {
      var k := RunLen(s);
      var all := Split(s, NotWordChar);
      RunIsFirstPiece(s);
      SplitFirstPiece(s, NotWordChar);
      assert all[0] == s[..k];
      if k == |s| {
        SplitCount(s, NotWordChar);
        assert all == [s];
        assert LongPieces(all) == (if |s| >= 3 then [s] else []) + LongPieces([]);
        if k < 3 {
          ScanShortRun(s);
        } else {
          assert s[..k] == s;
        }
      } else {
        var after := s[k + 1..];
        ScanIsLongPieces(after);
        assert all == [s[..k]] + Split(after, NotWordChar);
        assert LongPieces(all)
            == (if k >= 3 then [s[..k]] else []) + LongPieces(Split(after, NotWordChar));
        assert RunLen(s[k..]) == 0;
        assert s[k..][1..] == after;
        assert Scan(s[k..]) == Scan(after);
        if k < 3 {
          ScanShortRun(s);
        }
      }
    }
  }

  // ---------------------------------------------------------------------------------------
  // makeHashtags: counting

  /** The distinct elements, in order of first occurrence. */
  function Dedup(s: seq<string>): (r: seq<string>)
    ensures Distinct(r)
    ensures forall x :: x in r <==> x in s
  {
    if s == [] then []
    else
      var d := Dedup(s[..|s| - 1]);
      var last := s[|s| - 1];
      assert forall x :: x in s <==> x in s[..|s| - 1] || x == last by {
        assert s == s[..|s| - 1] + [last];
      }
      if last in d then d else d + [last]
  }

  /** The word counts of `s`, adding one word at a time. */
  function Counts(s: seq<string>): map<string, nat> {
    if s == [] then map[]
    else
      var c := Counts(s[..|s| - 1]);
      var w := s[|s| - 1];
      c[w := if w in c then c[w] + 1 else 1]
  }

  /** A word has a count exactly when it occurs, and the count is its number of occurrences. */
  lemma {:induction false} CountsAt(s: seq<string>, w: string)
    ensures w in Counts(s) <==> w in s
    ensures w in Counts(s) ==> Counts(s)[w] == multiset(s)[w]
  {
    if s != [] {
      var pre := s[..|s| - 1];
      assert s == pre + [s[|s| - 1]];
      CountsAt(pre, w);
    }
  }

  /**
   * The `freq` object after `for (const w of words) freq[w] = (freq[w]||0)+1`: its own keys
   * in the order they were created, and its values.
   */
  method CountWords(words: seq<string>) returns (keys: seq<string>, freq: map<string, nat>)
    ensures keys == Dedup(words)
    ensures forall w :: w in freq <==> w in words
    ensures forall w :: w in freq ==> freq[w] == multiset(words)[w]
  {
    keys, freq := [], map[];
    for i := 0 to |words|
      invariant keys == Dedup(words[..i])
      invariant freq == Counts(words[..i])
    {
      var w := words[i];
      var pre := words[..i];
      assert words[..i + 1][..i] == pre;
      CountsAt(pre, w);
      if w in freq {
        freq := freq[w := freq[w] + 1];
      } else {
        keys := keys + [w];
        freq := freq[w := 1];
      }
    }
    assert words[..|words|] == words;
    forall w | true
      ensures w in freq <==> w in words
      ensures w in freq ==> freq[w] == multiset(words)[w]
    {
      CountsAt(words, w);
    }
  }

  // ---------------------------------------------------------------------------------------
  // makeHashtags: Object.entries order, ranking and the tag list

  /** The numeric value of a string of decimal digits. */
  function DigitsValue(w: string): nat {
    if w == [] then 0
    else 10 * DigitsValue(w[..|w| - 1]) + ((w[|w| - 1] as int - '0' as int) % 10)
  }

  /**
   * An array index in the sense of ECMAScript: the canonical decimal text of an integer
   * below 2^32 - 1. Object.entries lists such keys first, by value.
   */
  predicate IsArrayIndex(w: string) {
    && |w| >= 1
    && (forall i :: 0 <= i < |w| ==> IsDigit(w[i]))
    && (w == "0" || w[0] != '0')
    && DigitsValue(w) < 0x1_0000_0000 - 1
  }

  function IndexValue(w: string): int {
    DigitsValue(w)
  }

  function IndexKeys(ks: seq<string>): (r: seq<string>)
    ensures forall x :: x in r ==> IsArrayIndex(x)
  {
    if ks == [] then [] else (if IsArrayIndex(ks[0]) then [ks[0]] else []) + IndexKeys(ks[1..])
  }

  function NamedKeys(ks: seq<string>): (r: seq<string>)
    ensures forall x :: x in r ==> !IsArrayIndex(x)
  {
    if ks == [] then [] else (if IsArrayIndex(ks[0]) then [] else [ks[0]]) + NamedKeys(ks[1..])
  }

  /**
   * The order in which `Object.entries` lists keys created in the order `ks`: array-index
   * keys ascending by value, then the other keys in creation order.
   */
  function PropertyOrder(ks: seq<string>): seq<string> {
    SortBy(IndexKeys(ks), IndexValue) + NamedKeys(ks)
  }

  lemma {:induction false} PartitionPerm(ks: seq<string>)
    ensures multiset(IndexKeys(ks)) + multiset(NamedKeys(ks)) == multiset(ks)
  {
    if ks != [] {
      PartitionPerm(ks[1..]);
      assert ks == [ks[0]] + ks[1..];
    }
  }

  /** Listing the keys rearranges them and loses or repeats none. */
  lemma PropertyOrderPerm(ks: seq<string>)
    ensures multiset(PropertyOrder(ks)) == multiset(ks)
    ensures |PropertyOrder(ks)| == |ks|
    ensures NamedKeys(ks) == PropertyOrder(ks)[|PropertyOrder(ks)| - |NamedKeys(ks)|..]
  {
    PartitionPerm(ks);
    assert |multiset(PropertyOrder(ks))| == |multiset(ks)|;
  }

  /** An `[word, count]` pair of `Object.entries(freq)`. */
  datatype Entry = Entry(word: string, count: nat)

  /** The entries listed in the order `ks`, with the counts of `words`. */
  function Entries(ks: seq<string>, words: seq<string>): (r: seq<Entry>)
    ensures |r| == |ks|
    ensures forall i :: 0 <= i < |ks| ==> r[i] == Entry(ks[i], multiset(words)[ks[i]])
  {
    seq(|ks|, i requires 0 <= i < |ks| => Entry(ks[i], multiset(words)[ks[i]]))
  }

  /** The sort key of the comparator `(a, b) => b[1] - a[1]`: larger counts first. */
  function ByCountDesc(e: Entry): int {
    -(e.count as int)
  }

  /** The entries of the counted words, most frequent first, ties in `Object.entries` order. */
  function Ranked(words: seq<string>): seq<Entry> {
    SortBy(Entries(PropertyOrder(Dedup(words)), words), ByCountDesc)
  }

  function FirstN<T>(s: seq<T>, n: nat): (r: seq<T>)
    ensures |r| == if |s| < n then |s| else n
    ensures r == s[..|r|]
  {
    if |s| < n then s else s[..n]
  }

  const TopCount: nat := 6
  const TagMax: nat := 10
  const BaseTags: seq<string> := ["#shorts", "#ai", "#music", "#spokenword"]

  /** The six most frequent entries. */
  function TopEntries(words: seq<string>): seq<Entry> {
    FirstN(Ranked(words), TopCount)
  }

  function Tags(es: seq<Entry>): (r: seq<string>)
    ensures |r| == |es|
    ensures forall i :: 0 <= i < |es| ==> r[i] == "#" + es[i].word
  {
    seq(|es|, i requires 0 <= i < |es| => "#" + es[i].word)
  }

  /** `base.filter(h => !top.includes(h))`. */
  function Missing(base: seq<string>, top: seq<string>): (r: seq<string>)
    ensures |r| <= |base|
    ensures forall x :: x in r <==> x in base && x !in top
  {
    if base == [] then []
    else (if base[0] in top then [] else [base[0]]) + Missing(base[1..], top)
  }

  /** The tags, before they are joined with spaces. */
  function HashtagTokens(words: seq<string>): seq<string> {
    var top := Tags(TopEntries(words));
    FirstN(top + Missing(BaseTags, top), TagMax)
  }

  /** An entry carries a counted word and its number of occurrences. */
  predicate Counted(e: Entry, words: seq<string>) {
    e.word in words && e.count == multiset(words)[e.word]
  }

  lemma EntriesCounted(ks: seq<string>, words: seq<string>)
    requires forall k :: k in ks ==> k in words
    ensures forall e :: e in multiset(Entries(ks, words)) ==> Counted(e, words)
  {
    var es := Entries(ks, words);
    forall e | e in multiset(es) ensures Counted(e, words) {
      var i :| 0 <= i < |es| && es[i] == e;
      assert ks[i] in ks;
    }
  }

  lemma EntriesComplete(ks: seq<string>, words: seq<string>, w: string)
    requires w in ks
    ensures Entry(w, multiset(words)[w]) in multiset(Entries(ks, words))
  {
    var i :| 0 <= i < |ks| && ks[i] == w;
    assert Entries(ks, words)[i] == Entry(w, multiset(words)[w]);
  }

  lemma EntriesDistinct(ks: seq<string>, words: seq<string>)
    requires Distinct(ks)
    ensures Distinct(Entries(ks, words))
  {
    var es := Entries(ks, words);
    forall i, j | 0 <= i < j < |es| ensures es[i] != es[j] {
      assert es[i].word == ks[i] && es[j].word == ks[j];
    }
  }

  /** The keys `Object.entries` lists are the counted words, each once. */
  lemma OrderedKeys(words: seq<string>)
    ensures var ks := PropertyOrder(Dedup(words));
      && |ks| == |Dedup(words)|
      && Distinct(ks)
      && (forall k :: k in ks <==> k in words)
  {
    var d := Dedup(words);
    var ks := PropertyOrder(d);
    PropertyOrderPerm(d);
    DistinctPerm(d, ks);
    forall k ensures k in ks <==> k in words {
      assert k in ks <==> k in multiset(ks);
      assert k in d <==> k in multiset(d);
    }
  }

  /** Each counted word appears once in the ranking, with its number of occurrences. */
  lemma RankedFacts(words: seq<string>)
    ensures |Ranked(words)| == |Dedup(words)|
    ensures SortedBy(Ranked(words), ByCountDesc)
    ensures forall e :: e in Ranked(words) ==> Counted(e, words)
    ensures forall w :: w in words ==> Entry(w, multiset(words)[w]) in Ranked(words)
    ensures Distinct(Ranked(words))
  {
    var ks := PropertyOrder(Dedup(words));
    var es := Entries(ks, words);
    var r := Ranked(words);
    OrderedKeys(words);
    assert multiset(r) == multiset(es);
    assert |r| == |multiset(r)| == |multiset(es)| == |es|;
    EntriesCounted(ks, words);
    forall e | e in r ensures Counted(e, words) {
      assert e in multiset(r);
    }
    forall w | w in words ensures Entry(w, multiset(words)[w]) in r {
      EntriesComplete(ks, words, w);
    }
    EntriesDistinct(ks, words);
    DistinctPerm(es, r);
  }

  /** No word is ranked twice. */
  lemma RankedWordsDistinct(words: seq<string>)
    ensures forall i, j :: 0 <= i < j < |Ranked(words)| ==> Ranked(words)[i].word != Ranked(words)[j].word
  {
    var r := Ranked(words);
    RankedFacts(words);
    forall i, j | 0 <= i < j < |r| ensures r[i].word != r[j].word {
      assert r[i] in r && r[j] in r;
    }
  }

  /** What a ranking of `words` is: every counted word once, with its count, most frequent first. */
  predicate IsRanking(r: seq<Entry>, words: seq<string>) {
    && SortedBy(r, ByCountDesc)
    && (forall e :: e in r ==> Counted(e, words))
    && (forall w :: w in words ==> Entry(w, multiset(words)[w]) in r)
    && (forall i, j :: 0 <= i < j < |r| ==> r[i].word != r[j].word)
  }

  lemma RankedIsRanking(words: seq<string>)
    ensures IsRanking(Ranked(words), words)
    ensures |Ranked(words)| == |Dedup(words)|
  {
    RankedFacts(words);
    RankedWordsDistinct(words);
  }

  /**
   * `top` lists words with their counts, each once, most frequent first, and a word it
   * leaves out occurs at most as often as every word it keeps.
   */
  predicate MostFrequentFirst(top: seq<Entry>, words: seq<string>) {
    && (forall i :: 0 <= i < |top| ==> Counted(top[i], words))
    && (forall i, j :: 0 <= i < j < |top| ==> top[i].count >= top[j].count)
    && (forall i, j :: 0 <= i < j < |top| ==> top[i].word != top[j].word)
    && (forall w :: w in words && (forall i :: 0 <= i < |top| ==> top[i].word != w) ==>
          forall i :: 0 <= i < |top| ==> multiset(words)[w] <= top[i].count)
  }

  /** A word outside the first `n` entries of a ranking occurs at most as often as each of them. */
  lemma LeftOutIsLessFrequent(r: seq<Entry>, words: seq<string>, n: nat)
    requires IsRanking(r, words)
    requires n <= |r|
    ensures var top := r[..n];
      forall w :: w in words && (forall i :: 0 <= i < |top| ==> top[i].word != w) ==>
        forall i :: 0 <= i < |top| ==> multiset(words)[w] <= top[i].count
  {
    var top := r[..n];
    forall w | w in words && (forall i :: 0 <= i < |top| ==> top[i].word != w)
      ensures forall i :: 0 <= i < |top| ==> multiset(words)[w] <= top[i].count
    {
      var e := Entry(w, multiset(words)[w]);
      assert e in r;
      var m :| 0 <= m < |r| && r[m] == e;
      assert m >= n;
      forall i | 0 <= i < |top| ensures multiset(words)[w] <= top[i].count {
        assert top[i] == r[i];
        assert ByCountDesc(r[i]) <= ByCountDesc(r[m]);
      }
    }
  }

  /** The first entries of a ranking, with the counts of their words, most frequent first. */
  lemma PrefixOfRanking(r: seq<Entry>, words: seq<string>, n: nat)
    requires IsRanking(r, words)
    requires n <= |r|
    ensures MostFrequentFirst(r[..n], words)
  {
    var top := r[..n];
    forall i | 0 <= i < n ensures Counted(top[i], words) {
      assert top[i] == r[i] && r[i] in r;
    }
    forall i, j | 0 <= i < j < n ensures top[i].count >= top[j].count && top[i].word != top[j].word {
      assert top[i] == r[i] && top[j] == r[j];
      assert ByCountDesc(r[i]) <= ByCountDesc(r[j]);
    }
    LeftOutIsLessFrequent(r, words, n);
  }

  /**
   * The top entries are the six most frequent words (fewer when there are fewer), with their
   * counts, most frequent first; a word left out occurs at most as often as every word kept.
   */
  lemma TopAreMostFrequent(words: seq<string>)
    ensures var top := TopEntries(words);
      && |top| == (if |Dedup(words)| < TopCount then |Dedup(words)| else TopCount)
      && MostFrequentFirst(top, words)
  {
    var r := Ranked(words);
    RankedIsRanking(words);
    PrefixOfRanking(r, words, |TopEntries(words)|);
  }

  /** Entries with equal counts (equal sort keys) stay in the order `Object.entries` lists them. */
  lemma TiesKeepPropertyOrder(words: seq<string>, k: int)
    ensures WithKey(Ranked(words), ByCountDesc, k)
         == WithKey(Entries(PropertyOrder(Dedup(words)), words), ByCountDesc, k)
  {
    var es := Entries(PropertyOrder(Dedup(words)), words);
    assert Ranked(words) == SortBy(es, ByCountDesc);
    SortStable(es, ByCountDesc, k);
  }

  lemma DistinctConcat(a: seq<string>, b: seq<string>)
    requires Distinct(a) && Distinct(b)
    requires forall x :: x in b ==> x !in a
    ensures Distinct(a + b)
  {
    forall i, j | 0 <= i < j < |a + b| ensures (a + b)[i] != (a + b)[j] {
      if i < |a| && j >= |a| {
        assert (a + b)[j] == b[j - |a|];
        assert (a + b)[i] in a;
      }
    }
  }

  lemma {:induction false} MissingDistinct(base: seq<string>, top: seq<string>)
    requires Distinct(base)
    ensures Distinct(Missing(base, top))
  {
    if base != [] {
      MissingDistinct(base[1..], top);
      assert base[0] !in base[1..];
      var rest := Missing(base[1..], top);
      if base[0] !in top {
        DistinctConcat([base[0]], rest);
      }
    }
  }

  lemma TagsDistinct(es: seq<Entry>)
    requires forall i, j :: 0 <= i < j < |es| ==> es[i].word != es[j].word
    ensures Distinct(Tags(es))
  {
    var t := Tags(es);
    forall i, j | 0 <= i < j < |es| ensures t[i] != t[j] {
      assert t[i][1..] == es[i].word && t[j][1..] == es[j].word;
    }
  }

  lemma BaseTagsKept(top: seq<string>)
    ensures forall b :: b in BaseTags ==> b in top + Missing(BaseTags, top)
  {
    forall b | b in BaseTags ensures b in top + Missing(BaseTags, top) {
      if b !in top {
        assert b in Missing(BaseTags, top);
      }
    }
  }

  /** A well-shaped token: `#` and then no space. */
  predicate IsTag(t: string) {
    |t| >= 1 && t[0] == '#' && NoSep(t, IsSpace)
  }

  predicate AllTags(ts: seq<string>) {
    forall i :: 0 <= i < |ts| ==> IsTag(ts[i])
  }

  /** A tag made from words of word characters starts with `#` and holds no space. */
  lemma TagsShape(es: seq<Entry>)
    requires forall i :: 0 <= i < |es| ==> NoSep(es[i].word, NotWordChar)
    ensures AllTags(Tags(es))
  {
    forall i | 0 <= i < |es| ensures IsTag(Tags(es)[i]) {
      var t := Tags(es)[i];
      assert forall j :: 1 <= j < |t| ==> t[j] == es[i].word[j - 1];
    }
  }

  lemma MissingShape(top: seq<string>)
    ensures AllTags(Missing(BaseTags, top))
  {
    var miss := Missing(BaseTags, top);
    assert AllTags(BaseTags);
    forall i | 0 <= i < |miss| ensures IsTag(miss[i]) {
      assert miss[i] in BaseTags;
    }
  }

  lemma AllTagsConcat(a: seq<string>, b: seq<string>)
    requires AllTags(a) && AllTags(b)
    ensures AllTags(a + b)
  {
    forall i | 0 <= i < |a + b| ensures IsTag((a + b)[i]) {
      if i >= |a| { assert (a + b)[i] == b[i - |a|]; }
    }
  }

  /** Six tags at most and four base tags: the cut at ten never removes anything. */
  lemma TokensUncut(es: seq<Entry>)
    requires |es| <= TopCount
    ensures var top := Tags(es);
      var tokens := FirstN(top + Missing(BaseTags, top), TagMax);
      && tokens == top + Missing(BaseTags, top)
      && 1 <= |tokens| <= TagMax
      && (forall b :: b in BaseTags ==> b in tokens)
  {
    var top := Tags(es);
    var tokens := top + Missing(BaseTags, top);
    assert FirstN(tokens, TagMax) == tokens;
    BaseTagsKept(top);
    assert "#ai" in BaseTags;
  }

  lemma TokensDistinct(es: seq<Entry>)
    requires forall i, j :: 0 <= i < j < |es| ==> es[i].word != es[j].word
    ensures var top := Tags(es); Distinct(top + Missing(BaseTags, top))
  {
    var top := Tags(es);
    TagsDistinct(es);
    assert Distinct(BaseTags);
    MissingDistinct(BaseTags, top);
    DistinctConcat(top, Missing(BaseTags, top));
  }

  /** The tag list built from at most six entries with distinct words of word characters. */
  lemma TokensOf(es: seq<Entry>)
    requires |es| <= TopCount
    requires forall i, j :: 0 <= i < j < |es| ==> es[i].word != es[j].word
    requires forall i :: 0 <= i < |es| ==> NoSep(es[i].word, NotWordChar)
    ensures var top := Tags(es);
      var tokens := FirstN(top + Missing(BaseTags, top), TagMax);
      && tokens == top + Missing(BaseTags, top)
      && 1 <= |tokens| <= TagMax
      && (forall b :: b in BaseTags ==> b in tokens)
      && Distinct(tokens)
      && AllTags(tokens)
  {
    TokensUncut(es);
    TokensDistinct(es);
    TagsShape(es);
    MissingShape(Tags(es));
    AllTagsConcat(Tags(es), Missing(BaseTags, Tags(es)));
  }

  /**
   * The hashtags of a text: the top words as tags, then every base tag not already among
   * them; at most ten, none repeated, each `#` and then no space, and `#ai` and the other
   * base tags always present.
   */
  lemma HashtagTokensFacts(text: string)
    ensures var words := Words(text);
      var tokens := HashtagTokens(words);
      var top := Tags(TopEntries(words));
      && tokens == top + Missing(BaseTags, top)
      && 1 <= |tokens| <= TagMax
      && (forall b :: b in BaseTags ==> b in tokens)
      && Distinct(tokens)
      && AllTags(tokens)
  {
    var words := Words(text);
    var es := TopEntries(words);
    TopAreMostFrequent(words);
    forall i | 0 <= i < |es| ensures NoSep(es[i].word, NotWordChar) {
      assert Counted(es[i], words);
      var k :| 0 <= k < |words| && words[k] == es[i].word;
    }
    TokensOf(es);
  }

  /** Joining the tags with spaces and splitting on spaces gives the tags back. */
  lemma HashtagsRoundTrip(text: string)
    ensures var tokens := HashtagTokens(Words(text));
      Split(Join(tokens, ' '), IsSpace) == tokens
  {
    var tokens := HashtagTokens(Words(text));
    HashtagTokensFacts(text);
    assert forall i :: 0 <= i < |tokens| ==> NoSep(tokens[i], IsSpace);
    SplitJoin(tokens, ' ', IsSpace);
  }

  /** The entries read off the counted object are those of the reference definition. */
  lemma CountedEntries(words: seq<string>, keys: seq<string>, freq: map<string, nat>)
    requires keys == Dedup(words)
    requires forall w :: w in freq <==> w in words
    requires forall w :: w in freq ==> freq[w] == multiset(words)[w]
    ensures forall k :: k in PropertyOrder(keys) ==> k in freq
    ensures var order := PropertyOrder(keys);
      seq(|order|, i requires 0 <= i < |order| && order[i] in freq => Entry(order[i], freq[order[i]]))
        == Entries(order, words)
  {
    OrderedKeys(words);
  }

  /** `makeHashtags(text)`: the tags joined with single spaces. */
  method MakeHashtags(text: string) returns (r: string)
    ensures r == Join(HashtagTokens(Words(text)), ' ')
    ensures Split(r, IsSpace) == HashtagTokens(Words(text))
  {
    var words := Words(text);
    var keys, freq := CountWords(words);
    var order := PropertyOrder(keys);
    CountedEntries(words, keys, freq);
    var entries := seq(|order|, i requires 0 <= i < |order| && order[i] in freq => Entry(order[i], freq[order[i]]));
    var top := Tags(FirstN(SortBy(entries, ByCountDesc), TopCount));
    var tokens := FirstN(top + Missing(BaseTags, top), TagMax);
    r := Join(tokens, ' ');
    HashtagsRoundTrip(text);
  }

  // ---------------------------------------------------------------------------------------
  // wrapText and the render

  /** A `ctx.fillText(text, x, y)` call. */
  datatype FillText = FillText(text: string, x: int, y: int)

  /** The words, each followed by a space. */
  function Spaced(ws: seq<string>): string {
    if ws == [] then [] else ws[0] + " " + Spaced(ws[1..])
  }

  /** The lines, one after another. */
  function Concat(lines: seq<string>): string {
    if lines == [] then [] else lines[0] + Concat(lines[1..])
  }

  /**
   * The lines the greedy wrap draws from word `n` on, the current line holding `line`: a word
   * is added to the line, unless that makes it wider than `maxWidth` and it is not the very
   * first word, in which case the line is drawn and the word starts the next one.
   */
  function WrapFrom(words: seq<string>, measure: string -> int, maxWidth: int, line: string, n: nat): (lines: seq<string>)
    requires n <= |words|
    ensures |lines| >= 1
    decreases |words| - n
  {
    if n == |words| then [line]
    else
      var test := line + words[n] + " ";
      if measure(test) > maxWidth && n > 0 then [line] + WrapFrom(words, measure, maxWidth, words[n] + " ", n + 1)
      else WrapFrom(words, measure, maxWidth, test, n + 1)
  }

  function Wrap(words: seq<string>, measure: string -> int, maxWidth: int): seq<string> {
    WrapFrom(words, measure, maxWidth, "", 0)
  }

  /** The height of line `k` of a block whose first line is at `y`, lines `h` apart. */
  function LineY(y: int, h: int, k: nat): (r: int)
    ensures r == y + k * h
  {
    if k == 0 then y else LineY(y, h, k - 1) + h
  }

  /** The `fillText` calls that draw `lines` at `x`, the first at `y`, each next one `h` lower. */
  function Lay(lines: seq<string>, x: int, y: int, h: int): (r: seq<FillText>)
    ensures |r| == |lines|
  {
    if lines == [] then []
    else Lay(lines[..|lines| - 1], x, y, h) + [FillText(lines[|lines| - 1], x, LineY(y, h, |lines| - 1))]
  }

  lemma LaySnoc(lines: seq<string>, l: string, x: int, y: int, h: int)
    ensures Lay(lines + [l], x, y, h) == Lay(lines, x, y, h) + [FillText(l, x, LineY(y, h, |lines|))]
  {
    assert (lines + [l])[..|lines|] == lines;
  }

  /** Line `k` is drawn with its own text, at `x` and `k` line heights below `y`. */
  lemma {:induction false} LayAt(lines: seq<string>, x: int, y: int, h: int)
    ensures forall k :: 0 <= k < |lines| ==> Lay(lines, x, y, h)[k] == FillText(lines[k], x, y + k * h)
  {
    if lines != [] {
      var init := lines[..|lines| - 1];
      LayAt(init, x, y, h);
      assert forall k :: 0 <= k < |init| ==> lines[k] == init[k];
    }
  }

  /** One step of the wrap: the next word either ends the current line or joins it. */
  lemma WrapStep(words: seq<string>, measure: string -> int, maxWidth: int, line: string, n: nat)
    requires n < |words|
    ensures var test := line + words[n] + " ";
      WrapFrom(words, measure, maxWidth, line, n)
      == if measure(test) > maxWidth && n > 0 then [line] + WrapFrom(words, measure, maxWidth, words[n] + " ", n + 1)
         else WrapFrom(words, measure, maxWidth, test, n + 1)
  {
  }

  /** A line break moves the current line to the lines already done. */
  lemma WrapBreakAfter(done: seq<string>, words: seq<string>, measure: string -> int, maxWidth: int, line: string, n: nat)
    requires n < |words| && n > 0 && measure(line + words[n] + " ") > maxWidth
    ensures done + WrapFrom(words, measure, maxWidth, line, n)
         == (done + [line]) + WrapFrom(words, measure, maxWidth, words[n] + " ", n + 1)
  {
    WrapStep(words, measure, maxWidth, line, n);
    var rest := WrapFrom(words, measure, maxWidth, words[n] + " ", n + 1);
    assert done + ([line] + rest) == (done + [line]) + rest;
  }

  /**
   * `wrapText(ctx, text, x, y, maxWidth, lineHeight)`: the words of `text`, split on single
   * spaces, are drawn in the lines of the greedy wrap, all at `x`, the first at `y` and each
   * next one `lineHeight` lower. `measure` stands for `ctx.measureText(s).width` in the
   * current font.
   */
  method WrapText(text: string, x: int, y: int, maxWidth: int, lineHeight: int, measure: string -> int)
    returns (drawn: seq<FillText>)
    ensures drawn == Lay(Wrap(Split(text, IsSpace), measure, maxWidth), x, y, lineHeight)
  {
    var words := Split(text, IsSpace);
    var line := "";
    var yy := y;
    drawn := [];
    ghost var done: seq<string> := [];
    var n := 0;
    while n < |words|
      invariant n <= |words|
      invariant done + WrapFrom(words, measure, maxWidth, line, n) == Wrap(words, measure, maxWidth)
      invariant drawn == Lay(done, x, y, lineHeight)
      invariant yy == LineY(y, lineHeight, |done|)
    {
      var test := line + words[n] + " ";
      var m := measure(test);
      if m > maxWidth && n > 0 {
        WrapBreakAfter(done, words, measure, maxWidth, line, n);
        LaySnoc(done, line, x, y, lineHeight);
        drawn := drawn + [FillText(line, x, yy)];
        done := done + [line];
        line := words[n] + " ";
        yy := yy + lineHeight;
      } else {
        WrapStep(words, measure, maxWidth, line, n);
        line := test;
      }
      n := n + 1;
    }
    LaySnoc(done, line, x, y, lineHeight);
    drawn := drawn + [FillText(line, x, yy)];
  }

  lemma SpacedStep(words: seq<string>, n: nat)
    requires n < |words|
    ensures Spaced(words[n..]) == words[n] + " " + Spaced(words[n + 1..])
  {
    assert words[n..][1..] == words[n + 1..];
  }

  /** No word is lost or moved: the lines, put together, are the words each followed by a space. */
  lemma {:induction false} WrapKeepsWords(words: seq<string>, measure: string -> int, maxWidth: int, line: string, n: nat)
    requires n <= |words|
    ensures Concat(WrapFrom(words, measure, maxWidth, line, n)) == line + Spaced(words[n..])
    decreases |words| - n
  {
    if n == |words| {
      assert words[n..] == [];
      assert line + [] == line;
    } else {
      SpacedStep(words, n);
      var test := line + words[n] + " ";
      if measure(test) > maxWidth && n > 0 {
        var rest := WrapFrom(words, measure, maxWidth, words[n] + " ", n + 1);
        WrapKeepsWords(words, measure, maxWidth, words[n] + " ", n + 1);
        assert ([line] + rest)[1..] == rest;
      } else {
        WrapKeepsWords(words, measure, maxWidth, test, n + 1);
      }
    }
  }

  /** A drawn line fits within the width, or holds a single word. */
  predicate GoodLine(words: seq<string>, measure: string -> int, maxWidth: int, s: string) {
    measure(s) <= maxWidth || exists i :: 0 <= i < |words| && s == words[i] + " "
  }

  lemma {:induction false} WrapLinesGood(words: seq<string>, measure: string -> int, maxWidth: int, line: string, n: nat)
    requires n <= |words|
    requires n == 0 ==> line == [] && |words| > 0
    requires n > 0 ==> GoodLine(words, measure, maxWidth, line)
    ensures var lines := WrapFrom(words, measure, maxWidth, line, n);
      forall k :: 0 <= k < |lines| ==> GoodLine(words, measure, maxWidth, lines[k])
    decreases |words| - n
  {
    if n < |words| {
      var test := line + words[n] + " ";
      if measure(test) > maxWidth && n > 0 {
        var next := words[n] + " ";
        assert GoodLine(words, measure, maxWidth, next);
        WrapLinesGood(words, measure, maxWidth, next, n + 1);
        var rest := WrapFrom(words, measure, maxWidth, next, n + 1);
        WrapStep(words, measure, maxWidth, line, n);
        var lines := [line] + rest;
        forall k | 0 <= k < |lines| ensures GoodLine(words, measure, maxWidth, lines[k]) {
          if k > 0 {
            assert lines[k] == rest[k - 1];
          }
        }
      } else {
        WrapStep(words, measure, maxWidth, line, n);
        if n == 0 {
          assert test == words[0] + " ";
        }
        assert GoodLine(words, measure, maxWidth, test);
        WrapLinesGood(words, measure, maxWidth, test, n + 1);
      }
    }
  }

  /** The first line drawn from a state begins with what the current line holds. */
  lemma {:induction false} WrapFirstLine(words: seq<string>, measure: string -> int, maxWidth: int, line: string, n: nat)
    requires n <= |words|
    ensures StartsWith(WrapFrom(words, measure, maxWidth, line, n)[0], line)
    decreases |words| - n
  {
    if n < |words| {
      var test := line + words[n] + " ";
      if !(measure(test) > maxWidth && n > 0) {
        WrapFirstLine(words, measure, maxWidth, test, n + 1);
        var first := WrapFrom(words, measure, maxWidth, test, n + 1)[0];
        assert first[..|test|] == test;
        assert test[..|line|] == line;
        assert first[..|line|] == line;
      }
    }
  }

  /** Line `a` was ended because the word that starts line `b` did not fit after it. */
  predicate EndedByOverflow(words: seq<string>, measure: string -> int, maxWidth: int, a: string, b: string) {
    exists i :: 0 <= i < |words| && StartsWith(b, words[i] + " ") && measure(a + words[i] + " ") > maxWidth
  }

  lemma {:induction false} WrapBreaksOnOverflow(words: seq<string>, measure: string -> int, maxWidth: int, line: string, n: nat)
    requires n <= |words|
    ensures var lines := WrapFrom(words, measure, maxWidth, line, n);
      forall k :: 0 <= k < |lines| - 1 ==> EndedByOverflow(words, measure, maxWidth, lines[k], lines[k + 1])
    decreases |words| - n
  {
    if n < |words| {
      var test := line + words[n] + " ";
      if measure(test) > maxWidth && n > 0 {
        var next := words[n] + " ";
        var rest := WrapFrom(words, measure, maxWidth, next, n + 1);
        WrapBreaksOnOverflow(words, measure, maxWidth, next, n + 1);
        WrapFirstLine(words, measure, maxWidth, next, n + 1);
        var lines := [line] + rest;
        assert EndedByOverflow(words, measure, maxWidth, lines[0], lines[1]);
        assert forall k :: 1 <= k < |lines| ==> lines[k] == rest[k - 1];
      } else {
        WrapStep(words, measure, maxWidth, line, n);
        WrapBreaksOnOverflow(words, measure, maxWidth, test, n + 1);
      }
    }
  }

  /**
   * What the greedy wrap promises: together the lines hold every word in order, each line
   * fits within the width or holds one word, a line ends only when the next word would
   * overflow it, and the first word never breaks: it starts the first line, so no line drawn
   * is empty.
   */
  lemma WrapSpec(words: seq<string>, measure: string -> int, maxWidth: int)
    requires |words| >= 1
    ensures var lines := Wrap(words, measure, maxWidth);
      && Concat(lines) == Spaced(words)
      && (forall k :: 0 <= k < |lines| ==> GoodLine(words, measure, maxWidth, lines[k]))
      && (forall k :: 0 <= k < |lines| - 1 ==> EndedByOverflow(words, measure, maxWidth, lines[k], lines[k + 1]))
    ensures StartsWith(Wrap(words, measure, maxWidth)[0], words[0] + " ")
    ensures forall k :: 0 <= k < |Wrap(words, measure, maxWidth)| ==> Wrap(words, measure, maxWidth)[k] != []
  {
    WrapKeepsWords(words, measure, maxWidth, "", 0);
    assert words[0..] == words;
    WrapLinesGood(words, measure, maxWidth, "", 0);
    WrapBreaksOnOverflow(words, measure, maxWidth, "", 0);
    var first := words[0] + " ";
    assert "" + words[0] + " " == first;
    assert Wrap(words, measure, maxWidth) == WrapFrom(words, measure, maxWidth, first, 1);
    WrapFirstLine(words, measure, maxWidth, first, 1);
    var lines := Wrap(words, measure, maxWidth);
    forall k | 0 <= k < |lines| ensures lines[k] != [] {
      if k > 0 {
        assert EndedByOverflow(words, measure, maxWidth, lines[k - 1], lines[k]);
      }
    }
  }

  /** The two shapes of the export image. */
  datatype Ratio = Square | Vertical

  /** A `ctx.fillRect(x, y, w, h)` call. */
  datatype Rect = Rect(x: int, y: int, w: int, h: int)

  /** What `draw()` paints: the canvas size, the accent bar, and the title and hashtag lines. */
  datatype Render = Render(width: int, height: int, background: Rect, accentBar: Rect,
                           title: seq<FillText>, tags: seq<FillText>)

  const CanvasWidth: int := 1080

  function CanvasHeight(ratio: Ratio): int {
    if ratio == Square then 1080 else 1920
  }

  /** The download name of the rendered image. */
  function ExportFileName(ratio: Ratio): (r: string)
    ensures ratio == Square ==> r == "export-square.png"
    ensures ratio == Vertical ==> r == "export-vertical.png"
  {
    if ratio == Square then "export-square.png" else "export-vertical.png"
  }

  /**
   * `draw()`: the background, a 16-pixel accent bar along the bottom, the title wrapped from
   * (80, 200) with 86-pixel lines and the hashtags wrapped from (80, H - 200) with 36-pixel
   * lines, both within 160 pixels less than the width. `measureTitle` and `measureTags` stand
   * for text measurement in the title and hashtag fonts.
   */
  method Draw(input: string, ratio: Ratio, measureTitle: string -> int, measureTags: string -> int)
    returns (r: Render)
    ensures r.width == CanvasWidth && r.height == CanvasHeight(ratio)
    ensures r.background == Rect(0, 0, r.width, r.height)
    ensures r.accentBar == Rect(0, r.height - 16, r.width, 16)
    ensures r.title == Lay(Wrap(Split(MakeTitle(input), IsSpace), measureTitle, r.width - 160), 80, 200, 86)
    ensures r.tags == Lay(Wrap(HashtagTokens(Words(input)), measureTags, r.width - 160), 80, r.height - 200, 36)
  {
    var w := CanvasWidth;
    var h := CanvasHeight(ratio);
    var title := MakeTitle(input);
    var tags := MakeHashtags(input);
    var titleLines := WrapText(title, 80, 200, w - 160, 86, measureTitle);
    var tagLines := WrapText(tags, 80, h - 200, w - 160, 36, measureTags);
    r := Render(w, h, Rect(0, 0, w, h), Rect(0, h - 16, w, 16), titleLines, tagLines);
  }
}
