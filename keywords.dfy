/**
 * `NewsProcessor.extract_keywords` (services/processor/main.py:418-441):
 * lower-case and split the text, drop stopwords and words of three characters
 * or fewer, count each remaining word (a dictionary filled in first-occurrence
 * order), sort the counts with the stable `sorted(..., reverse=True)` and keep
 * the first `top_n` words.
 */
module Keywords {
  import opened Text

  /** A `word_freq` item: a word and how often it occurs. */
  type WordCount = (string, nat)

  /** The stopword set of `extract_keywords`. */
  const Stopwords: set<string> :=
    {"el", "la", "de", "que", "y", "a", "en", "un", "ser", "se", "no", "por", "con", "su", "para", "como", "es"}

  /** The filter `w not in stopwords and len(w) > 3`. */
  predicate Keep(w: string) {
    w !in Stopwords && |w| > 3
  }

  /** `[w for w in words if w not in stopwords and len(w) > 3]` */
  function FilterWords(ws: seq<string>): (r: seq<string>)
    ensures forall k :: 0 <= k < |r| ==> Keep(r[k])
    ensures forall w :: w in r <==> w in ws && Keep(w)
    ensures forall w :: Keep(w) ==> multiset(r)[w] == multiset(ws)[w]
  {
    if ws == [] then []
    else
      var init := FilterWords(ws[..|ws| - 1]);
      var w := ws[|ws| - 1];
      assert ws == ws[..|ws| - 1] + [w];
      if Keep(w) then init + [w] else init
  }

  /** The keys of `word_freq`: each word once, in order of first occurrence. */
  function Distinct(ws: seq<string>): (d: seq<string>)
    ensures forall w :: w in d <==> w in ws
    ensures forall i, j :: 0 <= i < j < |d| ==> d[i] != d[j]
  {
    if ws == [] then []
    else
      var d0 := Distinct(ws[..|ws| - 1]);
      var w := ws[|ws| - 1];
      assert ws == ws[..|ws| - 1] + [w];
      if w in d0 then d0 else d0 + [w]
  }

  /** Where w first occurs in ws. */
  function FirstIndex(ws: seq<string>, w: string): (r: nat)
    requires w in ws
    ensures r < |ws| && ws[r] == w
    ensures forall j :: 0 <= j < r ==> ws[j] != w
  {
    if ws[0] == w then 0 else 1 + FirstIndex(ws[1..], w)
  }

  /** The dictionary keeps its keys in order of first occurrence. */
  lemma {:induction false} DistinctInFirstOccurrenceOrder(ws: seq<string>, a: nat, b: nat)
    requires a < b < |Distinct(ws)|
    ensures FirstIndex(ws, Distinct(ws)[a]) < FirstIndex(ws, Distinct(ws)[b])
  {
    var init, w := ws[..|ws| - 1], ws[|ws| - 1];
    var d0, d := Distinct(init), Distinct(ws);
    assert ws == init + [w];
    assert d[a] in init by {
      if w !in d0 {
        assert d == d0 + [w];
        assert d[a] == d0[a];
      }
    }
    FirstIndexPrefix(init, w, d[a]);
    if b < |d0| {
      assert d[a] == d0[a] && d[b] == d0[b];
      DistinctInFirstOccurrenceOrder(init, a, b);
      FirstIndexPrefix(init, w, d[b]);
    } else {
      assert d[b] == w && w !in init;
    }
  }

  /** Appending does not move the first occurrence of a word already present. */
  lemma FirstIndexPrefix(init: seq<string>, x: string, w: string)
    requires w in init
    ensures FirstIndex(init + [x], w) == FirstIndex(init, w)
  {
    var i, j := FirstIndex(init + [x], w), FirstIndex(init, w);
    assert (init + [x])[j] == w;
  }

  /** `word_freq.items()` after counting `ws`. */
  function Frequencies(ws: seq<string>): seq<WordCount> {
    var d := Distinct(ws);
    seq(|d|, k requires 0 <= k < |d| => (d[k], multiset(ws)[d[k]]))
  }

  lemma DistinctAppendOld(s: seq<string>, w: string)
    requires w in s
    ensures Distinct(s + [w]) == Distinct(s)
  {
    assert (s + [w])[..|s|] == s;
  }

  lemma DistinctAppendNew(s: seq<string>, w: string)
    requires w !in s
    ensures Distinct(s + [w]) == Distinct(s) + [w]
  {
    assert (s + [w])[..|s|] == s;
  }

  /** Counting one more occurrence of a word already counted bumps its entry in place. */
  lemma FrequenciesAppendOld(s: seq<string>, w: string, k: nat)
    requires k < |Frequencies(s)| && Frequencies(s)[k].0 == w
    ensures Frequencies(s + [w]) == Frequencies(s)[k := (w, Frequencies(s)[k].1 + 1)]
  {
    var d, f, g := Distinct(s), Frequencies(s), Frequencies(s + [w]);
    assert w in d;
    DistinctAppendOld(s, w);
    assert multiset(s + [w]) == multiset(s) + multiset{w};
    assert |g| == |f|;
    forall m | 0 <= m < |f| && m != k ensures g[m] == f[m] {
      assert d[m] != w;
    }
    assert g[k] == (w, f[k].1 + 1);
  }

  /** Counting a new word appends an entry with count 1. */
  lemma FrequenciesAppendNew(s: seq<string>, w: string)
    requires forall k :: 0 <= k < |Frequencies(s)| ==> Frequencies(s)[k].0 != w
    ensures Frequencies(s + [w]) == Frequencies(s) + [(w, 1)]
  {
    var d, f, g := Distinct(s), Frequencies(s), Frequencies(s + [w]);
    assert w !in d by {
      forall m | 0 <= m < |d| ensures d[m] != w {
        assert f[m].0 == d[m];
      }
    }
    DistinctAppendNew(s, w);
    assert multiset(s + [w]) == multiset(s) + multiset{w};
    assert |g| == |f| + 1;
    forall m | 0 <= m < |f| ensures g[m] == f[m] {
      assert d[m] != w;
    }
    assert g[|f|] == (w, 1);
  }

  /** The counting loop `for word in words: word_freq[word] = word_freq.get(word, 0) + 1`. */
  method CountFrequencies(words: seq<string>) returns (wordFreq: seq<WordCount>)
    ensures wordFreq == Frequencies(words)
  {
    wordFreq := [];
    var i := 0;
    while i < |words|
      invariant 0 <= i <= |words|
      invariant wordFreq == Frequencies(words[..i])
    {
      var word := words[i];
      var k := 0;
      while k < |wordFreq| && wordFreq[k].0 != word
        invariant 0 <= k <= |wordFreq|
        invariant forall m :: 0 <= m < k ==> wordFreq[m].0 != word
      {
        k := k + 1;
      }
      assert words[..i + 1] == words[..i] + [word];
      if k < |wordFreq| {
        FrequenciesAppendOld(words[..i], word, k);
        wordFreq := wordFreq[k := (word, wordFreq[k].1 + 1)];
      } else {
        FrequenciesAppendNew(words[..i], word);
        wordFreq := wordFreq + [(word, 1)];
      }
      i := i + 1;
    }
    assert words[..|words|] == words;
  }

  // `sorted(items, key=lambda x: x[1], reverse=True)`: a stable sort by count, largest first

  /** Puts `x` after every entry whose count is at least its own. */
  function Insert(x: WordCount, s: seq<WordCount>): seq<WordCount> {
    if s == [] then [x]
    else if s[0].1 >= x.1 then [s[0]] + Insert(x, s[1..])
    else [x] + s
  }

  /** Insertion adds exactly `x`. */
  lemma {:induction false} InsertPermutes(x: WordCount, s: seq<WordCount>)
    ensures multiset(Insert(x, s)) == multiset(s) + multiset{x}
  {
    if s != [] && s[0].1 >= x.1 {
      InsertPermutes(x, s[1..]);
      assert s == [s[0]] + s[1..];
    }
  }

  /** Stable insertion sort by descending count: later items go after earlier ones of the same count. */
  function SortByCount(s: seq<WordCount>): seq<WordCount> {
    if s == [] then []
    else Insert(s[|s| - 1], SortByCount(s[..|s| - 1]))
  }

  /** The sort is a permutation of its input. */
  lemma {:induction false} SortByCountPermutes(s: seq<WordCount>)
    ensures multiset(SortByCount(s)) == multiset(s)
  {
    if s != [] {
      SortByCountPermutes(s[..|s| - 1]);
      InsertPermutes(s[|s| - 1], SortByCount(s[..|s| - 1]));
      assert s == s[..|s| - 1] + [s[|s| - 1]];
    }
  }

  /** Counts never increase along `s`. */
  predicate Descending(s: seq<WordCount>) {
    forall i, j :: 0 <= i < j < |s| ==> s[i].1 >= s[j].1
  }

  /** The items of `s` whose count is c, in order. */
  function WithCount(s: seq<WordCount>, c: nat): seq<WordCount> {
    if s == [] then []
    else (if s[0].1 == c then [s[0]] else []) + WithCount(s[1..], c)
  }

  lemma {:induction false} WithCountConcat(a: seq<WordCount>, b: seq<WordCount>, c: nat)
    ensures WithCount(a + b, c) == WithCount(a, c) + WithCount(b, c)
  {
    if a != [] {
      var head := if a[0].1 == c then [a[0]] else [];
      assert (a + b)[0] == a[0];
      assert (a + b)[1..] == a[1..] + b;
      WithCountConcat(a[1..], b, c);
      calc {
        WithCount(a + b, c);
        head + WithCount(a[1..] + b, c);
        head + (WithCount(a[1..], c) + WithCount(b, c));
        (head + WithCount(a[1..], c)) + WithCount(b, c);
      }
    } else {
      assert a + b == b;
    }
  }

  lemma WithCountSingle(x: WordCount, c: nat)
    ensures WithCount([x], c) == if x.1 == c then [x] else []
  {
    assert WithCount([x], c) == (if x.1 == c then [x] else []) + WithCount([], c);
  }

  lemma {:induction false} InsertDescending(x: WordCount, s: seq<WordCount>)
    requires Descending(s)
    ensures Descending(Insert(x, s))
  {
    if s != [] && s[0].1 >= x.1 {
      InsertDescending(x, s[1..]);
      var r := Insert(x, s[1..]);
      InsertPermutes(x, s[1..]);
      assert forall k :: 0 <= k < |r| ==> r[k] in multiset(r);
      forall k | 0 <= k < |r| ensures s[0].1 >= r[k].1 {
        assert r[k] in multiset(s[1..]) + multiset{x};
        if r[k] in multiset(s[1..]) {
          var m :| 0 <= m < |s[1..]| && s[1..][m] == r[k];
          assert s[m + 1] == r[k];
        }
      }
    }
  }

  /** An inserted item goes after every item of its own count, and the others keep their order. */
  lemma {:induction false} InsertWithCount(x: WordCount, s: seq<WordCount>, c: nat)
    requires Descending(s)
    ensures WithCount(Insert(x, s), c) == WithCount(s, c) + WithCount([x], c)
  {
    if s == [] {
      assert WithCount(s, c) + WithCount([x], c) == WithCount([x], c);
    } else if s[0].1 >= x.1 {
      var head := if s[0].1 == c then [s[0]] else [];
      var rest := Insert(x, s[1..]);
      var r := [s[0]] + rest;
      assert Insert(x, s) == r;
      assert r[0] == s[0] && r[1..] == rest;
      InsertWithCount(x, s[1..], c);
      calc {
        WithCount(r, c);
        head + WithCount(rest, c);
        head + (WithCount(s[1..], c) + WithCount([x], c));
        (head + WithCount(s[1..], c)) + WithCount([x], c);
      }
    } else {
      var r := [x] + s;
      assert Insert(x, s) == r;
      assert r[0] == x && r[1..] == s;
      WithCountSingle(x, c);
      if x.1 == c {
        WithCountNone(s, c);
      }
    }
  }

  /** No item of a descending sequence whose first count is below c has count c. */
  lemma {:induction false} WithCountNone(s: seq<WordCount>, c: nat)
    requires Descending(s) && s != [] && s[0].1 < c
    ensures WithCount(s, c) == []
  {
    if |s| > 1 {
      WithCountNone(s[1..], c);
    }
  }

  /** The sort orders by count, largest first. */
  lemma {:induction false} SortByCountDescending(s: seq<WordCount>)
    ensures Descending(SortByCount(s))
  {
    if s != [] {
      SortByCountDescending(s[..|s| - 1]);
      InsertDescending(s[|s| - 1], SortByCount(s[..|s| - 1]));
    }
  }

  /** The sort is stable: items of equal count keep their input order. */
  lemma {:induction false} SortByCountStable(s: seq<WordCount>, c: nat)
    ensures WithCount(SortByCount(s), c) == WithCount(s, c)
  {
    if s != [] {
      var init, x := s[..|s| - 1], s[|s| - 1];
      assert s == init + [x];
      var sorted := SortByCount(init);
      assert SortByCount(s) == Insert(x, sorted);
      SortByCountStable(init, c);
      SortByCountDescending(init);
      StableStep(sorted, init, x, c);
    }
  }

  /** One insertion step keeps the items of count c in input order. */
  lemma StableStep(sorted: seq<WordCount>, init: seq<WordCount>, x: WordCount, c: nat)
    requires Descending(sorted) && WithCount(sorted, c) == WithCount(init, c)
    ensures WithCount(Insert(x, sorted), c) == WithCount(init + [x], c)
  {
    InsertWithCount(x, sorted, c);
    WithCountConcat(init, [x], c);
  }

  // `[word for word, freq in sorted_words[:top_n]]`

  /** Python's `s[:n]`: a negative n drops that many items from the end. */
  function Take<T>(s: seq<T>, n: int): (r: seq<T>)
    ensures n >= 0 ==> |r| == if n <= |s| then n else |s|
    ensures n < 0 ==> |r| == if -n <= |s| then |s| + n else 0
    ensures r <= s
  {
    if n >= 0 then (if n <= |s| then s[..n] else s)
    else if -n <= |s| then s[..|s| + n]
    else []
  }

  /** The words of a list of items. */
  function Words(s: seq<WordCount>): (r: seq<string>)
    ensures |r| == |s| && forall k :: 0 <= k < |s| ==> r[k] == s[k].0
  {
    seq(|s|, k requires 0 <= k < |s| => s[k].0)
  }

  /** The tokens `extract_keywords` counts. */
  function CountedWords(text: string): seq<string> {
    FilterWords(Split(Lower(text)))
  }

  /** The sorted `word_freq` items. */
  function Ranked(text: string): seq<WordCount> {
    SortByCount(Frequencies(CountedWords(text)))
  }

  /** What `extract_keywords(text, top_n)` returns. */
  function ExtractedKeywords(text: string, topN: int): seq<string> {
    Words(Take(Ranked(text), topN))
  }

  /** `extract_keywords`: filter, count in a loop, sort, cut. */
  method ExtractKeywords(text: string, topN: int) returns (keywords: seq<string>)
    ensures keywords == ExtractedKeywords(text, topN)
  {
    var words := FilterWords(Split(Lower(text)));
    var wordFreq := CountFrequencies(words);
    var sortedWords := SortByCount(wordFreq);
    keywords := Words(Take(sortedWords, topN));
  }

  // Properties of the result

  /** Each item of the counted frequencies is a distinct kept word with its number of occurrences in the text. */
  lemma FrequencyItem(text: string, p: WordCount)
    requires p in multiset(Frequencies(CountedWords(text)))
    ensures Keep(p.0) && p.0 in Split(Lower(text))
    ensures p.1 == multiset(Split(Lower(text)))[p.0]
  {
    var f := Frequencies(CountedWords(text));
    var k :| 0 <= k < |f| && f[k] == p;
  }

  /** The ranked items are the counted items, so each is a kept word of the text with its count. */
  lemma RankedItem(text: string, k: nat)
    requires k < |Ranked(text)|
    ensures Keep(Ranked(text)[k].0) && Ranked(text)[k].0 in Split(Lower(text))
    ensures Ranked(text)[k].1 == multiset(Split(Lower(text)))[Ranked(text)[k].0]
  {
    var r := Ranked(text);
    SortByCountPermutes(Frequencies(CountedWords(text)));
    assert r[k] in multiset(r);
    FrequencyItem(text, r[k]);
  }

  /** Every keyword is a token of the lower-cased text, longer than three characters and not a stopword. */
  lemma KeywordsAreKeptTokens(text: string, topN: int, k: nat)
    requires k < |ExtractedKeywords(text, topN)|
    ensures var w := ExtractedKeywords(text, topN)[k];
      w in Split(Lower(text)) && |w| > 3 && w !in Stopwords
  {
    assert Take(Ranked(text), topN)[k] == Ranked(text)[k];
    RankedItem(text, k);
  }

  /** At most `top_n` keywords, and never more than there are distinct counted words. */
  lemma KeywordsBound(text: string, topN: int)
    ensures topN >= 0 ==> |ExtractedKeywords(text, topN)| <= topN
    ensures |ExtractedKeywords(text, topN)| <= |Distinct(CountedWords(text))|
  {
    var f := Frequencies(CountedWords(text));
    SortByCountPermutes(f);
    assert |multiset(Ranked(text))| == |multiset(f)|;
  }

  /** Counts never increase along the keywords. */
  lemma KeywordsByFrequency(text: string, topN: int, i: nat, j: nat)
    requires i < j < |ExtractedKeywords(text, topN)|
    ensures var r := ExtractedKeywords(text, topN); var counts := multiset(Split(Lower(text)));
      counts[r[i]] >= counts[r[j]]
  {
    var s := Ranked(text);
    SortByCountDescending(Frequencies(CountedWords(text)));
    RankedItem(text, i);
    RankedItem(text, j);
    assert Take(s, topN)[i] == s[i] && Take(s, topN)[j] == s[j];
  }

  /** No keyword appears twice. */
  lemma KeywordsDistinct(text: string, topN: int, i: nat, j: nat)
    requires i < j < |ExtractedKeywords(text, topN)|
    ensures ExtractedKeywords(text, topN)[i] != ExtractedKeywords(text, topN)[j]
  {
    var f := Frequencies(CountedWords(text));
    var s := Ranked(text);
    assert Take(s, topN)[i] == s[i] && Take(s, topN)[j] == s[j];
    SortByCountPermutes(f);
    RankedDistinct(f, s, i, j);
  }

  /** A permutation of items whose words are distinct has distinct words too. */
  lemma RankedDistinct(f: seq<WordCount>, s: seq<WordCount>, i: nat, j: nat)
    requires forall a, b :: 0 <= a < b < |f| ==> f[a].0 != f[b].0
    requires multiset(s) == multiset(f)
    requires i < j < |s|
    ensures s[i].0 != s[j].0
  {
    if s[i].0 == s[j].0 {
      assert s[i] in multiset(f) && s[j] in multiset(f);
      var a :| 0 <= a < |f| && f[a] == s[i];
      var b :| 0 <= b < |f| && f[b] == s[j];
      assert a == b;
      assert s == s[..j] + [s[j]] + s[j + 1..];
      assert s[..j] == s[..i] + [s[i]] + s[i + 1..j];
      assert multiset(s)[f[a]] >= 2;
      FrequencyItemOnce(f, a);
    }
  }

  /** In items with distinct words, each item occurs once. */
  lemma {:induction false} FrequencyItemOnce(f: seq<WordCount>, a: nat)
    requires forall x, y :: 0 <= x < y < |f| ==> f[x].0 != f[y].0
    requires a < |f|
    ensures multiset(f)[f[a]] == 1
  {
    var pre, post := f[..a], f[a + 1..];
    assert f == pre + [f[a]] + post;
    forall m | 0 <= m < |pre| ensures pre[m] != f[a] {
      assert pre[m] == f[m];
    }
    forall m | 0 <= m < |post| ensures post[m] != f[a] {
      assert post[m] == f[a + 1 + m];
    }
    assert f[a] !in pre && f[a] !in post;
  }

  /**
   * Ties keep first-occurrence order: for every count, the keywords with that
   * count are the first ones, in dictionary order, of the counted words with
   * that count.
   */
  lemma KeywordsTiesInFirstOccurrenceOrder(text: string, topN: int, c: nat)
    ensures WithCount(Take(Ranked(text), topN), c) <= WithCount(Frequencies(CountedWords(text)), c)
  {
    var f := Frequencies(CountedWords(text));
    SortByCountStable(f, c);
    TakeWithCount(SortByCount(f), topN, c);
  }

  /** A prefix keeps the items of count c that it holds, in order. */
  lemma TakeWithCount(s: seq<WordCount>, n: int, c: nat)
    ensures WithCount(Take(s, n), c) <= WithCount(s, c)
  {
    var t := Take(s, n);
    assert s == t + s[|t|..];
    WithCountConcat(t, s[|t|..], c);
  }

  /** A counted word left out of the keywords is no more frequent than any keyword. */
  lemma KeywordsAreTop(text: string, topN: int, w: string, k: nat)
    requires w in CountedWords(text) && w !in ExtractedKeywords(text, topN)
    requires k < |ExtractedKeywords(text, topN)|
    ensures var counts := multiset(Split(Lower(text)));
      counts[w] <= counts[ExtractedKeywords(text, topN)[k]]
  {
    var f := Frequencies(CountedWords(text));
    var s := Ranked(text);
    var t := Take(s, topN);
    SortByCountDescending(f);
    SortByCountPermutes(f);
    var d := Distinct(CountedWords(text));
    var a :| 0 <= a < |d| && d[a] == w;
    assert f[a] == (w, multiset(CountedWords(text))[w]);
    assert f[a] in multiset(s);
    var p :| 0 <= p < |s| && s[p] == f[a];
    assert t[k] == s[k];
    RankedItem(text, k);
    RankedItem(text, p);
  }
}
