/**
 * Category tagging by keyword: a category applies when one of its keywords
 * occurs anywhere in the lower-cased text, and a text no category applies to
 * is tagged `['general']`. The service's `classify_categories`
 * (services/processor/main.py:407-416, table at 57-65) and the script's
 * per-title loop (local-scripts/2_run_processor.py:283-289, table at
 * 257-265) are this one algorithm over two tables.
 */
module Categories {
  import opened Text

  /** One `category: [keywords]` entry; a table keeps the dictionary's insertion order. */
  datatype Category = Category(name: string, keywords: seq<string>)

  /** `self.categories_keywords` of the service. */
  const ServiceCategories: seq<Category> := [
    Category("mercados", ["bolsa", "acciones", "COLCAP", "mercado", "bursátil"]),
    Category("divisas", ["dólar", "euro", "peso", "divisa", "cambio"]),
    Category("commodities", ["petróleo", "oro", "café", "carbón", "commodity"]),
    Category("banca", ["banco", "financiero", "crédito", "tasa"]),
    Category("empresas", ["empresa", "negocio", "compañía", "corporación"]),
    Category("politica_economica", ["gobierno", "reforma", "impuesto", "política"]),
    Category("comercio", ["exportación", "importación", "comercio", "TLC"])
  ]

  /** `categories_keywords` of the script. */
  const ScriptCategories: seq<Category> := [
    Category("mercados", ["bolsa", "acciones", "COLCAP", "mercado"]),
    Category("divisas", ["dolar", "euro", "peso", "divisa"]),
    Category("commodities", ["petroleo", "oro", "cafe"]),
    Category("banca", ["banco", "financiero", "credito"]),
    Category("empresas", ["empresa", "negocio", "compania"]),
    Category("politica_economica", ["gobierno", "reforma", "impuesto"]),
    Category("comercio", ["exportacion", "importacion", "comercio"])
  ]

  /** `k` occurs in `s` starting at position i. */
  predicate OccursAt(s: string, k: string, i: int) {
    0 <= i && i + |k| <= |s| && s[i..i + |k|] == k
  }

  /** Python's `k in s` for strings, scanning from the left. */
  function Contains(s: string, k: string): (b: bool)
    ensures b <==> exists i :: OccursAt(s, k, i)
    decreases |s|
  {
    if k <= s then
      assert OccursAt(s, k, 0);
      true
    else if |s| <= |k| then
      false
    else
      var b := Contains(s[1..], k);
      assert forall i :: OccursAt(s[1..], k, i) <==> OccursAt(s, k, i + 1) by {
        forall i ensures OccursAt(s[1..], k, i) <==> OccursAt(s, k, i + 1) {
          if 0 <= i && i + |k| <= |s| - 1 {
            assert s[1..][i..i + |k|] == s[i + 1..i + 1 + |k|];
          }
        }
      }
      assert !OccursAt(s, k, 0);
      assert (exists i :: OccursAt(s, k, i)) ==> exists i :: OccursAt(s[1..], k, i) by {
        if exists i :: OccursAt(s, k, i) {
          var i :| OccursAt(s, k, i);
          assert OccursAt(s[1..], k, i - 1);
        }
      }
      b
  }

  /** `any(keyword in text_lower for keyword in keywords)` */
  predicate AnyKeyword(keywords: seq<string>, lowered: string) {
    exists j :: 0 <= j < |keywords| && Contains(lowered, keywords[j])
  }

  /** The names of the categories that apply, in table order. */
  function Matched(table: seq<Category>, lowered: string): seq<string> {
    if table == [] then []
    else
      var rest := Matched(table[..|table| - 1], lowered);
      var c := table[|table| - 1];
      if AnyKeyword(c.keywords, lowered) then rest + [c.name] else rest
  }

  /** What tagging returns for a text. */
  function Classify(table: seq<Category>, text: string): seq<string> {
    var m := Matched(table, Lower(text));
    if m == [] then ["general"] else m
  }

  /** The loop of `classify_categories`: one pass over the table, appending each category that applies. */
  method ClassifyCategories(table: seq<Category>, text: string) returns (categories: seq<string>)
    ensures categories == Classify(table, text)
  {
    var textLower := Lower(text);
    categories := [];
    var i := 0;
    while i < |table|
      invariant 0 <= i <= |table|
      invariant categories == Matched(table[..i], textLower)
    {
      var hit := false;
      var j := 0;
      while j < |table[i].keywords| && !hit
        invariant 0 <= j <= |table[i].keywords|
        invariant hit <==> exists m :: 0 <= m < j && Contains(textLower, table[i].keywords[m])
      {
        hit := Contains(textLower, table[i].keywords[j]);
        j := j + 1;
      }
      assert hit <==> AnyKeyword(table[i].keywords, textLower);
      assert table[..i + 1][..i] == table[..i];
      if hit {
        categories := categories + [table[i].name];
      }
      i := i + 1;
    }
    assert table[..|table|] == table;
    if categories == [] {
      categories := ["general"];
    }
  }

  /** `s` is `t` with some elements left out, order kept. */
  predicate IsSubsequence(s: seq<string>, t: seq<string>)
    decreases |t|
  {
    if s == [] then true
    else if t == [] then false
    else if s[|s| - 1] == t[|t| - 1] then IsSubsequence(s[..|s| - 1], t[..|t| - 1])
    else IsSubsequence(s, t[..|t| - 1])
  }

  /** The names of a table, in order. */
  function Names(table: seq<Category>): (r: seq<string>)
    ensures |r| == |table| && forall i :: 0 <= i < |table| ==> r[i] == table[i].name
  {
    seq(|table|, i requires 0 <= i < |table| => table[i].name)
  }

  /** A category name is in the result exactly when some category of that name applies. */
  lemma {:induction false} MatchedMembership(table: seq<Category>, lowered: string, n: string)
    ensures n in Matched(table, lowered) <==>
      exists i :: 0 <= i < |table| && table[i].name == n && AnyKeyword(table[i].keywords, lowered)
  {
    if table != [] {
      var init := table[..|table| - 1];
      MatchedMembership(init, lowered, n);
      if exists i :: 0 <= i < |init| && init[i].name == n && AnyKeyword(init[i].keywords, lowered) {
        var i :| 0 <= i < |init| && init[i].name == n && AnyKeyword(init[i].keywords, lowered);
        assert table[i] == init[i];
      }
      if exists i :: 0 <= i < |table| && table[i].name == n && AnyKeyword(table[i].keywords, lowered) {
        var i :| 0 <= i < |table| && table[i].name == n && AnyKeyword(table[i].keywords, lowered);
        if i < |init| {
          assert init[i] == table[i];
        }
      }
    }
  }

  /** The categories come out in table order: the result is a subsequence of the table's names. */
  lemma {:induction false} MatchedInTableOrder(table: seq<Category>, lowered: string)
    ensures IsSubsequence(Matched(table, lowered), Names(table))
  {
    if table != [] {
      var init := table[..|table| - 1];
      MatchedInTableOrder(init, lowered);
      assert Names(table)[..|table| - 1] == Names(init);
      var m := Matched(init, lowered);
      if AnyKeyword(table[|table| - 1].keywords, lowered) {
        assert (m + [table[|table| - 1].name])[..|m|] == m;
      } else {
        SubsequenceExtend(m, Names(init), table[|table| - 1].name);
        assert Names(init) + [table[|table| - 1].name] == Names(table);
      }
    }
  }

  /** Appending to the longer sequence keeps a subsequence one. */
  lemma {:induction false} SubsequenceExtend(s: seq<string>, t: seq<string>, x: string)
    requires IsSubsequence(s, t)
    ensures IsSubsequence(s, t + [x])
    decreases |t|, 1
  {
    var tx := t + [x];
    assert tx[..|tx| - 1] == t;
    if s != [] && s[|s| - 1] == x {
      SubsequenceDropLast(s, t);
    }
  }

  /** Dropping the last element of a subsequence leaves a subsequence. */
  lemma {:induction false} SubsequenceDropLast(s: seq<string>, t: seq<string>)
    requires s != [] && IsSubsequence(s, t)
    ensures IsSubsequence(s[..|s| - 1], t)
    decreases |t|, 0
  {
    var init := t[..|t| - 1];
    assert init + [t[|t| - 1]] == t;
    if s[|s| - 1] != t[|t| - 1] {
      SubsequenceDropLast(s, init);
    }
    SubsequenceExtend(s[..|s| - 1], init, t[|t| - 1]);
  }

  /** `['general']` comes back exactly when no category applies (given no category is itself named `general`). */
  lemma GeneralIffNoMatch(table: seq<Category>, text: string)
    requires forall i :: 0 <= i < |table| ==> table[i].name != "general"
    ensures Classify(table, text) == ["general"] <==>
      forall i :: 0 <= i < |table| ==> !AnyKeyword(table[i].keywords, Lower(text))
  {
    var m := Matched(table, Lower(text));
    MatchedMembership(table, Lower(text), "general");
    if m != [] {
      MatchedMembership(table, Lower(text), m[0]);
    } else {
      forall i | 0 <= i < |table| ensures !AnyKeyword(table[i].keywords, Lower(text)) {
        MatchedMembership(table, Lower(text), table[i].name);
      }
    }
  }

  /** A keyword holding a capital A..Z never occurs in lower-cased text. */
  lemma CapitalKeywordNeverMatches(k: string, text: string, j: nat)
    requires j < |k| && 'A' <= k[j] <= 'Z'
    ensures !Contains(Lower(text), k)
  {
  }

  /** So `'COLCAP'` and `'TLC'` never tag a text, in either table. */
  lemma ColcapAndTlcNeverMatch(text: string)
    ensures !Contains(Lower(text), "COLCAP") && !Contains(Lower(text), "TLC")
    ensures ServiceCategories[0].keywords[2] == "COLCAP" && ServiceCategories[6].keywords[3] == "TLC"
    ensures ScriptCategories[0].keywords[2] == "COLCAP"
  {
    CapitalKeywordNeverMatches("COLCAP", text, 0);
    CapitalKeywordNeverMatches("TLC", text, 0);
  }
}
