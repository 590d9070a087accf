/**
 * The composition steps around the scorer:
 *   - `NewsProcessor.process_article` (services/processor/main.py:445-470):
 *     score, tag and extract keywords from `"{title} {content}"`;
 *   - the script's per-article loop body (local-scripts/2_run_processor.py:272-289):
 *     score and tag the title alone.
 * An article is a dictionary; a field can be absent, hold `None`, or hold a value.
 */
module Processor {
  import opened Wrappers
  import opened Text
  import opened Sentiment
  import opened Categories
  import opened Keywords

  /** A dictionary field: absent, `None`, or a value. */
  datatype Field<T> = Missing | Null | Present(value: T)

  /** The fields of an article row the composition reads. */
  datatype Article = Article(id: Field<int>, title: Field<string>, content: Field<string>)

  /** The dictionary `process_article` returns; `id` is `None` when the row's id is `None`. */
  datatype Processed = Processed(
    id: Option<int>, score: real, sentimentLabel: Label,
    categories: seq<string>, keywords: seq<string>)

  /** A string field as an f-string renders it: `None` prints as `"None"`. */
  function Render(f: Field<string>, absent: string): (s: string)
    ensures f.Present? ==> s == f.value
    ensures f.Null? ==> s == "None"
    ensures f.Missing? ==> s == absent
  {
    match f
    case Missing => absent
    case Null => "None"
    case Present(s) => s
  }

  /** `f"{article['title']} {article.get('content', '')}"`, when the title key exists. */
  function FullText(a: Article): (s: string)
    requires !a.title.Missing?
    ensures |s| == |Render(a.title, "")| + 1 + |Render(a.content, "")|
    ensures s[|Render(a.title, "")|] == ' '
  {
    Render(a.title, "") + " " + Render(a.content, "")
  }

  /** What `process_article` returns: `None` when `article['title']` or `article['id']` raises `KeyError`. */
  function ProcessedArticle(a: Article, siaLoaded: bool, vader: Signal, textblob: Signal): Option<Processed> {
    if a.title.Missing? || a.id.Missing? then None
    else
      var text := FullText(a);
      var v := ServiceSentiment(text, siaLoaded, vader, textblob);
      var id := if a.id.Null? then None else Some(a.id.value);
      Some(Processed(id, v.score, v.sentiment, Classify(ServiceCategories, text), ExtractedKeywords(text, 5)))
  }

  /** `process_article`: the three analyses in turn on the combined text. */
  method ProcessArticle(a: Article, siaLoaded: bool, vader: Signal, textblob: Signal)
    returns (processed: Option<Processed>)
    ensures processed == ProcessedArticle(a, siaLoaded, vader, textblob)
  {
    if a.title.Missing? {
      return None;
    }
    var fullText := FullText(a);
    var sentimentScore, sentimentLabel := AnalyzeSentiment(fullText, siaLoaded, vader, textblob);
    var categories := ClassifyCategories(ServiceCategories, fullText);
    var keywords := ExtractKeywords(fullText, 5);
    if a.id.Missing? {
      return None;
    }
    var id := if a.id.Null? then None else Some(a.id.value);
    processed := Some(Processed(id, sentimentScore, sentimentLabel, categories, keywords));
  }

  /**
   * A processed article always has a score in [-0.5, 1.2] with the library
   * path's or the fallback's labels, at least one category (`general` exactly
   * when none applies) and at most five keywords; it is `None` exactly when
   * the title or the id key is absent.
   */
  lemma ProcessedArticleShape(a: Article, siaLoaded: bool, vader: Signal, textblob: Signal)
    ensures ProcessedArticle(a, siaLoaded, vader, textblob).Some? <==> !a.title.Missing? && !a.id.Missing?
    ensures ProcessedArticle(a, siaLoaded, vader, textblob).Some? ==>
      var p := ProcessedArticle(a, siaLoaded, vader, textblob).value;
      && -0.5 <= p.score <= 1.2
      && (!ServiceFallsBack(siaLoaded, vader, textblob) ==>
            (p.sentimentLabel == Positive <==> p.score >= 0.30) && (p.sentimentLabel == Negative <==> p.score <= 0.22))
      && (ServiceFallsBack(siaLoaded, vader, textblob) ==>
            (p.sentimentLabel == Positive <==> p.score > 0.30) && (p.sentimentLabel == Negative <==> p.score < 0.22))
      && p.categories != []
      && (p.categories == ["general"] <==>
            forall i :: 0 <= i < |ServiceCategories| ==> !AnyKeyword(ServiceCategories[i].keywords, Lower(FullText(a))))
      && |p.keywords| <= 5
  {
    if !a.title.Missing? && !a.id.Missing? {
      var text := FullText(a);
      GeneralIffNoMatch(ServiceCategories, text);
      KeywordsBound(text, 5);
    }
  }

  /** A `None` content still reaches the scorer, as the text `None` (lowered to `none` by the scorer's own folding). */
  lemma NullContentIsText(title: string)
    ensures FullText(Article(Missing, Present(title), Null)) == title + " None"
    ensures FullText(Article(Missing, Present(title), Missing)) == title + " "
  {
  }

  // The script's loop body (local-scripts/2_run_processor.py)

  /** What the script records for one article: `None` stands for the `AttributeError` of a `None` title. */
  function ScriptTagged(title: Field<string>, vader: Signal, textblob: Signal): Option<(Verdict, seq<string>)> {
    if title.Null? then None
    else
      var t := Render(title, "");
      Some((ScriptSentiment(t, vader, textblob), Classify(ScriptCategories, t)))
  }

  /** The loop body: `title = article.get('title', '')`, score it, then tag it. */
  method TagTitle(title: Field<string>, vader: Signal, textblob: Signal)
    returns (tagged: Option<(Verdict, seq<string>)>)
    ensures tagged == ScriptTagged(title, vader, textblob)
  {
    if title.Null? {
      return None;
    }
    var t := Render(title, "");
    var compound, sentimentLabel := AnalyzeSentimentEnhanced(t, vader, textblob);
    var categories := ClassifyCategories(ScriptCategories, t);
    tagged := Some((Verdict(compound, sentimentLabel), categories));
  }

  /**
   * The script tags a title `['general']` exactly when no keyword of its table
   * is a substring of the lower-cased title; a missing title is tagged
   * `['general']` and scored `(0.0, neutral)`.
   */
  lemma ScriptTagsGeneralIffNoMatch(title: string, vader: Signal, textblob: Signal)
    ensures ScriptTagged(Present(title), vader, textblob).value.1 == ["general"] <==>
      forall i :: 0 <= i < |ScriptCategories| ==> !AnyKeyword(ScriptCategories[i].keywords, Lower(title))
    ensures ScriptTagged(Missing, vader, textblob) == Some((Verdict(0.0, Neutral), ["general"]))
  {
    GeneralIffNoMatch(ScriptCategories, title);
    assert Matched(ScriptCategories, Lower("")) == [] by {
      NothingInEmpty(ScriptCategories);
    }
  }

  /** No keyword of any category occurs in the empty text. */
  lemma {:induction false} NothingInEmpty(table: seq<Category>)
    requires forall i, j :: 0 <= i < |table| && 0 <= j < |table[i].keywords| ==> table[i].keywords[j] != []
    ensures Matched(table, Lower("")) == []
  {
    if table != [] {
      var init := table[..|table| - 1];
      NothingInEmpty(init);
      var c := table[|table| - 1];
      forall j | 0 <= j < |c.keywords| ensures !Contains(Lower(""), c.keywords[j]) {
        assert c.keywords[j] != [];
      }
    }
  }
}
