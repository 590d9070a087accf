/**
 * `normalize_text`: lower-case, strip accents, split on whitespace, rewrite
 * each token through the lemma table, join with single spaces. The two copies
 * (services/processor/main.py:69-100, local-scripts/2_run_processor.py:11-46)
 * differ only in their lemma tables.
 */
module Normalizer {
  import opened Text
  import opened Lexicons

  /** `[lemmatization_rules.get(w, w) for w in words]` */
  function Lemmatize(t: Tables, ws: seq<string>): (r: seq<string>)
    ensures |r| == |ws|
    ensures forall k :: 0 <= k < |ws| ==> r[k] == t.lemmatize(ws[k])
  {
    seq(|ws|, k requires 0 <= k < |ws| => t.lemmatize(ws[k]))
  }

  /** Lower-casing followed by accent stripping, in the source's order. */
  function Fold(text: string): string {
    StripAccents(Lower(text))
  }

  /** `normalize_text(text)` */
  function NormalizeText(t: Tables, text: string): string {
    Join(Lemmatize(t, Split(Fold(text))))
  }

  /**
   * What the normaliser's properties need of a lemma table: it maps folded
   * words to folded words, and no value it produces is itself rewritten.
   */
  ghost predicate LemmaTableSound(t: Tables) {
    && (forall w :: IsFoldedWord(w) ==> IsFoldedWord(t.lemmatize(w)))
    && (forall w :: t.lemmatize(t.lemmatize(w)) == t.lemmatize(w))
  }

  lemma FoldIsFolded(text: string)
    ensures AllFolded(Fold(text))
  {
    StripLowerFolded(Lower(text));
  }

  /** The tokens of a folded string are folded words. */
  lemma TokensOfFolded(s: string)
    requires AllFolded(s)
    ensures forall k :: 0 <= k < |Split(s)| ==> IsFoldedWord(Split(s)[k])
  {
    forall k, i | 0 <= k < |Split(s)| && 0 <= i < |Split(s)[k]|
      ensures IsFolded(Split(s)[k][i])
    {
      SplitPieces(s, k, Split(s)[k][i]);
    }
  }

  /** The normalised text re-splits into exactly the rewritten tokens of the folded input. */
  lemma NormalizedTokens(t: Tables, text: string)
    requires LemmaTableSound(t)
    ensures Split(NormalizeText(t, text)) == Lemmatize(t, Split(Fold(text)))
    ensures forall k :: 0 <= k < |Split(NormalizeText(t, text))| ==> IsFoldedWord(Split(NormalizeText(t, text))[k])
  {
    FoldIsFolded(text);
    TokensOfFolded(Fold(text));
    SplitJoin(Lemmatize(t, Split(Fold(text))));
  }

  /**
   * Normalising keeps the number of whitespace-separated tokens of a text
   * without combining marks. The requires is only a sufficient condition: a
   * token disappears only when it consists solely of combining marks.
   */
  lemma TokenCount(t: Tables, text: string)
    requires LemmaTableSound(t)
    requires forall i :: 0 <= i < |text| ==> !IsCombiningMark(text[i])
    ensures |Split(NormalizeText(t, text))| == |Split(text)|
  {
    NormalizedTokens(t, text);
    assert Lower(text) == MapChars(LowerChar, text);
    SplitMapChars(LowerChar, text);
    StripAccentsIsMap(Lower(text));
    SplitMapChars(BaseChar, Lower(text));
  }

  /** Normalising twice is normalising once. */
  lemma NormalizeIdempotent(t: Tables, text: string)
    requires LemmaTableSound(t)
    ensures NormalizeText(t, NormalizeText(t, text)) == NormalizeText(t, text)
  {
    var once := NormalizeText(t, text);
    NormalizedTokens(t, text);
    JoinFolded(Split(once));
    FoldFixesFolded(once);
    assert Fold(once) == once;
    assert Lemmatize(t, Split(once)) == Split(once);
  }

  /** No token of normalised text is a key the lemma table rewrites. */
  lemma RewrittenKeyUnreachable(t: Tables, text: string, key: string)
    requires LemmaTableSound(t)
    requires t.lemmatize(key) != key
    ensures key !in Split(NormalizeText(t, text))
  {
    NormalizedTokens(t, text);
  }

  /** No token of normalised text holds a capital, an accented letter or a combining mark. */
  lemma UnfoldedKeyUnreachable(t: Tables, text: string, key: string)
    requires LemmaTableSound(t)
    requires !IsFoldedWord(key)
    ensures key !in Split(NormalizeText(t, text))
  {
    NormalizedTokens(t, text);
  }
}
