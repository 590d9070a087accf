/**
 * The keyword scorer: the `while i < len(words)` loop of
 * `NewsProcessor.analyze_sentiment` (services/processor/main.py:330-363) and
 * of `analyze_sentiment_enhanced` (local-scripts/2_run_processor.py:169-205),
 * one algorithm run with either copy's `Tables`.
 *
 * For token i: the token at i-1 may be an intensifier (its multiplier scales
 * the hit, otherwise 1.0); a negation word at i-1 or at i-2 flips the sign;
 * the token is looked up in the positive lexicon and only when absent there
 * in the negative one; a hit appends `weight * multiplier`, sign-flipped when
 * negated, to `scores`, and the keyword score is `sum(scores)`.
 */
module Scorer {
  import opened Wrappers
  import opened Lexicons

  /** The multiplier that applies at position i: the intensifier at i-1, or 1.0. */
  function Multiplier(t: Tables, ws: seq<string>, i: nat): real
    requires i < |ws|
  {
    if i > 0 && t.intensifier(ws[i - 1]).Some? then t.intensifier(ws[i - 1]).value else 1.0
  }

  /** A negation word stands one or two tokens before position i. */
  predicate Negated(t: Tables, ws: seq<string>, i: nat)
    requires i < |ws|
  {
    (i > 0 && t.isNegation(ws[i - 1])) || (i > 1 && t.isNegation(ws[i - 2]))
  }

  /** The lexicon weight of a token: the positive table is consulted first (`if ... elif`). */
  function Entry(t: Tables, w: string): Option<real> {
    if t.positive(w).Some? then t.positive(w) else t.negative(w)
  }

  /** The term position i appends to `scores`, if its token is a lexicon hit. */
  function Term(t: Tables, ws: seq<string>, i: nat): Option<real>
    requires i < |ws|
  {
    var e := Entry(t, ws[i]);
    if e.None? then None
    else if Negated(t, ws, i) then Some(-(e.value * Multiplier(t, ws, i)))
    else Some(e.value * Multiplier(t, ws, i))
  }

  /** What position i adds to the keyword score (0.0 when it appends nothing). */
  function Contribution(t: Tables, ws: seq<string>, i: nat): real
    requires i < |ws|
  {
    match Term(t, ws, i)
    case None => 0.0
    case Some(s) => s
  }

  /** The `scores` list once the loop has visited the first n tokens. */
  function Scores(t: Tables, ws: seq<string>, n: nat): seq<real>
    requires n <= |ws|
  {
    if n == 0 then []
    else
      Scores(t, ws, n - 1) + match Term(t, ws, n - 1) case None => [] case Some(s) => [s]
  }

  /** Python's `sum(xs)`: a left-to-right sum starting at 0. */
  function Sum(xs: seq<real>): real {
    if xs == [] then 0.0 else Sum(xs[..|xs| - 1]) + xs[|xs| - 1]
  }

  /** `keyword_score = sum(scores)` after the loop. */
  function KeywordScore(t: Tables, ws: seq<string>): real {
    Sum(Scores(t, ws, |ws|))
  }

  /** The loop of the source, token by token. */
  method ScoreKeywords(t: Tables, words: seq<string>) returns (keywordScore: real)
    ensures keywordScore == KeywordScore(t, words)
  {
    var scores: seq<real> := [];
    var i := 0;
    while i < |words|
      invariant 0 <= i <= |words|
      invariant scores == Scores(t, words, i)
    {
      var word := words[i];
      var intensifier := 1.0;
      var isNegated := false;
      if i > 0 && t.intensifier(words[i - 1]).Some? {
        intensifier := t.intensifier(words[i - 1]).value;
      }
      if i > 0 && t.isNegation(words[i - 1]) {
        isNegated := true;
      } else if i > 1 && t.isNegation(words[i - 2]) {
        isNegated := true;
      }
      assert intensifier == Multiplier(t, words, i) && isNegated == Negated(t, words, i);
      if t.positive(word).Some? {
        var score := t.positive(word).value * intensifier;
        if isNegated {
          score := -score;
        }
        assert Term(t, words, i).Some? && Term(t, words, i).value == score;
        scores := scores + [score];
      } else if t.negative(word).Some? {
        var score := t.negative(word).value * intensifier;
        if isNegated {
          score := -score;
        }
        assert Term(t, words, i).Some? && Term(t, words, i).value == score;
        scores := scores + [score];
      }
      assert scores == Scores(t, words, i + 1);
      i := i + 1;
    }
    keywordScore := Sum(scores);
  }

  /** Sum over the first n positions of what each contributes. */
  function ContributionSum(t: Tables, ws: seq<string>, n: nat): real
    requires n <= |ws|
  {
    if n == 0 then 0.0 else ContributionSum(t, ws, n - 1) + Contribution(t, ws, n - 1)
  }

  /** The number of lexicon hits among the first n positions. */
  function Hits(t: Tables, ws: seq<string>, n: nat): nat
    requires n <= |ws|
  {
    if n == 0 then 0 else Hits(t, ws, n - 1) + (if Entry(t, ws[n - 1]).Some? then 1 else 0)
  }

  /**
   * Each token adds at most one term: `scores` holds exactly one term per
   * lexicon hit, and the keyword score is the sum of the per-position
   * contributions.
   */
  lemma {:induction false} ScoresPerToken(t: Tables, ws: seq<string>, n: nat)
    requires n <= |ws|
    ensures |Scores(t, ws, n)| == Hits(t, ws, n) <= n
    ensures Sum(Scores(t, ws, n)) == ContributionSum(t, ws, n)
  {
    if n > 0 {
      ScoresPerToken(t, ws, n - 1);
      var prev, cur := Scores(t, ws, n - 1), Scores(t, ws, n);
      match Term(t, ws, n - 1)
      case None =>
        assert cur == prev;
      case Some(s) =>
        assert cur == prev + [s];
        assert cur[..|cur| - 1] == prev;
        assert Sum(cur) == Sum(prev) + s;
    }
  }

  /** A token that is in no lexicon contributes nothing, whatever precedes it. */
  lemma NonHitContributesNothing(t: Tables, ws: seq<string>, i: nat)
    requires i < |ws|
    requires t.positive(ws[i]).None? && t.negative(ws[i]).None?
    ensures Contribution(t, ws, i) == 0.0
  {
  }

  /** A negation word right before a hit flips its sign (`"no t"` against `"t"`). */
  lemma NegationFlipsSign(t: Tables, neg: string, w: string)
    requires t.isNegation(neg) && t.intensifier(neg).None?
    ensures Contribution(t, [neg, w], 1) == -Contribution(t, [w], 0)
  {
  }

  /** Negation two tokens back has the same effect as right before: no decay with distance. */
  lemma NegationDoesNotDecay(t: Tables, neg: string, x: string, w: string)
    requires t.isNegation(neg) && t.intensifier(neg).None?
    requires t.intensifier(x).None?
    ensures Contribution(t, [neg, x, w], 2) == Contribution(t, [neg, w], 1)
  {
  }

  /** Two negations before a hit flip it once, not twice. */
  lemma NegationsDoNotCancel(t: Tables, n1: string, n2: string, w: string)
    requires t.isNegation(n1) && t.isNegation(n2) && t.intensifier(n2).None?
    ensures Contribution(t, [n1, n2, w], 2) == -Contribution(t, [w], 0)
  {
  }

  /** An intensifier right before a hit scales it by its multiplier (`"muy t"` against `"t"`). */
  lemma IntensifierScales(t: Tables, a: string, w: string)
    requires t.intensifier(a).Some? && !t.isNegation(a)
    ensures Contribution(t, [a, w], 1) == t.intensifier(a).value * Contribution(t, [w], 0)
  {
  }

  /** A negation two back and an intensifier right before give `-(w * m)`. */
  lemma NegatedAndIntensified(t: Tables, neg: string, a: string, w: string)
    requires t.isNegation(neg) && t.intensifier(a).Some? && !t.isNegation(a)
    ensures Contribution(t, [neg, a, w], 2) == -(t.intensifier(a).value * Contribution(t, [w], 0))
  {
  }

  /** A token that modifies the next ones: a negation or an intensifier. */
  predicate IsModifier(t: Tables, w: string) {
    t.isNegation(w) || t.intensifier(w).Some?
  }

  /** Position i of `a + b` sees the same window as position i - |a| of `b` when `a`'s tail modifies nothing. */
  lemma ContributionShift(t: Tables, a: seq<string>, b: seq<string>, j: nat)
    requires j < |b|
    requires |a| >= 1 ==> !IsModifier(t, a[|a| - 1])
    requires |a| >= 2 ==> !t.isNegation(a[|a| - 2])
    ensures Contribution(t, a + b, |a| + j) == Contribution(t, b, j)
  {
    var ab := a + b;
    assert ab[|a| + j] == b[j];
    if j >= 1 {
      assert ab[|a| + j - 1] == b[j - 1];
    }
    if j >= 2 {
      assert ab[|a| + j - 2] == b[j - 2];
    }
    if j == 1 && |a| >= 1 {
      assert ab[|a| + j - 2] == a[|a| - 1];
    }
    if j == 0 && |a| >= 1 {
      assert ab[|a| - 1] == a[|a| - 1];
    }
    if j == 0 && |a| >= 2 {
      assert ab[|a| - 2] == a[|a| - 2];
    }
  }

  /** Positions inside `a` do not look past its end. */
  lemma ContributionPrefix(t: Tables, a: seq<string>, b: seq<string>, i: nat)
    requires i < |a|
    ensures Contribution(t, a + b, i) == Contribution(t, a, i)
  {
    var ab := a + b;
    assert ab[i] == a[i];
    if i >= 1 {
      assert ab[i - 1] == a[i - 1];
    }
    if i >= 2 {
      assert ab[i - 2] == a[i - 2];
    }
  }

  lemma {:induction false} ContributionSumConcat(t: Tables, a: seq<string>, b: seq<string>, n: nat)
    requires n <= |b|
    requires |a| >= 1 ==> !IsModifier(t, a[|a| - 1])
    requires |a| >= 2 ==> !t.isNegation(a[|a| - 2])
    ensures ContributionSum(t, a + b, |a| + n) == ContributionSum(t, a, |a|) + ContributionSum(t, b, n)
  {
    if n == 0 {
      ContributionSumPrefix(t, a, b, |a|);
    } else {
      ContributionSumConcat(t, a, b, n - 1);
      ContributionShift(t, a, b, n - 1);
    }
  }

  lemma {:induction false} ContributionSumPrefix(t: Tables, a: seq<string>, b: seq<string>, n: nat)
    requires n <= |a|
    ensures ContributionSum(t, a + b, n) == ContributionSum(t, a, n)
  {
    if n > 0 {
      ContributionSumPrefix(t, a, b, n - 1);
      ContributionPrefix(t, a, b, n - 1);
    }
  }

  /**
   * Scoring is additive across a boundary that no modifier reaches over: when
   * the last token of `a` is neither a negation nor an intensifier and the one
   * before it is not a negation, `a + b` scores what `a` and `b` score apart.
   */
  lemma ScoreConcat(t: Tables, a: seq<string>, b: seq<string>)
    requires |a| >= 1 ==> !IsModifier(t, a[|a| - 1])
    requires |a| >= 2 ==> !t.isNegation(a[|a| - 2])
    ensures KeywordScore(t, a + b) == KeywordScore(t, a) + KeywordScore(t, b)
  {
    ScoresPerToken(t, a + b, |a + b|);
    ScoresPerToken(t, a, |a|);
    ScoresPerToken(t, b, |b|);
    ContributionSumConcat(t, a, b, |b|);
  }
}
