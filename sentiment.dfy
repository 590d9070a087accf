/**
 * The blend, calibration, clip and labelling that turn the keyword score and
 * the two library signals into `(score, label)`:
 *   - `NewsProcessor.analyze_sentiment` (services/processor/main.py:106-405),
 *     the calibrated configuration, with its exception fallback;
 *   - `analyze_sentiment_enhanced` (local-scripts/2_run_processor.py:48-237),
 *     the plain configuration, where each library failure counts as 0.0.
 * TextBlob's polarity and VADER's compound score are not computed here: each
 * is a parameter saying what the library call returned for this text, or
 * that it raised.
 */
module Sentiment {
  import opened Wrappers
  import opened Text
  import opened Lexicons
  import opened Normalizer
  import opened Scorer

  datatype Label = Positive | Negative | Neutral

  /** What one library call did: returned a number, or raised an exception. */
  datatype Signal = Returned(value: real) | Raised

  /** The `(score, label)` pair both copies return. */
  datatype Verdict = Verdict(score: real, sentiment: Label)

  /**
   * One configuration of the blend: the weights of the keyword score, the
   * TextBlob polarity and the VADER compound, an affine calibration
   * `x * gain + offset`, the clip interval and the two label thresholds.
   */
  datatype Calibration = Calibration(
    keywordWeight: real, textblobWeight: real, vaderWeight: real,
    gain: real, offset: real,
    lo: real, hi: real,
    up: real, down: real)

  /** The service: 65/25/10, then `* 2.5 + 0.26`, clipped to [-0.5, 1.2], labels at 0.30 and 0.22. */
  const Calibrated := Calibration(0.65, 0.25, 0.1, 2.5, 0.26, -0.5, 1.2, 0.30, 0.22)

  /** The script: 70/20/10, no calibration, clipped to [-1, 1], labels at 0.08 and -0.08. */
  const Plain := Calibration(0.7, 0.2, 0.1, 1.0, 0.0, -1.0, 1.0, 0.08, -0.08)

  /** `max(lo, min(hi, x))` */
  function Clip(lo: real, hi: real, x: real): (r: real)
    requires lo <= hi
    ensures lo <= r <= hi
    ensures lo <= x <= hi ==> r == x
    ensures x <= lo ==> r == lo
    ensures hi <= x ==> r == hi
  {
    var m := if hi <= x then hi else x;
    if lo >= m then lo else m
  }

  /** The library path's labels: `>= up` is positive, else `<= down` is negative, else neutral. */
  function InclusiveLabel(up: real, down: real, s: real): (l: Label)
    requires down < up
    ensures l == Positive <==> s >= up
    ensures l == Negative <==> s <= down
    ensures l == Neutral <==> down < s < up
  {
    if s >= up then Positive else if s <= down then Negative else Neutral
  }

  /** The service fallback's labels: `> up` is positive, else `< down` is negative, else neutral. */
  function StrictLabel(up: real, down: real, s: real): (l: Label)
    requires down < up
    ensures l == Positive <==> s > up
    ensures l == Negative <==> s < down
    ensures l == Neutral <==> down <= s <= up
  {
    if s > up then Positive else if s < down then Negative else Neutral
  }

  /** The weighted sum, calibrated and clipped. */
  function Blend(c: Calibration, keywordScore: real, textblob: real, vader: real): (s: real)
    requires c.lo <= c.hi
    ensures c.lo <= s <= c.hi
  {
    var base := keywordScore * c.keywordWeight + textblob * c.textblobWeight + vader * c.vaderWeight;
    Clip(c.lo, c.hi, base * c.gain + c.offset)
  }

  /** The keyword score of a text under one copy's tables: normalise, split, score. */
  function TextKeywordScore(t: Tables, text: string): real {
    KeywordScore(t, Split(NormalizeText(t, text)))
  }

  // The service (services/processor/main.py)

  /** VADER's value as the service reads it: `0.0` when the analyser failed to load. */
  function ServiceVader(siaLoaded: bool, vader: Signal): Signal {
    if siaLoaded then vader else Returned(0.0)
  }

  /** The `try` block raises: VADER (when loaded) or TextBlob threw. */
  predicate ServiceFallsBack(siaLoaded: bool, vader: Signal, textblob: Signal) {
    ServiceVader(siaLoaded, vader).Raised? || textblob.Raised?
  }

  /** The `except` branch: keyword score only, with the service's calibration, clip and thresholds, compared strictly. */
  function ServiceFallback(keywordScore: real): (v: Verdict)
    ensures -0.5 <= v.score <= 1.2
    ensures v.sentiment == StrictLabel(Calibrated.up, Calibrated.down, v.score)
  {
    var c := Calibrated;
    var s := Clip(c.lo, c.hi, keywordScore * c.gain + c.offset);
    Verdict(s, StrictLabel(c.up, c.down, s))
  }

  /** What `NewsProcessor.analyze_sentiment(text)` returns. */
  function ServiceSentiment(text: string, siaLoaded: bool, vader: Signal, textblob: Signal): (v: Verdict)
    ensures text == [] ==> v == Verdict(0.0, Neutral)
    ensures text != [] ==> -0.5 <= v.score <= 1.2
    ensures text != [] && !ServiceFallsBack(siaLoaded, vader, textblob) ==>
      && (v.sentiment == Positive <==> v.score >= 0.30)
      && (v.sentiment == Negative <==> v.score <= 0.22)
    ensures text != [] && ServiceFallsBack(siaLoaded, vader, textblob) ==>
      && (v.sentiment == Positive <==> v.score > 0.30)
      && (v.sentiment == Negative <==> v.score < 0.22)
  {
    if text == [] then Verdict(0.0, Neutral)
    else
      var k := TextKeywordScore(ServiceTables, text);
      var vd := ServiceVader(siaLoaded, vader);
      if vd.Raised? || textblob.Raised? then ServiceFallback(k)
      else
        var s := Blend(Calibrated, k, textblob.value, vd.value);
        Verdict(s, InclusiveLabel(Calibrated.up, Calibrated.down, s))
  }

  /** `NewsProcessor.analyze_sentiment`: runs the scoring loop, then blends. */
  method AnalyzeSentiment(text: string, siaLoaded: bool, vader: Signal, textblob: Signal)
    returns (score: real, sentimentLabel: Label)
    ensures Verdict(score, sentimentLabel) == ServiceSentiment(text, siaLoaded, vader, textblob)
  {
    if text == [] {
      return 0.0, Neutral;
    }
    var keywordScore := ScoreKeywords(ServiceTables, Split(NormalizeText(ServiceTables, text)));
    var vaderCompound := ServiceVader(siaLoaded, vader);
    if vaderCompound.Raised? || textblob.Raised? {
      var c := Calibrated;
      var amplified := Clip(c.lo, c.hi, keywordScore * c.gain + c.offset);
      score := amplified;
      sentimentLabel := StrictLabel(c.up, c.down, amplified);
    } else {
      score := Blend(Calibrated, keywordScore, textblob.value, vaderCompound.value);
      sentimentLabel := InclusiveLabel(Calibrated.up, Calibrated.down, score);
    }
  }

  /**
   * The service's label is not a function of its score: a non-empty text whose
   * blend lands on 0.0 is labelled negative, the empty text gets 0.0 and neutral.
   */
  lemma ServiceZeroScoreLabels()
    ensures ServiceSentiment("x", true, Returned(0.0), Returned(-0.416)) == Verdict(0.0, Negative)
    ensures ServiceSentiment("", true, Returned(0.0), Returned(-0.416)) == Verdict(0.0, Neutral)
  {
    assert !IsSpace('x') && WordLen("x") == 1;
    assert "x"[..1] == "x" && "x"[1..] == [];
    assert Split("x") == ["x"];
    assert Fold("x") == "x";
    assert NormalizeText(ServiceTables, "x") == "x";
    assert Entry(ServiceTables, "x") == None;
    assert Scores(ServiceTables, ["x"], 1) == [];
  }

  /** With every library call succeeding, a score of exactly 0.30 is positive on the library path, neutral on the fallback. */
  lemma ServiceThresholdPathsDiffer(k: real)
    requires k * 2.5 + 0.26 == 0.30
    ensures ServiceFallback(k) == Verdict(0.30, Neutral)
    ensures InclusiveLabel(Calibrated.up, Calibrated.down, 0.30) == Positive
  {
  }

  // The script (local-scripts/2_run_processor.py)

  /** `try: x = call() except: x = 0.0` */
  function OrZero(s: Signal): (x: real)
    ensures s.Returned? ==> x == s.value
    ensures s.Raised? ==> x == 0.0
  {
    match s
    case Returned(x) => x
    case Raised => 0.0
  }

  /** The script's labels, thresholds at +-0.08. */
  function PlainLabel(s: real): Label {
    InclusiveLabel(Plain.up, Plain.down, s)
  }

  /** What `analyze_sentiment_enhanced(text)` returns. */
  function ScriptSentiment(text: string, vader: Signal, textblob: Signal): (v: Verdict)
    ensures -1.0 <= v.score <= 1.0
    ensures v.sentiment == PlainLabel(v.score)
    ensures text == [] ==> v == Verdict(0.0, Neutral)
  {
    if text == [] then Verdict(0.0, Neutral)
    else
      var s := Blend(Plain, TextKeywordScore(ScriptTables, text), OrZero(textblob), OrZero(vader));
      Verdict(s, PlainLabel(s))
  }

  /** `analyze_sentiment_enhanced`: runs the scoring loop, then blends. */
  method AnalyzeSentimentEnhanced(text: string, vader: Signal, textblob: Signal)
    returns (score: real, sentimentLabel: Label)
    ensures Verdict(score, sentimentLabel) == ScriptSentiment(text, vader, textblob)
  {
    if text == [] {
      return 0.0, Neutral;
    }
    var keywordScore := ScoreKeywords(ScriptTables, Split(NormalizeText(ScriptTables, text)));
    var vaderCompound := OrZero(vader);
    var textblobPolarity := OrZero(textblob);
    score := Blend(Plain, keywordScore, textblobPolarity, vaderCompound);
    sentimentLabel := PlainLabel(score);
  }

  /** A failing library is read as 0.0, whatever the other one does. */
  lemma ScriptFailureIsZero(text: string, vader: Signal, textblob: Signal)
    ensures ScriptSentiment(text, Raised, textblob) == ScriptSentiment(text, Returned(0.0), textblob)
    ensures ScriptSentiment(text, vader, Raised) == ScriptSentiment(text, vader, Returned(0.0))
  {
  }

  /** The script's score never decreases when the keyword score grows (the weights are positive). */
  lemma ScriptBlendMonotone(k1: real, k2: real, tb: real, vd: real)
    requires k1 <= k2
    ensures Blend(Plain, k1, tb, vd) <= Blend(Plain, k2, tb, vd)
  {
  }

  /** Nor does the service's, on either path. */
  lemma ServiceBlendMonotone(k1: real, k2: real, tb: real, vd: real)
    requires k1 <= k2
    ensures Blend(Calibrated, k1, tb, vd) <= Blend(Calibrated, k2, tb, vd)
    ensures ServiceFallback(k1).score <= ServiceFallback(k2).score
  {
  }
}
