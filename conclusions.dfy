/**
 * The conclusion rules of local-scripts/generar_conclusiones.py (86-191):
 * threshold tables that turn the aggregate news and COLCAP figures into a
 * tone, a trend, volatility bands, interpretation notes and recommendations.
 *
 * The figures come from SQL aggregates: counts are naturals, and an `AVG` or
 * `STDDEV` over no rows is `NULL`, here `None`. Python's truthiness is kept:
 * `None` and zero are false. Comparing `None` with a number raises
 * `TypeError`, which is the `Err` of a `Result`. The formatted sentences are
 * represented by an enum and the figures the rules decide on; the figures a
 * sentence merely quotes (day count, average, deviation, best and worst day,
 * the raw counts) are dropped.
 */
module Conclusions {
  import opened Wrappers

  /** The one exception these rules can raise. */
  datatype PyError = TypeError

  /** Python's truth value of an aggregate: `None` and 0 are false. */
  predicate Truthy(x: Option<real>) {
    x.Some? && x.value != 0.0
  }

  /** `count / total * 100 if total > 0 else 0` */
  function Percent(count: nat, total: nat): (p: real)
    ensures total == 0 ==> p == 0.0
    ensures total > 0 ==> p * (total as real) == (count as real) * 100.0
    ensures 0.0 <= p
    ensures count <= total ==> p <= 100.0
  {
    if total > 0 then (count as real) / (total as real) * 100.0 else 0.0
  }

  // generar_resumen_general

  /** The three percentages `generar_resumen_general` reports. */
  datatype Summary = Summary(pctPositive: real, pctNegative: real, pctNeutral: real)

  function GenerarResumenGeneral(total: nat, positivas: nat, negativas: nat, neutrales: nat): (s: Summary)
    ensures total == 0 ==> s == Summary(0.0, 0.0, 0.0)
    ensures total > 0 ==>
      && s.pctPositive * (total as real) == (positivas as real) * 100.0
      && s.pctNegative * (total as real) == (negativas as real) * 100.0
      && s.pctNeutral * (total as real) == (neutrales as real) * 100.0
  {
    Summary(Percent(positivas, total), Percent(negativas, total), Percent(neutrales, total))
  }

  /** When every article carries one of the three labels, the percentages add up to 100. */
  lemma SummaryAddsUp(total: nat, positivas: nat, negativas: nat, neutrales: nat)
    requires total > 0 && positivas + negativas + neutrales == total
    ensures var s := GenerarResumenGeneral(total, positivas, negativas, neutrales);
      s.pctPositive + s.pctNegative + s.pctNeutral == 100.0
  {
    var s := GenerarResumenGeneral(total, positivas, negativas, neutrales);
    var t := total as real;
    var a, b, c := s.pctPositive, s.pctNegative, s.pctNeutral;
    var p, n, u := positivas as real, negativas as real, neutrales as real;
    assert a * t == p * 100.0 && b * t == n * 100.0 && c * t == u * 100.0;
    calc {
      (a + b + c) * t;
      a * t + b * t + c * t;
      p * 100.0 + n * 100.0 + u * 100.0;
      (p + n + u) * 100.0;
      { assert p + n + u == t; }
      100.0 * t;
    }
    CancelFactor(a + b + c, 100.0, t);
  }

  lemma CancelFactor(x: real, y: real, t: real)
    requires t != 0.0 && x * t == y * t
    ensures x == y
  {
    assert (x - y) * t == 0.0;
  }

  // analizar_sentimiento

  datatype Tone = NegativeTone | PositiveTone | NeutralTone

  /** A volatility band: `alta`/`ALTA`, `moderada`/`MODERADA`, `baja`/`BAJA`. */
  datatype Band = High | Moderate | Low

  /** What `analizar_sentimiento` reports: no data, or a tone, a volatility band and whether the negative share is worrying. */
  datatype SentimentReport =
    | NoSentimentData
    | SentimentReport(tone: Tone, volatility: Band, pctNegative: real, concern: bool)

  /** The tone of an average score: below -0.1 negative, above 0.1 positive, neutral in between. */
  function ToneOf(avg: real): (t: Tone)
    ensures t == NegativeTone <==> avg < -0.1
    ensures t == PositiveTone <==> avg > 0.1
    ensures t == NeutralTone <==> -0.1 <= avg <= 0.1
  {
    if avg < -0.1 then NegativeTone else if avg > 0.1 then PositiveTone else NeutralTone
  }

  /** The sentiment volatility band: `alta` above 0.3, `moderada` above 0.15, otherwise (also for `None`) `baja`. */
  function SentimentBand(std: Option<real>): (b: Band)
    ensures b == High <==> std.Some? && std.value > 0.3
    ensures b == Moderate <==> std.Some? && 0.15 < std.value <= 0.3
    ensures b == Low <==> std.None? || std.value <= 0.15
  {
    if Truthy(std) && std.value > 0.3 then High
    else if Truthy(std) && std.value > 0.15 then Moderate
    else Low
  }

  function AnalizarSentimiento(positivas: nat, negativas: nat, neutrales: nat, total: nat,
                               avgSent: Option<real>, stdSent: Option<real>): (r: Result<SentimentReport, PyError>)
    ensures r == Ok(NoSentimentData) <==> total == 0
    ensures r.Err? <==> total > 0 && avgSent.None?
    ensures r.Ok? && r.value.SentimentReport? ==>
      && r.value.tone == ToneOf(avgSent.value)
      && r.value.volatility == SentimentBand(stdSent)
      && r.value.pctNegative * (total as real) == (negativas as real) * 100.0
      && (r.value.concern <==> r.value.pctNegative > 25.0)
  {
    if total == 0 then Ok(NoSentimentData)
    else if avgSent.None? then Err(TypeError)
    else
      var pctNeg := Percent(negativas, total);
      Ok(SentimentReport(ToneOf(avgSent.value), SentimentBand(stdSent), pctNeg, pctNeg > 25.0))
  }

  // analizar_colcap

  datatype Trend = Rising | Falling | Sideways

  /** What `analizar_colcap` reports: no data, or a trend and a volatility band. */
  datatype ColcapReport = NoColcapData | ColcapReport(trend: Trend, volatility: Band)

  /** The index trend: `ALCISTA` above 0.5, `BAJISTA` below -0.5, `LATERAL` otherwise. */
  function TrendOf(change: real): (t: Trend)
    ensures t == Rising <==> change > 0.5
    ensures t == Falling <==> change < -0.5
    ensures t == Sideways <==> -0.5 <= change <= 0.5
  {
    if change > 0.5 then Rising else if change < -0.5 then Falling else Sideways
  }

  /** The index volatility band: `ALTA` above 2.0, `MODERADA` above 1.0, otherwise (also for `None`) `BAJA`. */
  function ColcapBand(volatilidad: Option<real>): (b: Band)
    ensures b == High <==> volatilidad.Some? && volatilidad.value > 2.0
    ensures b == Moderate <==> volatilidad.Some? && 1.0 < volatilidad.value <= 2.0
    ensures b == Low <==> volatilidad.None? || volatilidad.value <= 1.0
  {
    if Truthy(volatilidad) && volatilidad.value > 2.0 then High
    else if Truthy(volatilidad) && volatilidad.value > 1.0 then Moderate
    else Low
  }

  /** A missing or exactly zero average change counts as no data. */
  function AnalizarColcap(avgChange: Option<real>, volatilidad: Option<real>): (r: ColcapReport)
    ensures r == NoColcapData <==> avgChange.None? || avgChange.value == 0.0
    ensures r.ColcapReport? ==> r.trend == TrendOf(avgChange.value) && r.volatility == ColcapBand(volatilidad)
  {
    if !Truthy(avgChange) then NoColcapData
    else ColcapReport(TrendOf(avgChange.value), ColcapBand(volatilidad))
  }

  // generar_interpretacion

  /** One interpretation sentence; the two distribution notes quote their percentage. */
  datatype Note =
    | CoherentFall | CoherentRise | DivergentRise | DivergentFall
    | Alert(pctNegative: real) | Optimism(pctPositive: real)
    | Equilibrium

  /** The coherence/divergence note, comparing the sign of the sentiment (beyond +-0.05) with the sign of the index change. */
  function CoherenceNote(avgSent: real, avgChange: Option<real>): (n: Option<Note>)
    ensures n == Some(CoherentFall) <==> avgSent < -0.05 && avgChange.Some? && avgChange.value < 0.0
    ensures n == Some(CoherentRise) <==> avgSent > 0.05 && avgChange.Some? && avgChange.value > 0.0
    ensures n == Some(DivergentRise) <==> avgSent < -0.05 && avgChange.Some? && avgChange.value > 0.0
    ensures n == Some(DivergentFall) <==> avgSent > 0.05 && avgChange.Some? && avgChange.value < 0.0
    ensures n.None? <==> -0.05 <= avgSent <= 0.05 || avgChange.None? || avgChange.value == 0.0
  {
    if avgSent < -0.05 && Truthy(avgChange) && avgChange.value < 0.0 then Some(CoherentFall)
    else if avgSent > 0.05 && Truthy(avgChange) && avgChange.value > 0.0 then Some(CoherentRise)
    else if avgSent < -0.05 && Truthy(avgChange) && avgChange.value > 0.0 then Some(DivergentRise)
    else if avgSent > 0.05 && Truthy(avgChange) && avgChange.value < 0.0 then Some(DivergentFall)
    else None
  }

  /** The distribution note: an alert above 30% negative, which takes precedence over optimism above 20% positive. */
  function DistributionNote(pctNeg: real, pctPos: real): (n: Option<Note>)
    ensures n == Some(Alert(pctNeg)) <==> pctNeg > 30.0
    ensures n == Some(Optimism(pctPos)) <==> pctNeg <= 30.0 && pctPos > 20.0
    ensures n.None? <==> pctNeg <= 30.0 && pctPos <= 20.0
  {
    if pctNeg > 30.0 then Some(Alert(pctNeg))
    else if pctPos > 20.0 then Some(Optimism(pctPos))
    else None
  }

  /** An optional item as a list of zero or one. */
  function AsSeq<T>(o: Option<T>): (s: seq<T>)
    ensures o.Some? ==> s == [o.value]
    ensures o.None? ==> s == []
  {
    if o.Some? then [o.value] else []
  }

  /** The notes a coherence note and a distribution note make, or the equilibrium sentence when there are none. */
  function Notes(coherence: Option<Note>, distribution: Option<Note>): seq<Note> {
    var lines := AsSeq(coherence) + AsSeq(distribution);
    if lines == [] then [Equilibrium] else lines
  }

  /** What `generar_interpretacion` returns, its lines as notes; comparing a `None` average sentiment raises. */
  function Interpretation(avgSent: Option<real>, avgChange: Option<real>, positivas: nat, negativas: nat, total: nat)
    : Result<seq<Note>, PyError>
  {
    if avgSent.None? then Err(TypeError)
    else Ok(Notes(CoherenceNote(avgSent.value, avgChange), DistributionNote(Percent(negativas, total), Percent(positivas, total))))
  }

  /** `generar_interpretacion`: the coherence chain and the distribution chain each append at most once. */
  method GenerarInterpretacion(avgSent: Option<real>, avgChange: Option<real>, positivas: nat, negativas: nat, total: nat)
    returns (r: Result<seq<Note>, PyError>)
    ensures r == Interpretation(avgSent, avgChange, positivas, negativas, total)
  {
    var pctNeg := Percent(negativas, total);
    var pctPos := Percent(positivas, total);
    if avgSent.None? {
      return Err(TypeError);
    }
    var s := avgSent.value;
    var interpretacion: seq<Note> := [];
    if s < -0.05 && Truthy(avgChange) && avgChange.value < 0.0 {
      interpretacion := interpretacion + [CoherentFall];
    } else if s > 0.05 && Truthy(avgChange) && avgChange.value > 0.0 {
      interpretacion := interpretacion + [CoherentRise];
    } else if s < -0.05 && Truthy(avgChange) && avgChange.value > 0.0 {
      interpretacion := interpretacion + [DivergentRise];
    } else if s > 0.05 && Truthy(avgChange) && avgChange.value < 0.0 {
      interpretacion := interpretacion + [DivergentFall];
    }
    assert interpretacion == AsSeq(CoherenceNote(s, avgChange));
    if pctNeg > 30.0 {
      interpretacion := interpretacion + [Alert(pctNeg)];
    } else if pctPos > 20.0 {
      interpretacion := interpretacion + [Optimism(pctPos)];
    }
    assert interpretacion == AsSeq(CoherenceNote(s, avgChange)) + AsSeq(DistributionNote(pctNeg, pctPos));
    if interpretacion == [] {
      interpretacion := [Equilibrium];
    }
    r := Ok(interpretacion);
  }

  predicate IsCoherenceNote(n: Note) {
    n.CoherentFall? || n.CoherentRise? || n.DivergentRise? || n.DivergentFall?
  }

  predicate IsDistributionNote(n: Note) {
    n.Alert? || n.Optimism?
  }

  /**
   * One or two notes: at most one coherence/divergence note, then at most one
   * distribution note, and the equilibrium sentence exactly when neither applies.
   */
  lemma NotesShape(coherence: Option<Note>, distribution: Option<Note>)
    requires coherence.Some? ==> IsCoherenceNote(coherence.value)
    requires distribution.Some? ==> IsDistributionNote(distribution.value)
    ensures var ns := Notes(coherence, distribution);
      && 1 <= |ns| <= 2
      && (forall i, j :: 0 <= i < j < |ns| && IsCoherenceNote(ns[i]) ==> !IsCoherenceNote(ns[j]))
      && (forall i, j :: 0 <= i < j < |ns| && IsDistributionNote(ns[i]) ==> !IsDistributionNote(ns[j]))
      && (Equilibrium in ns <==> ns == [Equilibrium])
      && (ns == [Equilibrium] <==> coherence.None? && distribution.None?)
  {
  }

  /**
   * `generar_interpretacion` raises exactly when the average sentiment is
   * `None`; otherwise it gives one or two notes, at most one of each kind, the
   * alert whenever more than 30% are negative, and the equilibrium sentence
   * exactly when the signs neither agree nor disagree and the distribution is
   * unremarkable.
   */
  lemma InterpretationShape(avgSent: Option<real>, avgChange: Option<real>, positivas: nat, negativas: nat, total: nat)
    ensures var r := Interpretation(avgSent, avgChange, positivas, negativas, total);
      && (r.Err? <==> avgSent.None?)
      && (r.Ok? ==>
        && 1 <= |r.value| <= 2
        && (forall i, j :: 0 <= i < j < |r.value| && IsCoherenceNote(r.value[i]) ==> !IsCoherenceNote(r.value[j]))
        && (forall i, j :: 0 <= i < j < |r.value| && IsDistributionNote(r.value[i]) ==> !IsDistributionNote(r.value[j]))
        && (Percent(negativas, total) > 30.0 <==> Alert(Percent(negativas, total)) in r.value)
        && (r.value == [Equilibrium] <==>
              (-0.05 <= avgSent.value <= 0.05 || !Truthy(avgChange))
              && Percent(negativas, total) <= 30.0 && Percent(positivas, total) <= 20.0))
  {
    if avgSent.Some? {
      var c := CoherenceNote(avgSent.value, avgChange);
      var d := DistributionNote(Percent(negativas, total), Percent(positivas, total));
      NotesShape(c, d);
      var ns := Notes(c, d);
      if Alert(Percent(negativas, total)) in ns {
        var k :| 0 <= k < |ns| && ns[k] == Alert(Percent(negativas, total));
        assert ns == AsSeq(c) + AsSeq(d);
        if k < |AsSeq(c)| {
          assert AsSeq(c)[k] == ns[k];
        } else {
          assert AsSeq(d)[k - |AsSeq(c)|] == ns[k];
        }
      }
    }
  }

  // generar_recomendaciones

  /** One recommendation. */
  datatype Advice =
    | HighVolatility
    | DefensiveSentiment | ConfidentSentiment
    | StrongUptrend | Downtrend
    | StableMarket

  /** The volatility item: above 2.0. */
  function VolatilityAdvice(volatilidad: Option<real>): (a: Option<Advice>)
    ensures a.Some? <==> volatilidad.Some? && volatilidad.value > 2.0
    ensures a.Some? ==> a.value == HighVolatility
  {
    if Truthy(volatilidad) && volatilidad.value > 2.0 then Some(HighVolatility) else None
  }

  /** The sentiment item: below -0.15 defensive, above 0.15 confident. */
  function SentimentAdvice(avgSent: real): (a: Option<Advice>)
    ensures a == Some(DefensiveSentiment) <==> avgSent < -0.15
    ensures a == Some(ConfidentSentiment) <==> avgSent > 0.15
    ensures a.None? <==> -0.15 <= avgSent <= 0.15
  {
    if avgSent < -0.15 then Some(DefensiveSentiment)
    else if avgSent > 0.15 then Some(ConfidentSentiment)
    else None
  }

  /** The trend item: above 0.5 a strong uptrend, below -0.5 a downtrend. */
  function TrendAdvice(avgChange: Option<real>): (a: Option<Advice>)
    ensures a == Some(StrongUptrend) <==> avgChange.Some? && avgChange.value > 0.5
    ensures a == Some(Downtrend) <==> avgChange.Some? && avgChange.value < -0.5
    ensures a.None? <==> avgChange.None? || -0.5 <= avgChange.value <= 0.5
  {
    if Truthy(avgChange) && avgChange.value > 0.5 then Some(StrongUptrend)
    else if Truthy(avgChange) && avgChange.value < -0.5 then Some(Downtrend)
    else None
  }

  /** The items in order, or the stable-market item when there are none. */
  function Advices(v: Option<Advice>, s: Option<Advice>, t: Option<Advice>): seq<Advice> {
    var items := AsSeq(v) + AsSeq(s) + AsSeq(t);
    if items == [] then [StableMarket] else items
  }

  /** What `generar_recomendaciones` returns; comparing a `None` average sentiment raises. */
  function Recommendations(avgSent: Option<real>, avgChange: Option<real>, volatilidad: Option<real>)
    : Result<seq<Advice>, PyError>
  {
    if avgSent.None? then Err(TypeError)
    else Ok(Advices(VolatilityAdvice(volatilidad), SentimentAdvice(avgSent.value), TrendAdvice(avgChange)))
  }

  /** `generar_recomendaciones`: three independent checks, each appending at most once, then the fallback item. */
  method GenerarRecomendaciones(avgSent: Option<real>, avgChange: Option<real>, volatilidad: Option<real>)
    returns (r: Result<seq<Advice>, PyError>)
    ensures r == Recommendations(avgSent, avgChange, volatilidad)
  {
    var recomendaciones: seq<Advice> := [];
    if Truthy(volatilidad) && volatilidad.value > 2.0 {
      recomendaciones := recomendaciones + [HighVolatility];
    }
    assert recomendaciones == AsSeq(VolatilityAdvice(volatilidad));
    if avgSent.None? {
      return Err(TypeError);
    }
    if avgSent.value < -0.15 {
      recomendaciones := recomendaciones + [DefensiveSentiment];
    } else if avgSent.value > 0.15 {
      recomendaciones := recomendaciones + [ConfidentSentiment];
    }
    assert recomendaciones == AsSeq(VolatilityAdvice(volatilidad)) + AsSeq(SentimentAdvice(avgSent.value));
    if Truthy(avgChange) && avgChange.value > 0.5 {
      recomendaciones := recomendaciones + [StrongUptrend];
    } else if Truthy(avgChange) && avgChange.value < -0.5 {
      recomendaciones := recomendaciones + [Downtrend];
    }
    assert recomendaciones
      == AsSeq(VolatilityAdvice(volatilidad)) + AsSeq(SentimentAdvice(avgSent.value)) + AsSeq(TrendAdvice(avgChange));
    if recomendaciones == [] {
      recomendaciones := recomendaciones + [StableMarket];
    }
    assert recomendaciones == Advices(VolatilityAdvice(volatilidad), SentimentAdvice(avgSent.value), TrendAdvice(avgChange));
    r := Ok(recomendaciones);
  }

  predicate IsSentimentAdvice(a: Advice) {
    a.DefensiveSentiment? || a.ConfidentSentiment?
  }

  predicate IsTrendAdvice(a: Advice) {
    a.StrongUptrend? || a.Downtrend?
  }

  /**
   * One to three items, at most one about sentiment and at most one about the
   * trend; the stable-market item appears exactly when no other item was
   * added, that is when volatility is at most 2.0, sentiment within +-0.15 and
   * the change within +-0.5 (or missing).
   */
  lemma RecommendationsShape(avgSent: Option<real>, avgChange: Option<real>, volatilidad: Option<real>)
    requires avgSent.Some?
    ensures var rs := Recommendations(avgSent, avgChange, volatilidad).value;
      && 1 <= |rs| <= 3
      && (forall i, j :: 0 <= i < j < |rs| && IsSentimentAdvice(rs[i]) ==> !IsSentimentAdvice(rs[j]))
      && (forall i, j :: 0 <= i < j < |rs| && IsTrendAdvice(rs[i]) ==> !IsTrendAdvice(rs[j]))
      && (StableMarket in rs <==> rs == [StableMarket])
      && (StableMarket in rs <==>
            (volatilidad.None? || volatilidad.value <= 2.0)
            && -0.15 <= avgSent.value <= 0.15
            && (avgChange.None? || -0.5 <= avgChange.value <= 0.5))
  {
    var v, s, t := VolatilityAdvice(volatilidad), SentimentAdvice(avgSent.value), TrendAdvice(avgChange);
    var items := AsSeq(v) + AsSeq(s) + AsSeq(t);
    assert forall k :: 0 <= k < |items| ==> items[k] != StableMarket;
  }

  /** Only a missing average sentiment makes the recommendations raise. */
  lemma RecommendationsRaise(avgSent: Option<real>, avgChange: Option<real>, volatilidad: Option<real>)
    ensures Recommendations(avgSent, avgChange, volatilidad).Err? <==> avgSent.None?
  {
  }

  // An empty news table

  /**
   * With no scored news the aggregates are `total = 0` and `avg_sent = None`:
   * `analizar_sentimiento` reports no data, but `generar_interpretacion` and
   * `generar_recomendaciones`, called on the same figures, raise.
   */
  lemma EmptyNewsTableRaises(avgChange: Option<real>, volatilidad: Option<real>)
    ensures AnalizarSentimiento(0, 0, 0, 0, None, None) == Ok(NoSentimentData)
    ensures Interpretation(None, avgChange, 0, 0, 0) == Err(TypeError)
    ensures Recommendations(None, avgChange, volatilidad) == Err(TypeError)
  {
  }

  /** The average sentiment as the metrics block reads it: `float(avg_sent) if avg_sent else 0.0`. */
  function SentimentOrZero(avgSent: Option<real>): (s: real)
    ensures avgSent.Some? ==> s == avgSent.value
    ensures avgSent.None? ==> s == 0.0
  {
    if Truthy(avgSent) then avgSent.value else 0.0
  }

  /** The interpretation with a missing average read as 0.0. */
  function InterpretationOrNeutral(avgSent: Option<real>, avgChange: Option<real>, positivas: nat, negativas: nat, total: nat)
    : seq<Note>
  {
    Notes(CoherenceNote(SentimentOrZero(avgSent), avgChange), DistributionNote(Percent(negativas, total), Percent(positivas, total)))
  }

  /** The recommendations with a missing average read as 0.0. */
  function RecommendationsOrNeutral(avgSent: Option<real>, avgChange: Option<real>, volatilidad: Option<real>): seq<Advice> {
    Advices(VolatilityAdvice(volatilidad), SentimentAdvice(SentimentOrZero(avgSent)), TrendAdvice(avgChange))
  }

  /**
   * Reading a missing average as 0.0 changes nothing where the rules already
   * answer, and on an empty news table gives the sentences of a neutral market:
   * the equilibrium note, whatever the index did, and no sentiment advice.
   */
  lemma NeutralReadingAgrees(avgSent: Option<real>, avgChange: Option<real>, volatilidad: Option<real>,
                             positivas: nat, negativas: nat, total: nat)
    ensures avgSent.Some? ==>
      Interpretation(avgSent, avgChange, positivas, negativas, total)
        == Ok(InterpretationOrNeutral(avgSent, avgChange, positivas, negativas, total))
    ensures avgSent.Some? ==>
      Recommendations(avgSent, avgChange, volatilidad) == Ok(RecommendationsOrNeutral(avgSent, avgChange, volatilidad))
    ensures InterpretationOrNeutral(None, avgChange, 0, 0, 0) == [Equilibrium]
    ensures forall k :: 0 <= k < |RecommendationsOrNeutral(None, avgChange, volatilidad)| ==>
      !IsSentimentAdvice(RecommendationsOrNeutral(None, avgChange, volatilidad)[k])
  {
    var items := AsSeq(VolatilityAdvice(volatilidad)) + AsSeq(SentimentAdvice(0.0)) + AsSeq(TrendAdvice(avgChange));
    assert AsSeq(SentimentAdvice(0.0)) == [];
  }
}
