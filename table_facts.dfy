/**
 * Facts about the concrete tables of the two copies: that their lemma tables
 * meet what the normaliser's properties need, and the quirks the scorer
 * inherits from how the dictionaries are written (keys in both lexicons,
 * negation words that are also lexicon entries, repeated keys, keys that
 * normalisation never lets through).
 */
module TableFacts {
  import opened Wrappers
  import opened Text
  import opened Lexicons
  import opened Normalizer
  import opened Scorer

  /** A non-empty run of the letters a..z. */
  predicate IsLowerAsciiWord(w: string) {
    |w| > 0 && forall i :: 0 <= i < |w| ==> 'a' <= w[i] <= 'z'
  }

  /** Lower-casing and accent stripping leave a..z alone. */
  lemma LowerAsciiFolded(w: string)
    requires IsLowerAsciiWord(w)
    ensures IsFoldedWord(w)
  {
  }

  // The lemma table of services/processor/main.py:81-96

  /** The rewritten forms of the service lemma table, first half. */
  const ServiceLemmaTargetsA: seq<string> := ["cae", "baja", "gana", "sube", "logra", "crece", "pierde"]
  /** The rewritten forms of the service lemma table, second half. */
  const ServiceLemmaTargetsB: seq<string> := ["mejora", "afecta", "aumenta", "empeora", "impulsa", "recupera", "disminuye"]

  /** Every token the service lemma table rewrites becomes one of its listed forms. */
  lemma ServiceLemmaTarget(w: string)
    ensures ServiceLemma(w) == w || ServiceLemma(w) in ServiceLemmaTargetsA || ServiceLemma(w) in ServiceLemmaTargetsB
  {
    if |w| == 4 {
    } else if |w| == 5 {
    } else if |w| == 6 {
    } else if |w| == 7 {
    } else if |w| == 8 {
    } else if |w| == 9 {
    } else if |w| == 10 {
    } else if |w| == 11 {
    } else if |w| == 12 {
    }
  }

  /** No rewritten form is itself a key of the service lemma table, and each is a word of a..z. */
  lemma ServiceLemmaTargetFixed(v: string)
    requires v in ServiceLemmaTargetsA || v in ServiceLemmaTargetsB
    ensures ServiceLemma(v) == v
    ensures IsLowerAsciiWord(v)
  {
    if v in ServiceLemmaTargetsA {
      ServiceTargetFixedA(v);
    } else {
      ServiceTargetFixedB(v);
    }
  }

  lemma ServiceTargetFixedA(v: string)
    requires v in ServiceLemmaTargetsA
    ensures ServiceLemma(v) == v && IsLowerAsciiWord(v)
  {
  }

  lemma ServiceTargetFixedB(v: string)
    requires v in ServiceLemmaTargetsB
    ensures ServiceLemma(v) == v && IsLowerAsciiWord(v)
  {
  }

  /** The service lemma table maps folded words to folded words and no value it produces is a key. */
  lemma ServiceLemmaSound()
    ensures LemmaTableSound(ServiceTables)
  {
    forall w
      ensures (IsFoldedWord(w) ==> IsFoldedWord(ServiceLemma(w)))
      ensures ServiceLemma(ServiceLemma(w)) == ServiceLemma(w)
    {
      ServiceLemmaTarget(w);
      if ServiceLemma(w) != w {
        ServiceLemmaTargetFixed(ServiceLemma(w));
        LowerAsciiFolded(ServiceLemma(w));
      }
    }
  }

  // The lemma table of local-scripts/2_run_processor.py:25-42

  /** The rewritten forms of the script lemma table, first half. */
  const ScriptLemmaTargetsA: seq<string> := ["crece", "cae", "sube", "baja", "aumenta", "disminuye", "pierde", "gana"]
  /** The rewritten forms of the script lemma table, second half. */
  const ScriptLemmaTargetsB: seq<string> := ["mejora", "empeora", "logra", "fracasa", "recupera", "afecta", "impulsa", "declina"]

  /** Every token the script lemma table rewrites becomes one of its listed forms. */
  lemma ScriptLemmaTarget(w: string)
    ensures ScriptLemma(w) == w || ScriptLemma(w) in ScriptLemmaTargetsA || ScriptLemma(w) in ScriptLemmaTargetsB
  {
    if |w| == 4 {
    } else if |w| == 5 {
    } else if |w| == 6 {
    } else if |w| == 7 {
    } else if |w| == 8 {
    } else if |w| == 9 {
    } else if |w| == 10 {
    } else if |w| == 11 {
    } else if |w| == 12 {
    }
  }

  /** No rewritten form is itself a key of the script lemma table, and each is a word of a..z. */
  lemma ScriptLemmaTargetFixed(v: string)
    requires v in ScriptLemmaTargetsA || v in ScriptLemmaTargetsB
    ensures ScriptLemma(v) == v
    ensures IsLowerAsciiWord(v)
  {
    if v in ScriptLemmaTargetsA {
      ScriptTargetFixedA(v);
    } else {
      ScriptTargetFixedB(v);
    }
  }

  lemma ScriptTargetFixedA(v: string)
    requires v in ScriptLemmaTargetsA
    ensures ScriptLemma(v) == v && IsLowerAsciiWord(v)
  {
  }

  lemma ScriptTargetFixedB(v: string)
    requires v in ScriptLemmaTargetsB
    ensures ScriptLemma(v) == v && IsLowerAsciiWord(v)
  {
  }

  /** The script lemma table maps folded words to folded words and no value it produces is a key. */
  lemma ScriptLemmaSound()
    ensures LemmaTableSound(ScriptTables)
  {
    forall w
      ensures (IsFoldedWord(w) ==> IsFoldedWord(ScriptLemma(w)))
      ensures ScriptLemma(ScriptLemma(w)) == ScriptLemma(w)
    {
      ScriptLemmaTarget(w);
      if ScriptLemma(w) != w {
        ScriptLemmaTargetFixed(ScriptLemma(w));
        LowerAsciiFolded(ScriptLemma(w));
      }
    }
  }

  // Quirks of the service lexicons (services/processor/main.py:128-327)

  /** `'cierra'` is a key of both lexicons; the positive lookup runs first, so it scores +0.25. */
  lemma CierraScoresPositive()
    ensures ServicePositive("cierra") == Some(0.25) && ServiceNegative("cierra") == Some(-0.3)
    ensures Entry(ServiceTables, "cierra") == Some(0.25)
  {
  }

  /** Where a dictionary literal repeats a key, the later value is the one looked up. */
  lemma RepeatedKeysKeepLast()
    ensures ServicePositive("incrementa") == Some(0.3)
    ensures ServiceNegative("paraliza") == Some(-0.35)
    ensures ServiceNegative("bajo") == Some(-0.25)
  {
  }

  /**
   * The service negation words that are also (negative) lexicon entries and so
   * score themselves besides negating what follows: `'no'`, `'sin'`, `'evita'`,
   * `'niega'`, `'frena'`, `'freno'`, `'rechaza'`, `'rechazo'` and `'detiene'`.
   */
  const ServiceScoringNegations: seq<string> := ["no", "sin", "evita", "niega", "frena", "freno", "rechaza", "rechazo", "detiene"]

  /** The negation list of services/processor/main.py:128-133, in source order, in three parts. */
  const ServiceNegationsA: seq<string> := ["no", "nunca", "jamas", "sin", "evita", "evito"]
  const ServiceNegationsB: seq<string> := ["ni", "tampoco", "nada", "nadie", "ninguno", "ninguna"]
  const ServiceNegationsC: seq<string> := ["imposible", "niega", "nego", "rechaza", "rechazo", "impide"]
  const ServiceNegationsD: seq<string> := ["impidio", "detiene", "detuvo", "frena", "freno"]

  /** Which service negation words are lexicon entries, and that each such entry is negative. */
  lemma ServiceNegationEntries(w: string)
    requires ServiceIsNegation(w)
    ensures Entry(ServiceTables, w).Some? <==> w in ServiceScoringNegations
    ensures Entry(ServiceTables, w).Some? ==> Entry(ServiceTables, w).value < 0.0
  {
    ServiceNegationsListed(w);
    if w in ServiceNegationsA {
      ServiceNegationEntriesA(w);
    } else if w in ServiceNegationsB {
      ServiceNegationEntriesB(w);
    } else if w in ServiceNegationsC {
      ServiceNegationEntriesC(w);
    } else {
      ServiceNegationEntriesD(w);
    }
  }

  lemma ServiceNegationsListed(w: string)
    requires ServiceIsNegation(w)
    ensures w in ServiceNegationsA || w in ServiceNegationsB || w in ServiceNegationsC || w in ServiceNegationsD
  {
    if |w| == 2 {
    } else if |w| == 3 {
    } else if |w| == 4 {
    } else if |w| == 5 {
    } else if |w| == 6 {
    } else if |w| == 7 {
    }
  }

  lemma ServiceNegationEntriesA(w: string)
    requires w in ServiceNegationsA
    ensures Entry(ServiceTables, w).Some? <==> w in ServiceScoringNegations
    ensures Entry(ServiceTables, w).Some? ==> Entry(ServiceTables, w).value < 0.0
  {
  }

  lemma ServiceNegationEntriesB(w: string)
    requires w in ServiceNegationsB
    ensures Entry(ServiceTables, w).Some? <==> w in ServiceScoringNegations
    ensures Entry(ServiceTables, w).Some? ==> Entry(ServiceTables, w).value < 0.0
  {
  }

  lemma ServiceNegationEntriesC(w: string)
    requires w in ServiceNegationsC
    ensures Entry(ServiceTables, w).Some? <==> w in ServiceScoringNegations
    ensures Entry(ServiceTables, w).Some? ==> Entry(ServiceTables, w).value < 0.0
  {
  }

  lemma ServiceNegationEntriesD(w: string)
    requires w in ServiceNegationsD
    ensures Entry(ServiceTables, w).Some? <==> w in ServiceScoringNegations
    ensures Entry(ServiceTables, w).Some? ==> Entry(ServiceTables, w).value < 0.0
  {
  }

  /** `'no'` and `'sin'` weigh -0.15 and -0.2. */
  lemma NoAndSinWeights()
    ensures ServiceIsNegation("no") && Entry(ServiceTables, "no") == Some(-0.15)
    ensures ServiceIsNegation("sin") && Entry(ServiceTables, "sin") == Some(-0.2)
  {
  }

  /** `"no crisis"`: `'no'` scores its own -0.15 and also turns `'crisis'` (-0.7) into +0.7. */
  lemma NoCrisis()
    ensures KeywordScore(ServiceTables, ["no", "crisis"]) == 0.55
  {
    var ws := ["no", "crisis"];
    assert Term(ServiceTables, ws, 0) == Some(-0.15);
    assert Term(ServiceTables, ws, 1).value == 0.7;
    assert Scores(ServiceTables, ws, 1) == [-0.15];
    assert Scores(ServiceTables, ws, 2) == [-0.15, 0.7];
    assert [-0.15, 0.7][..1] == [-0.15];
    assert [-0.15][..0] == [];
  }

  /**
   * Lexicon keys that the lemma table rewrites never reach the lookup:
   * `'aumento'` and `'mejoro'` (positive) and `'bajo'` (negative) are not
   * tokens of any normalised text. These are three instances; eleven service
   * lexicon keys are lemma-table keys (cayo, cayeron, bajo, bajaron, aumento,
   * perdio, perdieron, mejoro, mejorando, logro, impulso), and
   * `Normalizer.RewrittenKeyUnreachable` covers every one of them.
   */
  lemma ServiceRewrittenKeysUnreachable(text: string)
    ensures ServicePositive("aumento") == Some(0.45) && ServicePositive("mejoro") == Some(0.5)
    ensures ServiceNegative("bajo") == Some(-0.25)
    ensures var tokens := Split(NormalizeText(ServiceTables, text));
      "aumento" !in tokens && "mejoro" !in tokens && "bajo" !in tokens
  {
    ServiceRewrittenKeys();
    ServiceLemmaSound();
    RewrittenKeyUnreachable(ServiceTables, text, "aumento");
    RewrittenKeyUnreachable(ServiceTables, text, "mejoro");
    RewrittenKeyUnreachable(ServiceTables, text, "bajo");
  }

  lemma ServiceRewrittenKeys()
    ensures ServicePositive("aumento") == Some(0.45) && ServicePositive("mejoro") == Some(0.5)
    ensures ServiceNegative("bajo") == Some(-0.25)
    ensures ServiceLemma("aumento") == "aumenta" && ServiceLemma("mejoro") == "mejora" && ServiceLemma("bajo") == "baja"
  {
  }

  // Quirks of the script lexicons (local-scripts/2_run_processor.py:59-167)

  /** No negation or intensifier word of the script is a lexicon entry. */
  lemma ScriptModifierNotEntry(w: string)
    requires ScriptIsNegation(w) || ScriptIntensifier(w).Some?
    ensures Entry(ScriptTables, w) == None
  {
    if ScriptIsNegation(w) {
      if |w| <= 5 {
        ScriptShortNegationNotEntry(w);
      } else {
        ScriptLongNegationNotEntry(w);
      }
    } else if |w| <= 10 {
      ScriptShortIntensifierNotEntry(w);
    } else if |w| <= 12 {
      ScriptMediumIntensifierNotEntry(w);
    } else {
      ScriptLongIntensifierNotEntry(w);
    }
  }

  lemma ScriptShortNegationNotEntry(w: string)
    requires ScriptIsNegation(w) && |w| <= 5
    ensures Entry(ScriptTables, w) == None
  {
    if |w| == 2 {
    } else if |w| == 3 {
    } else if |w| == 4 {
    }
  }

  lemma ScriptLongNegationNotEntry(w: string)
    requires ScriptIsNegation(w) && |w| > 5
    ensures Entry(ScriptTables, w) == None
  {
    if |w| == 6 {
    } else if |w| == 7 {
    }
  }

  lemma ScriptShortIntensifierNotEntry(w: string)
    requires ScriptIntensifier(w).Some? && |w| <= 10
    ensures Entry(ScriptTables, w) == None
  {
    if |w| == 3 {
    } else if |w| == 4 {
    } else if |w| == 6 {
    } else if |w| == 8 {
    } else if |w| == 9 {
    }
  }

  lemma ScriptMediumIntensifierNotEntry(w: string)
    requires ScriptIntensifier(w).Some? && 10 < |w| <= 12
    ensures Entry(ScriptTables, w) == None
  {
    if |w| == 11 {
    }
  }

  lemma ScriptLongIntensifierNotEntry(w: string)
    requires ScriptIntensifier(w).Some? && |w| > 12
    ensures Entry(ScriptTables, w) == None
  {
    if |w| == 13 {
    } else if |w| == 14 {
    } else if |w| == 17 {
    }
  }

  /** So in the script a modifier token contributes nothing of its own. */
  lemma ScriptModifierContributesNothing(ws: seq<string>, i: nat)
    requires i < |ws|
    requires ScriptIsNegation(ws[i]) || ScriptIntensifier(ws[i]).Some?
    ensures Contribution(ScriptTables, ws, i) == 0.0
  {
    ScriptModifierNotEntry(ws[i]);
  }

  /** The key `'daño'` is never a token: accent stripping turns it into `'dano'` first. */
  lemma DanoKeyUnreachable(text: string)
    ensures ScriptNegative("da\U{00F1}o") == Some(-0.4)
    ensures "da\U{00F1}o" !in Split(NormalizeText(ScriptTables, text))
  {
    ScriptLemmaSound();
    assert !IsFolded("da\U{00F1}o"[2]);
    UnfoldedKeyUnreachable(ScriptTables, text, "da\U{00F1}o");
  }

  /** The key `'fracaso'` is never a token, and the `'fracasa'` it becomes is in neither lexicon. */
  lemma FracasoScoresNothing(text: string)
    ensures ScriptNegative("fracaso") == Some(-0.5)
    ensures ScriptLemma("fracaso") == "fracasa" && Entry(ScriptTables, "fracasa") == None
    ensures "fracaso" !in Split(NormalizeText(ScriptTables, text))
  {
    FracasoEntries();
    ScriptLemmaSound();
    RewrittenKeyUnreachable(ScriptTables, text, "fracaso");
  }

  lemma FracasoEntries()
    ensures ScriptNegative("fracaso") == Some(-0.5)
    ensures ScriptLemma("fracaso") == "fracasa" && Entry(ScriptTables, "fracasa") == None
  {
  }
}
