# Rule-based news sentiment scorer and its tagging helpers

This project models the text-processing core of a Colombian economic-news pipeline and proves properties of it in Dafny. The core has two copies of one sentiment algorithm:

- **The service** (`NewsProcessor` in services/processor/main.py), the *calibrated* configuration. It weights 65/25/10, then computes `x * 2.5 + 0.26`, clips to [-0.5, 1.2] and labels at 0.30 and 0.22. An exception in a library call sends it to a keyword-only fallback with strict thresholds.
- **The script** (local-scripts/2_run_processor.py), the *plain* configuration. It weights 70/20/10, clips to [-1, 1] and labels at ±0.08. A failed library call reads as 0.0.

Both copies do the same steps:

1. Normalise the text: lower-case it, strip accents, split on whitespace and rewrite each token through a lemma table.
2. Walk the tokens with a keyword loop:
   - an intensifier at `i-1` scales the hit;
   - a negation at `i-1` or `i-2` flips its sign;
   - the positive lexicon is consulted before the negative one.
3. Blend the keyword score with the TextBlob polarity and the VADER compound.

Beside the scorer, the model also covers:
- the category tagger (substring search of keyword lists, with `['general']` as the fallback);
- the keyword extractor (stopwords, a frequency count, then a stable descending sort and the top N);
- the composition `process_article`;
- the threshold rules of local-scripts/generar_conclusiones.py.

Modelling choices:
- Scores are exact `real`s.
- TextBlob and VADER are parameters of type `Signal`: `Returned(x)` or `Raised`.
- The lexicons and lemma tables are transcribed literally into `Lexicons`. Where a dictionary literal repeats a key, the last value wins, as in Python.
- The loops of the source are methods, proved against the specification functions the lemmas talk about:
  - the scoring loop;
  - the frequency count;
  - category tagging;
  - the list building of the interpretation and recommendation rules.

Modules:
- `Text`: lower-casing, accent stripping, splitting and joining.
- `Lexicons`: the tables of both copies.
- `Normalizer`: `normalize_text`.
- `Scorer`: the keyword loop.
- `TableFacts`: properties of the concrete tables.
- `Sentiment`: the blend and the labels.
- `Categories`: category tagging.
- `Keywords`: the keyword extractor.
- `Processor`: `process_article` and the script's per-title step.
- `Conclusions`: the conclusion rules.

The service has more self-scoring negations than `'no'` and `'sin'`. Nine of its negation words are also negative lexicon entries, so each of them scores itself and negates what follows: `no`, `sin`, `evita`, `niega`, `frena`, `freno`, `rechaza`, `rechazo`, `detiene` (`TableFacts.ServiceNegationEntries`).

## Model

| member | source | states |
|---|---|---|
| Text.Lower | services/processor/main.py:72 | on ASCII and Latin-1, `str.lower()` keeps the length and maps each code point on its own; no capital A..Z survives |
| Text.SplitJoin | services/processor/main.py:98-100 | re-splitting tokens joined with single spaces gives back the same tokens |
| Normalizer.Lemmatize | services/processor/main.py:98-99 | `[rules.get(w, w) for w in words]`: same length, each token rewritten on its own |
| Normalizer.NormalizedTokens | services/processor/main.py:69-100 | the normalised text re-splits into exactly the rewritten tokens of the folded text, each free of capitals, accents and combining marks |
| Normalizer.TokenCount | services/processor/main.py:69-100 | for text without combining marks, normalising keeps the number of whitespace-separated tokens (a sufficient condition: only a token made solely of combining marks disappears) |
| Normalizer.NormalizeIdempotent | services/processor/main.py:69-100 | normalising twice is normalising once, for any lemma table whose values are not keys |
| Normalizer.RewrittenKeyUnreachable | services/processor/main.py:81-99 | a key the lemma table rewrites is never a token of normalised text |
| Normalizer.UnfoldedKeyUnreachable | services/processor/main.py:71-78 | a key holding a capital or an accented letter is never a token of normalised text |
| TableFacts.ServiceLemmaSound | services/processor/main.py:81-96 | the service lemma table maps folded words to folded words, and none of its values is itself a key |
| TableFacts.ScriptLemmaSound | local-scripts/2_run_processor.py:25-42 | the same for the script's lemma table |
| Scorer.ScoreKeywords | services/processor/main.py:330-363 | the index loop returns the sum of the terms that `Term` defines for each position |
| Scorer.ScoresPerToken | services/processor/main.py:350-361 | each token appends at most one term (one per lexicon hit), and the sum is the sum of per-position contributions |
| Scorer.NonHitContributesNothing | services/processor/main.py:350-361 | a token in neither lexicon adds nothing, whatever precedes it |
| Scorer.NegationFlipsSign | services/processor/main.py:342-355 | a negation right before a hit negates its term |
| Scorer.NegationDoesNotDecay | services/processor/main.py:344-347 | a negation two tokens back has the same effect as one right before |
| Scorer.NegationsDoNotCancel | services/processor/main.py:344-347 | two negations before a hit flip it once |
| Scorer.IntensifierScales | services/processor/main.py:340-341 | an intensifier at i-1 multiplies the hit's weight by its multiplier |
| Scorer.NegatedAndIntensified | services/processor/main.py:336-358 | a negation at i-2 and an intensifier at i-1 give `-(w * m)` |
| Scorer.ScoreConcat | services/processor/main.py:330-363 | scoring is additive across a boundary that no modifier reaches over |
| TableFacts.CierraScoresPositive | services/processor/main.py:201 | `'cierra'` is +0.25 and -0.3 in the two lexicons, and the positive lookup wins |
| TableFacts.RepeatedKeysKeepLast | services/processor/main.py:139-326 | repeated dictionary keys keep their last value (`incrementa` 0.3, `paraliza` -0.35, `bajo` -0.25) |
| TableFacts.ServiceNegationEntries | services/processor/main.py:128-133 | a service negation word is a lexicon entry exactly when it is one of nine listed words, and such an entry is negative |
| TableFacts.NoAndSinWeights | services/processor/main.py:303 | `'no'` and `'sin'` are negations weighing -0.15 and -0.2 |
| TableFacts.NoCrisis | services/processor/main.py:303 | `"no crisis"` scores -0.15 + 0.7 = 0.55: the negation scores itself and flips what follows |
| TableFacts.ServiceRewrittenKeysUnreachable | services/processor/main.py:85-90 | three instances, `aumento`, `mejoro`, `bajo`: these lexicon keys are never tokens, because normalisation rewrites them (`Normalizer.RewrittenKeyUnreachable` covers all eleven such keys) |
| TableFacts.ScriptModifierNotEntry | local-scripts/2_run_processor.py:59-90 | no script negation or intensifier word is a lexicon entry |
| TableFacts.ScriptModifierContributesNothing | local-scripts/2_run_processor.py:172-202 | so a modifier token adds nothing of its own in the script |
| TableFacts.DanoKeyUnreachable | local-scripts/2_run_processor.py:144 | the key `'daño'` is never a token, because accents are stripped before lookup |
| TableFacts.FracasoScoresNothing | local-scripts/2_run_processor.py:37 | `'fracaso'` is never a token, and the `'fracasa'` it becomes is in neither lexicon |
| Sentiment.Clip | services/processor/main.py:388 | `max(lo, min(hi, x))` lies in [lo, hi], is x inside it and saturates outside |
| Sentiment.InclusiveLabel | services/processor/main.py:391-396 | positive iff score >= up, negative iff score <= down, neutral iff strictly between |
| Sentiment.StrictLabel | services/processor/main.py:405 | positive iff score > up, negative iff score < down, neutral iff between inclusive |
| Sentiment.ServiceSentiment | services/processor/main.py:106-405 | empty text gives (0.0, neutral); otherwise the score is in [-0.5, 1.2], with inclusive labels on the library path and strict labels on the fallback |
| Sentiment.AnalyzeSentiment | services/processor/main.py:106-405 | the method (scoring loop, library calls, blend) returns `ServiceSentiment` |
| Sentiment.ServiceZeroScoreLabels | services/processor/main.py:111-112 | a non-empty text blending to 0.0 is negative, while the empty text is (0.0, neutral) |
| Sentiment.ServiceThresholdPathsDiffer | services/processor/main.py:391-405 | a score of exactly 0.30 is neutral on the fallback but positive on the library path |
| Sentiment.ServiceBlendMonotone | services/processor/main.py:378-404 | on both paths the score never decreases as the keyword score grows |
| Sentiment.ScriptSentiment | local-scripts/2_run_processor.py:52-235 | the score is in [-1, 1], the label is the ±0.08 label of the score, and empty text gives (0.0, neutral) |
| Sentiment.AnalyzeSentimentEnhanced | local-scripts/2_run_processor.py:48-237 | the method returns `ScriptSentiment` |
| Sentiment.ScriptFailureIsZero | local-scripts/2_run_processor.py:208-220 | a failing library reads as 0.0, whatever the other library does |
| Sentiment.ScriptBlendMonotone | local-scripts/2_run_processor.py:224-227 | the script's score never decreases as the keyword score grows |
| Categories.Contains | services/processor/main.py:413 | Python's `k in s` holds iff k occurs at some position of s |
| Categories.ClassifyCategories | services/processor/main.py:407-416 | the nested loop returns the categories that apply, or `['general']` |
| Categories.MatchedMembership | services/processor/main.py:412-414 | a name is returned iff some category of that name has a keyword in the lower-cased text |
| Categories.MatchedInTableOrder | services/processor/main.py:412-414 | categories come out in table order (a subsequence of the table's names) |
| Categories.GeneralIffNoMatch | services/processor/main.py:416 | `['general']` iff no category applies |
| Categories.ColcapAndTlcNeverMatch | services/processor/main.py:57-65 | `'COLCAP'` and `'TLC'` never match, because the text is lower-cased first |
| Keywords.FilterWords | services/processor/main.py:428 | the kept words are exactly the words longer than 3 that are not stopwords, with their multiplicities |
| Keywords.Distinct | services/processor/main.py:432-433 | the dictionary keys are the words of the input, each once |
| Keywords.DistinctInFirstOccurrenceOrder | services/processor/main.py:432-433 | the keys are in order of first occurrence |
| Keywords.CountFrequencies | services/processor/main.py:431-433 | the counting loop yields each distinct word, in first-occurrence order, with its number of occurrences |
| Keywords.SortByCountPermutes | services/processor/main.py:436 | the sorted items are a permutation of the counted items |
| Keywords.SortByCountDescending | services/processor/main.py:436 | the sorted items have non-increasing counts |
| Keywords.SortByCountStable | services/processor/main.py:436 | for each count, the items of that count keep their input order (stable `sorted`) |
| Keywords.ExtractKeywords | services/processor/main.py:418-441 | the method (filter, counting loop, sort, slice) returns `ExtractedKeywords` |
| Keywords.KeywordsBound | services/processor/main.py:437 | at most `top_n` keywords, and no more than the distinct counted words |
| Keywords.KeywordsDistinct | services/processor/main.py:432-437 | no keyword appears twice |
| Keywords.KeywordsAreKeptTokens | services/processor/main.py:422-429 | every keyword is a token of the lower-cased text, longer than 3 and not a stopword |
| Keywords.KeywordsByFrequency | services/processor/main.py:436-437 | keyword frequencies never increase along the list |
| Keywords.KeywordsTiesInFirstOccurrenceOrder | services/processor/main.py:436-437 | for each frequency, the keywords of that frequency are a prefix of the counted words of that frequency, in dictionary order |
| Keywords.KeywordsAreTop | services/processor/main.py:436-437 | a counted word left out is no more frequent than any keyword |
| Processor.FullText | services/processor/main.py:449 | `f"{title} {content}"` is title, one space, content (`None` renders as `"None"`) |
| Processor.ProcessArticle | services/processor/main.py:445-470 | the composition returns `ProcessedArticle`: `None` on a missing key, else the three analyses of the combined text |
| Processor.ProcessedArticleShape | services/processor/main.py:445-470 | a result exists iff the title and id keys exist (their values may be `None`); its score is in [-0.5, 1.2] with the path's labels, categories are non-empty (`general` iff none applies), and there are at most 5 keywords |
| Processor.NullContentIsText | services/processor/main.py:449 | a `None` content reaches the scorer as the text `"None"` |
| Processor.TagTitle | local-scripts/2_run_processor.py:272-289 | the script's loop body scores and tags the title (a missing title is `''`) |
| Processor.ScriptTagsGeneralIffNoMatch | local-scripts/2_run_processor.py:283-289 | a title is tagged `['general']` iff no script keyword is a substring of the lower-cased title; a missing title gives (0.0, neutral) and `['general']` |
| Conclusions.Percent | local-scripts/generar_conclusiones.py:87-89 | 0 when total is 0, else `p * total == count * 100`; between 0 and 100 for count <= total |
| Conclusions.GenerarResumenGeneral | local-scripts/generar_conclusiones.py:86-93 | the three percentages as above |
| Conclusions.SummaryAddsUp | local-scripts/generar_conclusiones.py:86-89 | when the three counts add up to a non-zero total, the percentages add up to 100 |
| Conclusions.ToneOf | local-scripts/generar_conclusiones.py:102-110 | NEGATIVO iff avg < -0.1, POSITIVO iff avg > 0.1, NEUTRAL otherwise |
| Conclusions.SentimentBand | local-scripts/generar_conclusiones.py:112 | alta iff σ > 0.3, moderada iff 0.15 < σ <= 0.3, baja otherwise, including `None` |
| Conclusions.AnalizarSentimiento | local-scripts/generar_conclusiones.py:95-119 | no data iff total is 0; `TypeError` iff total > 0 and the average is `None`; otherwise the tone, band, negative share and concern (share > 25%) |
| Conclusions.TrendOf | local-scripts/generar_conclusiones.py:125-133 | ALCISTA iff change > 0.5, BAJISTA iff < -0.5, LATERAL otherwise |
| Conclusions.ColcapBand | local-scripts/generar_conclusiones.py:135 | ALTA iff > 2.0, MODERADA iff in (1.0, 2.0], BAJA otherwise, including `None` |
| Conclusions.AnalizarColcap | local-scripts/generar_conclusiones.py:121-143 | no data iff the average change is `None` or exactly 0, otherwise trend and band |
| Conclusions.CoherenceNote | local-scripts/generar_conclusiones.py:155-162 | coherence when sentiment beyond ±0.05 and index change have the same sign, divergence when opposite, nothing otherwise |
| Conclusions.DistributionNote | local-scripts/generar_conclusiones.py:165-168 | ALERTA iff pct_neg > 30; OPTIMISMO iff pct_neg <= 30 and pct_pos > 20 |
| Conclusions.GenerarInterpretacion | local-scripts/generar_conclusiones.py:148-170 | the appending method returns `Interpretation` |
| Conclusions.InterpretationShape | local-scripts/generar_conclusiones.py:148-170 | raises iff the average is `None`; otherwise 1 or 2 notes, at most one of each kind, ALERTA whenever pct_neg > 30, and the equilibrium sentence exactly when neither chain fires |
| Conclusions.GenerarRecomendaciones | local-scripts/generar_conclusiones.py:172-191 | the appending method returns `Recommendations` |
| Conclusions.RecommendationsShape | local-scripts/generar_conclusiones.py:172-191 | 1 to 3 items, at most one about sentiment and one about the trend; 'Mercado estable' iff no other item, iff all three conditions fail |
| Conclusions.RecommendationsRaise | local-scripts/generar_conclusiones.py:178 | raises iff the average sentiment is `None` |
| Conclusions.EmptyNewsTableRaises | local-scripts/generar_conclusiones.py:95-97 | with total 0 and no average, `analizar_sentimiento` reports no data, but interpretation and recommendations raise |
| Conclusions.NeutralReadingAgrees | local-scripts/generar_conclusiones.py:69 | reading a missing average as 0.0 agrees with the rules wherever they answer, and on an empty table gives the equilibrium note and no sentiment advice |

## Left out

- Database, Redis and HTTP code are I/O plumbing and are not part of this model:
  - `get_unprocessed_articles`, `update_article`, `process_batch`, `notify_analyzer`, `listen_for_jobs`, `run`;
  - `generar_conclusiones()` itself;
  - the script's JSON loading, writing and printing.
- TextBlob and VADER are not modelled. Each call is a parameter saying what it returned or that it raised. The service's "analyser loaded" flag is a parameter too.
- Unicode coverage is partial. `str.lower()` and NFD decomposition are concrete only for ASCII, the Latin-1 letters and the combining marks U+0300..U+036F. Other code points pass through unchanged.
- `Text.Lower`: Python's `lower()` can lengthen a string (`'İ'` lowers to two code points) and lowers capitals of scripts beyond Latin-1. The model does neither.
- `Processor.ProcessedArticleShape`: only string titles and contents are modelled. A non-string value would render through `str()`, and that is not modelled.
- Scores are exact reals. IEEE rounding, `round` and f-string formatting are not modelled. The conclusion sentences are enums, not text, and they carry only the figures the rules decide on. They drop the figures the sentences merely quote:
  - `ColcapReport` drops `dias_datos`, `avg_val`, `vol_val`, `max_val` and `min_val`;
  - `SentimentReport` drops the quoted average and deviation (`avg_sent_val`, `std_sent_val`);
  - `Summary` drops the counts and the total that `generar_resumen_general` quotes, keeping the percentages.
- Logging is not modelled: the `logger.error` calls on the fallback and exception paths (services/processor/main.py:401, 442, 469) have no effect on any result.
- The exception handler of `extract_keywords` is not modelled: on strings the guarded block cannot raise. The same holds for the exception path of `process_article`, apart from the missing-key case.
- The copy of the conclusion rules inline in the dashboard API is not part of this model. That copy adds an EQUILIBRIO branch and drops DIVERGENCIA.

## Findings

| source | as written | input that shows it | evidently intended | confidence | as-written member | corrected member |
|---|---|---|---|---|---|---|
| local-scripts/generar_conclusiones.py:155-178 | `generar_interpretacion` and `generar_recomendaciones` compare `avg_sent` with a number without checking for `None` | an empty news table: total 0 and `AVG` gives `NULL`, so `avg_sent` is `None`; `analizar_sentimiento` handles this, but the two later rules raise `TypeError` | read a missing average as 0.0, as the metrics block does at line 69, so that an empty table yields the equilibrium sentence | medium, not executed | Conclusions.EmptyNewsTableRaises | Conclusions.NeutralReadingAgrees |
