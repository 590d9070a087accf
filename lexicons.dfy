/**
 * The fixed word tables of the two copies of the scorer, as lookup functions.
 *
 * Each Python dictionary literal becomes a function from a token to its entry
 * (`Some(weight)`, or `None` when the token is not a key); the negation list
 * becomes a predicate and the lemma table a function that leaves unknown
 * tokens unchanged (`dict.get(w, w)`). Keys are grouped by their length, and
 * large groups again by their first letter, so that a lookup only compares a
 * token with keys of its own length and initial; within a group they keep
 * their order in the source. Where a dictionary literal repeats a key, Python
 * keeps the later value, and so does the function.
 */
module Lexicons {
  import opened Wrappers

  /** The tables one copy of the scorer reads: one named configuration of the algorithm. */
  datatype Tables = Tables(
    lemmatize: string -> string,
    intensifier: string -> Option<real>,
    isNegation: string -> bool,
    positive: string -> Option<real>,
    negative: string -> Option<real>)

  /** The tables of `NewsProcessor.analyze_sentiment` (services/processor/main.py). */
  const ServiceTables := Tables(ServiceLemma, ServiceIntensifier, ServiceIsNegation, ServicePositive, ServiceNegative)

  /** The tables of `analyze_sentiment_enhanced` (local-scripts/2_run_processor.py). */
  const ScriptTables := Tables(ScriptLemma, ScriptIntensifier, ScriptIsNegation, ScriptPositive, ScriptNegative)

  // Tables of services/processor/main.py

  /** `lemmatization_rules.get(w, w)`, services/processor/main.py:81-96. */
  function ServiceLemma(w: string): string {
    if |w| == 4 then
      match w
      case "cayo" => "cae" case "bajo" => "baja" case "gano" => "gana"
      case _ => w
    else if |w| == 5 then
      match w
      case "subio" => "sube" case "logro" => "logra"
      case _ => w
    else if |w| == 6 then
      match w
      case "crecio" => "crece" case "perdio" => "pierde" case "mejoro" => "mejora" case "afecto" => "afecta"
      case _ => w
    else if |w| == 7 then
      match w[0]
      case 'a' =>
        (match w
        case "aumento" => "aumenta"
        case _ => w)
      case 'b' =>
        (match w
        case "bajaron" => "baja" case "bajando" => "baja"
        case _ => w)
      case 'c' =>
        (match w
        case "cayeron" => "cae" case "cayendo" => "cae"
        case _ => w)
      case 'e' =>
        (match w
        case "empeoro" => "empeora"
        case _ => w)
      case 'g' =>
        (match w
        case "ganaron" => "gana" case "ganando" => "gana"
        case _ => w)
      case 'i' =>
        (match w
        case "impulso" => "impulsa"
        case _ => w)
      case _ => w
    else if |w| == 8 then
      match w
      case "subieron" => "sube" case "subiendo" => "sube" case "lograron" => "logra" case "logrando" => "logra"
      case "recupero" => "recupera"
      case _ => w
    else if |w| == 9 then
      match w[0]
      case 'a' =>
        (match w
        case "afectaron" => "afecta" case "afectando" => "afecta"
        case _ => w)
      case 'c' =>
        (match w
        case "creciendo" => "crece" case "crecieron" => "crece"
        case _ => w)
      case 'd' =>
        (match w
        case "disminuyo" => "disminuye"
        case _ => w)
      case 'm' =>
        (match w
        case "mejoraron" => "mejora" case "mejorando" => "mejora"
        case _ => w)
      case 'p' =>
        (match w
        case "perdieron" => "pierde" case "perdiendo" => "pierde"
        case _ => w)
      case _ => w
    else if |w| == 10 then
      match w
      case "aumentaron" => "aumenta" case "aumentando" => "aumenta" case "empeoraron" => "empeora"
      case "impulsaron" => "impulsa"
      case _ => w
    else if |w| == 11 then
      match w
      case "recuperaron" => "recupera"
      case _ => w
    else if |w| == 12 then
      match w
      case "disminuyeron" => "disminuye"
      case _ => w
    else w
  }

  /** `intensifiers.get(w)`, services/processor/main.py:118-125. */
  function ServiceIntensifier(w: string): Option<real> {
    if |w| == 3 then
      match w
      case "muy" => Some(1.5)
      case _ => None
    else if |w| == 4 then
      match w
      case "poco" => Some(0.7)
      case _ => None
    else if |w| == 6 then
      match w
      case "apenas" => Some(0.6)
      case _ => None
    else if |w| == 8 then
      match w
      case "bastante" => Some(1.3)
      case _ => None
    else if |w| == 9 then
      match w
      case "altamente" => Some(1.6) case "sumamente" => Some(1.7)
      case _ => None
    else if |w| == 11 then
      match w
      case "fuertemente" => Some(1.6) case "ligeramente" => Some(0.7) case "enormemente" => Some(1.8)
      case "severamente" => Some(1.7) case "escasamente" => Some(0.6)
      case _ => None
    else if |w| == 12 then
      match w
      case "notablemente" => Some(1.5) case "marcadamente" => Some(1.6)
      case _ => None
    else if |w| == 13 then
      match w
      case "drasticamente" => Some(1.8) case "moderadamente" => Some(0.85) case "profundamente" => Some(1.7)
      case _ => None
    else if |w| == 14 then
      match w
      case "extremadamente" => Some(1.9)
      case _ => None
    else if |w| == 17 then
      match w
      case "considerablemente" => Some(1.6)
      case _ => None
    else if |w| == 18 then
      match w
      case "significativamente" => Some(1.7)
      case _ => None
    else None
  }

  /** `w in negations`, services/processor/main.py:128-133. */
  predicate ServiceIsNegation(w: string) {
    if |w| == 2 then
      match w
      case "no" => true case "ni" => true
      case _ => false
    else if |w| == 3 then
      match w
      case "sin" => true
      case _ => false
    else if |w| == 4 then
      match w
      case "nada" => true case "nego" => true
      case _ => false
    else if |w| == 5 then
      match w
      case "nunca" => true case "jamas" => true case "evita" => true case "evito" => true
      case "nadie" => true case "niega" => true case "frena" => true case "freno" => true
      case _ => false
    else if |w| == 6 then
      match w
      case "impide" => true case "detuvo" => true
      case _ => false
    else if |w| == 7 then
      match w
      case "tampoco" => true case "ninguno" => true case "ninguna" => true case "rechaza" => true
      case "rechazo" => true case "impidio" => true case "detiene" => true
      case _ => false
    else if |w| == 9 then
      match w
      case "imposible" => true
      case _ => false
    else false
  }

  /** `positive_economic.get(w)`, services/processor/main.py:136-215. */
  function ServicePositive(w: string): Option<real> {
    if |w| == 3 then
      match w
      case "mas" => Some(0.15)
      case _ => None
    else if |w| == 4 then
      match w
      case "sube" => Some(0.5) case "alza" => Some(0.5) case "gana" => Some(0.5) case "auge" => Some(0.55)
      case "plan" => Some(0.2) case "meta" => Some(0.25) case "abre" => Some(0.25) case "suma" => Some(0.2)
      case _ => None
    else if |w| == 5 then
      match w[0]
      case 'a' =>
        (match w
        case "apoya" => Some(0.35) case "apoyo" => Some(0.35)
        case _ => None)
      case 'c' =>
        (match w
        case "crece" => Some(0.5)
        case _ => None)
      case 'e' =>
        (match w
        case "eleva" => Some(0.45) case "exito" => Some(0.6) case "extra" => Some(0.2)
        case _ => None)
      case 'f' =>
        (match w
        case "firma" => Some(0.25) case "firmo" => Some(0.25)
        case _ => None)
      case 'l' =>
        (match w
        case "logra" => Some(0.5) case "logro" => Some(0.5) case "lanza" => Some(0.3) case "lider" => Some(0.35)
        case _ => None)
      case 'm' =>
        (match w
        case "miles" => Some(0.25) case "mayor" => Some(0.25) case "mejor" => Some(0.3)
        case _ => None)
      case 'n' =>
        (match w
        case "nuevo" => Some(0.2) case "nueva" => Some(0.2)
        case _ => None)
      case 'p' =>
        (match w
        case "pacto" => Some(0.35)
        case _ => None)
      case 'v' =>
        (match w
        case "vende" => Some(0.25)
        case _ => None)
      case _ => None
    else if |w| == 6 then
      match w[0]
      case 'a' =>
        (match w
        case "avance" => Some(0.45) case "avanza" => Some(0.45) case "activa" => Some(0.25)
        case "asigna" => Some(0.2)
        case _ => None)
      case 'c' =>
        (match w
        case "compra" => Some(0.25) case "cierra" => Some(0.25) case "cumple" => Some(0.3)
        case _ => None)
      case 'e' =>
        (match w
        case "espera" => Some(0.15)
        case _ => None)
      case 'g' =>
        (match w
        case "genera" => Some(0.35)
        case _ => None)
      case 'i' =>
        (match w
        case "inicia" => Some(0.2)
        case _ => None)
      case 'l' =>
        (match w
        case "logros" => Some(0.5) case "lidera" => Some(0.35)
        case _ => None)
      case 'm' =>
        (match w
        case "maximo" => Some(0.6) case "maxima" => Some(0.6) case "mejora" => Some(0.5) case "mejoro" => Some(0.5)
        case _ => None)
      case 'n' =>
        (match w
        case "nuevos" => Some(0.2) case "nuevas" => Some(0.2)
        case _ => None)
      case 'o' =>
        (match w
        case "optimo" => Some(0.55) case "optima" => Some(0.55)
        case _ => None)
      case 'p' =>
        (match w
        case "planes" => Some(0.2)
        case _ => None)
      case 'r' =>
        (match w
        case "record" => Some(0.65)
        case _ => None)
      case 's' =>
        (match w
        case "subida" => Some(0.5) case "solido" => Some(0.5) case "supera" => Some(0.35)
        case "supero" => Some(0.35)
        case _ => None)
      case _ => None
    else if |w| == 7 then
      match w[0]
      case 'a' =>
        (match w
        case "aumenta" => Some(0.45) case "aumento" => Some(0.45) case "acuerdo" => Some(0.4)
        case "alianza" => Some(0.45) case "aprueba" => Some(0.3) case "anuncia" => Some(0.2)
        case "anuncio" => Some(0.2) case "alcanza" => Some(0.35)
        case _ => None)
      case 'b' =>
        (match w
        case "bonanza" => Some(0.55)
        case _ => None)
      case 'c' =>
        (match w
        case "compras" => Some(0.25)
        case _ => None)
      case 'd' =>
        (match w
        case "dolares" => Some(0.25) case "demanda" => Some(0.3) case "destina" => Some(0.2)
        case "duplica" => Some(0.4) case "destaca" => Some(0.3)
        case _ => None)
      case 'e' =>
        (match w
        case "exitoso" => Some(0.6) case "expande" => Some(0.5) case "estable" => Some(0.45)
        case "exporta" => Some(0.4) case "estrena" => Some(0.3)
        case _ => None)
      case 'f' =>
        (match w
        case "firmado" => Some(0.25)
        case _ => None)
      case 'i' =>
        (match w
        case "impulsa" => Some(0.5) case "impulso" => Some(0.5)
        case _ => None)
      case 'm' =>
        (match w
        case "mercado" => Some(0.25) case "mayores" => Some(0.25) case "mejores" => Some(0.3)
        case _ => None)
      case 'o' =>
        (match w
        case "obtiene" => Some(0.3)
        case _ => None)
      case 'p' =>
        (match w
        case "produce" => Some(0.35) case "primero" => Some(0.3) case "primera" => Some(0.3)
        case _ => None)
      case 'r' =>
        (match w
        case "repunte" => Some(0.5) case "repunta" => Some(0.5) case "robusto" => Some(0.5)
        case "renueva" => Some(0.3)
        case _ => None)
      case 's' =>
        (match w
        case "solidez" => Some(0.5)
        case _ => None)
      case _ => None
    else if |w| == 8 then
      match w[0]
      case 'a' =>
        (match w
        case "acuerdos" => Some(0.4) case "autoriza" => Some(0.3) case "apertura" => Some(0.25)
        case "anticipa" => Some(0.25)
        case _ => None)
      case 'c' =>
        (match w
        case "convenio" => Some(0.35) case "contrato" => Some(0.3) case "comercio" => Some(0.3)
        case _ => None)
      case 'd' =>
        (match w
        case "dinamico" => Some(0.45) case "destinan" => Some(0.2)
        case _ => None)
      case 'e' =>
        (match w
        case "esperado" => Some(0.15)
        case _ => None)
      case 'g' =>
        (match w
        case "ganancia" => Some(0.55)
        case _ => None)
      case 'i' =>
        (match w
        case "invierte" => Some(0.4) case "inaugura" => Some(0.35)
        case _ => None)
      case 'l' =>
        (match w
        case "liquidez" => Some(0.4)
        case _ => None)
      case 'm' =>
        (match w
        case "millones" => Some(0.3) case "mercados" => Some(0.25)
        case _ => None)
      case 'o' =>
        (match w
        case "optimiza" => Some(0.5) case "objetivo" => Some(0.2)
        case _ => None)
      case 'p' =>
        (match w
        case "progreso" => Some(0.5) case "progresa" => Some(0.5) case "prospero" => Some(0.55)
        case "positivo" => Some(0.5) case "positiva" => Some(0.5) case "proyecto" => Some(0.25)
        case "presenta" => Some(0.2) case "previsto" => Some(0.15)
        case _ => None)
      case 'r' =>
        (match w
        case "rentable" => Some(0.55) case "recupera" => Some(0.55) case "respalda" => Some(0.4)
        case "respaldo" => Some(0.4) case "robustez" => Some(0.5)
        case _ => None)
      case 's' =>
        (match w
        case "superior" => Some(0.3)
        case _ => None)
      case 't' =>
        (match w
        case "triplica" => Some(0.45)
        case _ => None)
      case 'u' =>
        (match w
        case "utilidad" => Some(0.5)
        case _ => None)
      case 'v' =>
        (match w
        case "vigoroso" => Some(0.5) case "vigoriza" => Some(0.5)
        case _ => None)
      case _ => None
    else if |w| == 9 then
      match w[0]
      case 'a' =>
        (match w
        case "adicional" => Some(0.2)
        case _ => None)
      case 'b' =>
        (match w
        case "beneficio" => Some(0.55)
        case _ => None)
      case 'c' =>
        (match w
        case "confianza" => Some(0.5) case "confiable" => Some(0.45) case "consolida" => Some(0.5)
        case _ => None)
      case 'd' =>
        (match w
        case "dinamismo" => Some(0.45) case "destacado" => Some(0.35)
        case _ => None)
      case 'e' =>
        (match w
        case "elevacion" => Some(0.45) case "expansion" => Some(0.5) case "eficiente" => Some(0.45)
        case "excelente" => Some(0.4)
        case _ => None)
      case 'f' =>
        (match w
        case "fortalece" => Some(0.5) case "favorable" => Some(0.45)
        case _ => None)
      case 'g' =>
        (match w
        case "ganancias" => Some(0.55)
        case _ => None)
      case 'h' =>
        (match w
        case "historico" => Some(0.55)
        case _ => None)
      case 'i' =>
        (match w
        case "inversion" => Some(0.4) case "innovador" => Some(0.45)
        case _ => None)
      case 'l' =>
        (match w
        case "liderazgo" => Some(0.35)
        case _ => None)
      case 'm' =>
        (match w
        case "moderniza" => Some(0.45) case "mejorando" => Some(0.5)
        case _ => None)
      case 'o' =>
        (match w
        case "optimismo" => Some(0.5) case "optimista" => Some(0.5) case "objetivos" => Some(0.2)
        case _ => None)
      case 'p' =>
        (match w
        case "proyectos" => Some(0.25)
        case _ => None)
      case 's' =>
        (match w
        case "superavit" => Some(0.6) case "solvencia" => Some(0.5) case "sostenido" => Some(0.5)
        case "sobresale" => Some(0.35)
        case _ => None)
      case _ => None
    else if |w| == 10 then
      match w[0]
      case 'a' =>
        (match w
        case "asociacion" => Some(0.4) case "aprobacion" => Some(0.3) case "activacion" => Some(0.25)
        case "asignacion" => Some(0.2)
        case _ => None)
      case 'b' =>
        (match w
        case "beneficios" => Some(0.55)
        case _ => None)
      case 'd' =>
        (match w
        case "desarrollo" => Some(0.45) case "desarrolla" => Some(0.45)
        case _ => None)
      case 'e' =>
        (match w
        case "eficiencia" => Some(0.45) case "estrategia" => Some(0.25)
        case _ => None)
      case 'f' =>
        (match w
        case "favorables" => Some(0.45)
        case _ => None)
      case 'g' =>
        (match w
        case "generacion" => Some(0.35)
        case _ => None)
      case 'i' =>
        (match w
        case "incremento" => Some(0.45)
        case "incrementa" => Some(0.3)  // also at line 139; the later entry (line 209) wins
        case "innovacion" => Some(0.45)
        case _ => None)
      case 'm' =>
        (match w
        case "multiplica" => Some(0.35)
        case _ => None)
      case 'p' =>
        (match w
        case "prometedor" => Some(0.5) case "promisorio" => Some(0.5) case "productivo" => Some(0.45)
        case "produccion" => Some(0.35)
        case _ => None)
      case 'r' =>
        (match w
        case "renovacion" => Some(0.3)
        case _ => None)
      case 's' =>
        (match w
        case "sostenible" => Some(0.45)
        case _ => None)
      case 'u' =>
        (match w
        case "utilidades" => Some(0.5)
        case _ => None)
      case _ => None
    else if |w| == 11 then
      match w[0]
      case 'a' =>
        (match w
        case "adicionales" => Some(0.2)
        case _ => None)
      case 'c' =>
        (match w
        case "crecimiento" => Some(0.5) case "competitivo" => Some(0.45) case "cooperacion" => Some(0.4)
        case _ => None)
      case 'e' =>
        (match w
        case "estabilidad" => Some(0.45) case "exportacion" => Some(0.4)
        case _ => None)
      case 'l' =>
        (match w
        case "lanzamiento" => Some(0.3)
        case _ => None)
      case 'n' =>
        (match w
        case "negociacion" => Some(0.35)
        case _ => None)
      case 'o' =>
        (match w
        case "oportunidad" => Some(0.4)
        case _ => None)
      case 'p' =>
        (match w
        case "prosperidad" => Some(0.55)
        case _ => None)
      case 'r' =>
        (match w
        case "rendimiento" => Some(0.4)
        case _ => None)
      case 's' =>
        (match w
        case "sustentable" => Some(0.45)
        case _ => None)
      case _ => None
    else if |w| == 12 then
      match w[0]
      case 'a' =>
        (match w
        case "autorizacion" => Some(0.3)
        case _ => None)
      case 'c' =>
        (match w
        case "cumplimiento" => Some(0.3)
        case _ => None)
      case 'i' =>
        (match w
        case "inauguracion" => Some(0.35)
        case _ => None)
      case 'm' =>
        (match w
        case "mejoramiento" => Some(0.5)
        case _ => None)
      case 'o' =>
        (match w
        case "optimizacion" => Some(0.5)
        case _ => None)
      case 'p' =>
        (match w
        case "presentacion" => Some(0.2)
        case _ => None)
      case 'r' =>
        (match w
        case "rentabilidad" => Some(0.55) case "recuperacion" => Some(0.55) case "reactivacion" => Some(0.55)
        case _ => None)
      case _ => None
    else if |w| == 13 then
      match w
      case "modernizacion" => Some(0.45) case "oportunidades" => Some(0.4) case "exportaciones" => Some(0.4)
      case "productividad" => Some(0.45) case "consolidacion" => Some(0.5) case "florecimiento" => Some(0.5)
      case _ => None
    else if |w| == 14 then
      match w
      case "competitividad" => Some(0.45) case "sostenibilidad" => Some(0.45)
      case _ => None
    else if |w| == 15 then
      match w
      case "fortalecimiento" => Some(0.5)
      case _ => None
    else None
  }

  /** `negative_economic.get(w)`, services/processor/main.py:217-327. */
  function ServiceNegative(w: string): Option<real> {
    if |w| == 2 then
      match w
      case "no" => Some(-0.15)
      case _ => None
    else if |w| == 3 then
      match w
      case "cae" => Some(-0.55) case "sin" => Some(-0.2)
      case _ => None
    else if |w| == 4 then
      match w[0]
      case 'b' =>
        (match w
        case "baja" => Some(-0.5)
        case "bajo" => Some(-0.25)  // also at line 220; the later entry (line 326) wins
        case _ => None)
      case 'c' =>
        (match w
        case "cayo" => Some(-0.55)
        case _ => None)
      case 'd' =>
        (match w
        case "dana" => Some(-0.55) case "dano" => Some(-0.55)
        case _ => None)
      case 'f' =>
        (match w
        case "fuga" => Some(-0.65)
        case _ => None)
      case 'p' =>
        (match w
        case "paro" => Some(-0.55) case "para" => Some(-0.25) case "peor" => Some(-0.35)
        case _ => None)
      case 'v' =>
        (match w
        case "veto" => Some(-0.4)
        case _ => None)
      case _ => None
    else if |w| == 5 then
      match w[0]
      case 'a' =>
        (match w
        case "anula" => Some(-0.5)
        case _ => None)
      case 'c' =>
        (match w
        case "caida" => Some(-0.55) case "cerro" => Some(-0.3)
        case _ => None)
      case 'd' =>
        (match w
        case "danos" => Some(-0.55) case "debil" => Some(-0.35)
        case _ => None)
      case 'e' =>
        (match w
        case "evita" => Some(-0.25)
        case _ => None)
      case 'f' =>
        (match w
        case "frena" => Some(-0.5) case "freno" => Some(-0.5) case "falta" => Some(-0.45)
        case "falla" => Some(-0.35) case "fallo" => Some(-0.35)
        case _ => None)
      case 'g' =>
        (match w
        case "golpe" => Some(-0.55) case "grave" => Some(-0.55)
        case _ => None)
      case 'm' =>
        (match w
        case "merma" => Some(-0.5) case "miedo" => Some(-0.5) case "multa" => Some(-0.5) case "menos" => Some(-0.25)
        case "menor" => Some(-0.25)
        case _ => None)
      case 'n' =>
        (match w
        case "niega" => Some(-0.45)
        case _ => None)
      case 't' =>
        (match w
        case "temor" => Some(-0.5)
        case _ => None)
      case _ => None
    else if |w| == 6 then
      match w[0]
      case 'a' =>
        (match w
        case "afecta" => Some(-0.5) case "aplaza" => Some(-0.3) case "alerta" => Some(-0.35)
        case _ => None)
      case 'c' =>
        (match w
        case "crisis" => Some(-0.7) case "cierra" => Some(-0.3) case "cierre" => Some(-0.3)
        case _ => None)
      case 'd' =>
        (match w
        case "delito" => Some(-0.65) case "demora" => Some(-0.3)
        case _ => None)
      case 'e' =>
        (match w
        case "escaso" => Some(-0.55)
        case _ => None)
      case 'f' =>
        (match w
        case "faltan" => Some(-0.45) case "fraude" => Some(-0.75) case "fragil" => Some(-0.4)
        case _ => None)
      case 'g' =>
        (match w
        case "golpea" => Some(-0.55) case "guerra" => Some(-0.75)
        case _ => None)
      case 'h' =>
        (match w
        case "huelga" => Some(-0.6)
        case _ => None)
      case 'i' =>
        (match w
        case "impago" => Some(-0.7) case "ilegal" => Some(-0.65)
        case _ => None)
      case 'l' =>
        (match w
        case "lavado" => Some(-0.7) case "limita" => Some(-0.3)
        case _ => None)
      case 'm' =>
        (match w
        case "minimo" => Some(-0.3)
        case _ => None)
      case 'p' =>
        (match w
        case "pierde" => Some(-0.55) case "perdio" => Some(-0.55) case "panico" => Some(-0.65)
        case "parado" => Some(-0.3) case "peores" => Some(-0.35)
        case _ => None)
      case 'r' =>
        (match w
        case "riesgo" => Some(-0.45) case "reduce" => Some(-0.5) case "retira" => Some(-0.3)
        case "retiro" => Some(-0.3)
        case _ => None)
      case _ => None
    else if |w| == 7 then
      match w[0]
      case 'a' =>
        (match w
        case "amenaza" => Some(-0.55) case "adverso" => Some(-0.55)
        case _ => None)
      case 'b' =>
        (match w
        case "bajaron" => Some(-0.5) case "bloquea" => Some(-0.4) case "bloqueo" => Some(-0.4)
        case _ => None)
      case 'c' =>
        (match w
        case "cayeron" => Some(-0.55) case "colapsa" => Some(-0.7) case "colapso" => Some(-0.7)
        case "cancela" => Some(-0.55) case "contrae" => Some(-0.55) case "critico" => Some(-0.6)
        case _ => None)
      case 'd' =>
        (match w
        case "deficit" => Some(-0.6) case "default" => Some(-0.75) case "devalua" => Some(-0.6)
        case "devaluo" => Some(-0.6) case "despido" => Some(-0.65) case "detiene" => Some(-0.3)
        case _ => None)
      case 'e' =>
        (match w
        case "estanca" => Some(-0.6) case "escasez" => Some(-0.6) case "elimina" => Some(-0.35)
        case "elimino" => Some(-0.35) case "evitado" => Some(-0.25)
        case _ => None)
      case 'f' =>
        (match w
        case "frenada" => Some(-0.5) case "fallido" => Some(-0.35) case "fracasa" => Some(-0.4)
        case "fracaso" => Some(-0.4)
        case _ => None)
      case 'i' =>
        (match w
        case "impacta" => Some(-0.45) case "impacto" => Some(-0.4) case "ilicito" => Some(-0.65)
        case _ => None)
      case 'm' =>
        (match w
        case "menores" => Some(-0.25)
        case _ => None)
      case 'p' =>
        (match w
        case "perdida" => Some(-0.55) case "peligro" => Some(-0.55) case "prohibe" => Some(-0.4)
        case "pospone" => Some(-0.3)
        case _ => None)
      case 'q' =>
        (match w
        case "quiebra" => Some(-0.8)
        case _ => None)
      case 'r' =>
        (match w
        case "riesgos" => Some(-0.45) case "rechaza" => Some(-0.5) case "rechazo" => Some(-0.5)
        case "recorte" => Some(-0.55) case "recorta" => Some(-0.55) case "retrasa" => Some(-0.35)
        case "retraso" => Some(-0.35)
        case _ => None)
      case 's' =>
        (match w
        case "soborno" => Some(-0.7) case "sancion" => Some(-0.6) case "sombrio" => Some(-0.55)
        case "suprime" => Some(-0.35)
        case _ => None)
      case 't' =>
        (match w
        case "tragico" => Some(-0.7) case "termina" => Some(-0.25) case "termino" => Some(-0.25)
        case _ => None)
      case 'v' =>
        (match w
        case "volatil" => Some(-0.5)
        case _ => None)
      case _ => None
    else if |w| == 8 then
      match w[0]
      case 'a' =>
        (match w
        case "amenazas" => Some(-0.55) case "afectado" => Some(-0.5) case "abandona" => Some(-0.4)
        case "abandono" => Some(-0.4) case "advierte" => Some(-0.3)
        case _ => None)
      case 'c' =>
        (match w
        case "carencia" => Some(-0.55) case "corrupto" => Some(-0.7) case "cerraron" => Some(-0.3)
        case "clausura" => Some(-0.35) case "clausuro" => Some(-0.35)
        case _ => None)
      case 'd' =>
        (match w
        case "descenso" => Some(-0.5) case "desploma" => Some(-0.65) case "desplome" => Some(-0.65)
        case "desplomo" => Some(-0.65) case "derrumba" => Some(-0.65) case "derrumbe" => Some(-0.65)
        case "debilita" => Some(-0.55) case "deprecia" => Some(-0.55) case "deprecio" => Some(-0.55)
        case "despidos" => Some(-0.65) case "desastre" => Some(-0.75) case "detenido" => Some(-0.3)
        case "demorado" => Some(-0.3)
        case _ => None)
      case 'i' =>
        (match w
        case "incierto" => Some(-0.55) case "incumple" => Some(-0.4) case "inquieta" => Some(-0.3)
        case "inferior" => Some(-0.3)
        case _ => None)
      case 'l' =>
        (match w
        case "limitado" => Some(-0.3)
        case _ => None)
      case 'n' =>
        (match w
        case "negacion" => Some(-0.45) case "negativo" => Some(-0.5) case "negativa" => Some(-0.5)
        case _ => None)
      case 'p' =>
        (match w
        case "perdidas" => Some(-0.55) case "problema" => Some(-0.5) case "peligros" => Some(-0.55)
        case "paraliza" => Some(-0.35)  // also at line 256; the later entry (line 307) wins
        case "protesta" => Some(-0.5) case "penaliza" => Some(-0.55) case "posterga" => Some(-0.3)
        case "previene" => Some(-0.2) case "preocupa" => Some(-0.35)
        case _ => None)
      case 'r' =>
        (match w
        case "recesion" => Some(-0.7) case "recesivo" => Some(-0.7) case "riesgoso" => Some(-0.45)
        case "renuncia" => Some(-0.35) case "renuncio" => Some(-0.35)
        case _ => None)
      case 's' =>
        (match w
        case "suspende" => Some(-0.55) case "suprimio" => Some(-0.35)
        case _ => None)
      case 't' =>
        (match w
        case "tragedia" => Some(-0.7)
        case _ => None)
      case 'v' =>
        (match w
        case "violento" => Some(-0.7)
        case _ => None)
      case _ => None
    else if |w| == 9 then
      match w[0]
      case 'c' =>
        (match w
        case "conflicto" => Some(-0.6)
        case _ => None)
      case 'd' =>
        (match w
        case "desciende" => Some(-0.5) case "descendio" => Some(-0.5) case "depresion" => Some(-0.75)
        case "deteriora" => Some(-0.55) case "deterioro" => Some(-0.55) case "desconfia" => Some(-0.55)
        case "desempleo" => Some(-0.65) case "disminuye" => Some(-0.5) case "detencion" => Some(-0.3)
        case "debilidad" => Some(-0.35)
        case _ => None)
      case 'e' =>
        (match w
        case "estancado" => Some(-0.6) case "emergente" => Some(-0.55)
        case _ => None)
      case 'f' =>
        (match w
        case "fracasado" => Some(-0.4)
        case _ => None)
      case 'i' =>
        (match w
        case "inflacion" => Some(-0.6) case "inestable" => Some(-0.6) case "inquietud" => Some(-0.3)
        case _ => None)
      case 'p' =>
        (match w
        case "perdieron" => Some(-0.55) case "problemas" => Some(-0.5) case "perjudica" => Some(-0.55)
        case "perjuicio" => Some(-0.55) case "pesimismo" => Some(-0.55) case "pesimista" => Some(-0.55)
        case _ => None)
      case 'q' =>
        (match w
        case "quebranto" => Some(-0.65)
        case _ => None)
      case 'r' =>
        (match w
        case "ralentiza" => Some(-0.5) case "reduccion" => Some(-0.5) case "restringe" => Some(-0.35)
        case "retiraron" => Some(-0.3)
        case _ => None)
      case 's' =>
        (match w
        case "sanciones" => Some(-0.6) case "supresion" => Some(-0.35)
        case _ => None)
      case 'v' =>
        (match w
        case "violencia" => Some(-0.7)
        case _ => None)
      case _ => None
    else if |w| == 10 then
      match w[0]
      case 'a' =>
        (match w
        case "afectacion" => Some(-0.5) case "adversidad" => Some(-0.55)
        case _ => None)
      case 'b' =>
        (match w
        case "bancarrota" => Some(-0.8)
        case _ => None)
      case 'c' =>
        (match w
        case "corrupcion" => Some(-0.7) case "catastrofe" => Some(-0.75)
        case _ => None)
      case 'd' =>
        (match w
        case "dificultad" => Some(-0.5) case "desacelera" => Some(-0.55) case "desconfian" => Some(-0.55)
        case "disturbios" => Some(-0.65) case "desastroso" => Some(-0.75)
        case _ => None)
      case 'e' =>
        (match w
        case "emergencia" => Some(-0.6)
        case _ => None)
      case 'f' =>
        (match w
        case "fragilidad" => Some(-0.4)
        case _ => None)
      case 'i' =>
        (match w
        case "incumplido" => Some(-0.4) case "inferiores" => Some(-0.3)
        case _ => None)
      case 'l' =>
        (match w
        case "limitacion" => Some(-0.3)
        case _ => None)
      case 'p' =>
        (match w
        case "perdurable" => Some(-0.45) case "paralizado" => Some(-0.35) case "prevencion" => Some(-0.2)
        case _ => None)
      case 'r' =>
        (match w
        case "recortaron" => Some(-0.55)
        case _ => None)
      case 's' =>
        (match w
        case "suspension" => Some(-0.55)
        case _ => None)
      case 'v' =>
        (match w
        case "vulnerable" => Some(-0.35)
        case _ => None)
      case _ => None
    else if |w| == 11 then
      match w[0]
      case 'a' =>
        (match w
        case "advertencia" => Some(-0.3)
        case _ => None)
      case 'c' =>
        (match w
        case "cancelacion" => Some(-0.55) case "contraccion" => Some(-0.55)
        case _ => None)
      case 'd' =>
        (match w
        case "deficitario" => Some(-0.6) case "devaluacion" => Some(-0.6) case "desvaloriza" => Some(-0.55)
        case "desempleado" => Some(-0.65) case "disminucion" => Some(-0.5)
        case _ => None)
      case 'e' =>
        (match w
        case "eliminacion" => Some(-0.35)
        case _ => None)
      case 'f' =>
        (match w
        case "fraudulento" => Some(-0.75)
        case _ => None)
      case 'i' =>
        (match w
        case "insolvencia" => Some(-0.75) case "inquietante" => Some(-0.3)
        case _ => None)
      case 'n' =>
        (match w
        case "nerviosismo" => Some(-0.5)
        case _ => None)
      case 'p' =>
        (match w
        case "prohibicion" => Some(-0.4) case "preocupante" => Some(-0.35)
        case _ => None)
      case 'r' =>
        (match w
        case "restriccion" => Some(-0.35) case "restringido" => Some(-0.35)
        case _ => None)
      case 'v' =>
        (match w
        case "volatilidad" => Some(-0.5)
        case _ => None)
      case _ => None
    else if |w| == 12 then
      match w[0]
      case 'a' =>
        (match w
        case "aplazamiento" => Some(-0.3)
        case _ => None)
      case 'c' =>
        (match w
        case "complicacion" => Some(-0.5) case "catastrofico" => Some(-0.75)
        case _ => None)
      case 'd' =>
        (match w
        case "dificultades" => Some(-0.5) case "depreciacion" => Some(-0.55) case "desconfianza" => Some(-0.55)
        case "desfavorable" => Some(-0.55)
        case _ => None)
      case 'p' =>
        (match w
        case "paralizacion" => Some(-0.65) case "penalizacion" => Some(-0.55) case "preocupacion" => Some(-0.35)
        case _ => None)
      case _ => None
    else if |w| == 13 then
      match w
      case "inflacionario" => Some(-0.6) case "ralentizacion" => Some(-0.5) case "estancamiento" => Some(-0.6)
      case "inestabilidad" => Some(-0.6) case "incertidumbre" => Some(-0.55) case "manifestacion" => Some(-0.45)
      case _ => None
    else if |w| == 14 then
      match w
      case "debilitamiento" => Some(-0.55) case "desaceleracion" => Some(-0.55) case "incumplimiento" => Some(-0.4)
      case "vulnerabilidad" => Some(-0.35)
      case _ => None
    else None
  }

  // Tables of local-scripts/2_run_processor.py

  /** `lemmatization_rules.get(w, w)`, local-scripts/2_run_processor.py:25-42. */
  function ScriptLemma(w: string): string {
    if |w| == 4 then
      match w
      case "cayo" => "cae" case "bajo" => "baja" case "gano" => "gana"
      case _ => w
    else if |w| == 5 then
      match w
      case "subio" => "sube" case "logro" => "logra"
      case _ => w
    else if |w| == 6 then
      match w
      case "crecio" => "crece" case "perdio" => "pierde" case "mejoro" => "mejora" case "afecto" => "afecta"
      case _ => w
    else if |w| == 7 then
      match w[0]
      case 'a' =>
        (match w
        case "aumento" => "aumenta"
        case _ => w)
      case 'b' =>
        (match w
        case "bajaron" => "baja" case "bajando" => "baja"
        case _ => w)
      case 'c' =>
        (match w
        case "cayeron" => "cae" case "cayendo" => "cae"
        case _ => w)
      case 'd' =>
        (match w
        case "declino" => "declina"
        case _ => w)
      case 'e' =>
        (match w
        case "empeoro" => "empeora"
        case _ => w)
      case 'f' =>
        (match w
        case "fracaso" => "fracasa"
        case _ => w)
      case 'g' =>
        (match w
        case "ganaron" => "gana" case "ganando" => "gana"
        case _ => w)
      case 'i' =>
        (match w
        case "impulso" => "impulsa"
        case _ => w)
      case _ => w
    else if |w| == 8 then
      match w
      case "subieron" => "sube" case "subiendo" => "sube" case "lograron" => "logra" case "logrando" => "logra"
      case "recupero" => "recupera"
      case _ => w
    else if |w| == 9 then
      match w[0]
      case 'a' =>
        (match w
        case "afectaron" => "afecta" case "afectando" => "afecta"
        case _ => w)
      case 'c' =>
        (match w
        case "creciendo" => "crece" case "crecieron" => "crece"
        case _ => w)
      case 'd' =>
        (match w
        case "disminuyo" => "disminuye"
        case _ => w)
      case 'm' =>
        (match w
        case "mejoraron" => "mejora" case "mejorando" => "mejora"
        case _ => w)
      case 'p' =>
        (match w
        case "perdieron" => "pierde" case "perdiendo" => "pierde"
        case _ => w)
      case _ => w
    else if |w| == 10 then
      match w[0]
      case 'a' =>
        (match w
        case "aumentaron" => "aumenta" case "aumentando" => "aumenta"
        case _ => w)
      case 'd' =>
        (match w
        case "declinaron" => "declina" case "declinando" => "declina"
        case _ => w)
      case 'e' =>
        (match w
        case "empeoraron" => "empeora" case "empeorando" => "empeora"
        case _ => w)
      case 'f' =>
        (match w
        case "fracasaron" => "fracasa" case "fracasando" => "fracasa"
        case _ => w)
      case 'i' =>
        (match w
        case "impulsaron" => "impulsa" case "impulsando" => "impulsa"
        case _ => w)
      case _ => w
    else if |w| == 11 then
      match w
      case "recuperaron" => "recupera" case "recuperando" => "recupera"
      case _ => w
    else if |w| == 12 then
      match w
      case "disminuyeron" => "disminuye" case "disminuyendo" => "disminuye"
      case _ => w
    else w
  }

  /** `intensifiers.get(w)`, local-scripts/2_run_processor.py:59-82. */
  function ScriptIntensifier(w: string): Option<real> {
    if |w| == 3 then
      match w
      case "muy" => Some(1.5)
      case _ => None
    else if |w| == 4 then
      match w
      case "poco" => Some(0.7)
      case _ => None
    else if |w| == 6 then
      match w
      case "apenas" => Some(0.6)
      case _ => None
    else if |w| == 8 then
      match w
      case "bastante" => Some(1.3)
      case _ => None
    else if |w| == 9 then
      match w
      case "altamente" => Some(1.6) case "sumamente" => Some(1.7) case "demasiado" => Some(1.4)
      case _ => None
    else if |w| == 10 then
      match w
      case "agudamente" => Some(1.6)
      case _ => None
    else if |w| == 11 then
      match w
      case "fuertemente" => Some(1.6) case "ligeramente" => Some(0.7) case "enormemente" => Some(1.8)
      case "severamente" => Some(1.7) case "escasamente" => Some(0.6)
      case _ => None
    else if |w| == 12 then
      match w
      case "notablemente" => Some(1.5) case "marcadamente" => Some(1.6)
      case _ => None
    else if |w| == 13 then
      match w
      case "drasticamente" => Some(1.8) case "moderadamente" => Some(0.85) case "profundamente" => Some(1.7)
      case "relativamente" => Some(0.8)
      case _ => None
    else if |w| == 14 then
      match w
      case "extremadamente" => Some(1.9)
      case _ => None
    else if |w| == 17 then
      match w
      case "considerablemente" => Some(1.6)
      case _ => None
    else if |w| == 18 then
      match w
      case "significativamente" => Some(1.7)
      case _ => None
    else None
  }

  /** `w in negations`, local-scripts/2_run_processor.py:85-90. */
  predicate ScriptIsNegation(w: string) {
    if |w| == 2 then
      match w
      case "no" => true case "ni" => true
      case _ => false
    else if |w| == 3 then
      match w
      case "sin" => true
      case _ => false
    else if |w| == 4 then
      match w
      case "nada" => true case "nego" => true
      case _ => false
    else if |w| == 5 then
      match w
      case "nunca" => true case "jamas" => true case "evita" => true case "evito" => true
      case "nadie" => true case "niega" => true case "frena" => true case "freno" => true
      case _ => false
    else if |w| == 6 then
      match w
      case "impide" => true case "detuvo" => true
      case _ => false
    else if |w| == 7 then
      match w
      case "tampoco" => true case "ninguno" => true case "ninguna" => true case "rechaza" => true
      case "rechazo" => true case "impidio" => true case "detiene" => true
      case _ => false
    else if |w| == 9 then
      match w
      case "imposible" => true
      case _ => false
    else false
  }

  /** `positive_economic.get(w)`, local-scripts/2_run_processor.py:93-130. */
  function ScriptPositive(w: string): Option<real> {
    if |w| == 4 then
      match w
      case "sube" => Some(0.35) case "gana" => Some(0.3) case "auge" => Some(0.45)
      case _ => None
    else if |w| == 5 then
      match w
      case "crece" => Some(0.4) case "exito" => Some(0.5) case "logro" => Some(0.4) case "logra" => Some(0.4)
      case "vende" => Some(0.25) case "lanza" => Some(0.25)
      case _ => None
    else if |w| == 6 then
      match w
      case "subida" => Some(0.35) case "record" => Some(0.45) case "mejora" => Some(0.35)
      case _ => None
    else if |w| == 7 then
      match w[0]
      case 'a' =>
        (match w
        case "aumenta" => Some(0.3) case "aumento" => Some(0.3) case "acuerdo" => Some(0.25)
        case "alianza" => Some(0.3)
        case _ => None)
      case 'b' =>
        (match w
        case "bonanza" => Some(0.5)
        case _ => None)
      case 'd' =>
        (match w
        case "dolares" => Some(0.2)
        case _ => None)
      case 'e' =>
        (match w
        case "exitoso" => Some(0.5) case "exporta" => Some(0.3)
        case _ => None)
      case 'i' =>
        (match w
        case "impulsa" => Some(0.35)
        case _ => None)
      case 'r' =>
        (match w
        case "repunte" => Some(0.4)
        case _ => None)
      case 's' =>
        (match w
        case "solidez" => Some(0.4)
        case _ => None)
      case _ => None
    else if |w| == 8 then
      match w[0]
      case 'b' =>
        (match w
        case "billones" => Some(0.3)
        case _ => None)
      case 'c' =>
        (match w
        case "contrato" => Some(0.2)
        case _ => None)
      case 'd' =>
        (match w
        case "dinamiza" => Some(0.35)
        case _ => None)
      case 'g' =>
        (match w
        case "ganancia" => Some(0.35)
        case _ => None)
      case 'i' =>
        (match w
        case "invierte" => Some(0.3) case "inaugura" => Some(0.3)
        case _ => None)
      case 'l' =>
        (match w
        case "liquidez" => Some(0.3)
        case _ => None)
      case 'm' =>
        (match w
        case "millones" => Some(0.25)
        case _ => None)
      case 'p' =>
        (match w
        case "positivo" => Some(0.4) case "progreso" => Some(0.35) case "prospera" => Some(0.45)
        case _ => None)
      case 'r' =>
        (match w
        case "recupera" => Some(0.4) case "rentable" => Some(0.4)
        case _ => None)
      case _ => None
    else if |w| == 9 then
      match w[0]
      case 'a' =>
        (match w
        case "atraccion" => Some(0.4)
        case _ => None)
      case 'b' =>
        (match w
        case "beneficio" => Some(0.4)
        case _ => None)
      case 'c' =>
        (match w
        case "condecora" => Some(0.35) case "confianza" => Some(0.35)
        case _ => None)
      case 'e' =>
        (match w
        case "expansion" => Some(0.35)
        case _ => None)
      case 'f' =>
        (match w
        case "favorable" => Some(0.3)
        case _ => None)
      case 'h' =>
        (match w
        case "historico" => Some(0.4)
        case _ => None)
      case 'i' =>
        (match w
        case "inversion" => Some(0.3)
        case _ => None)
      case 'o' =>
        (match w
        case "optimismo" => Some(0.45)
        case _ => None)
      case 'p' =>
        (match w
        case "priorizar" => Some(0.25)
        case _ => None)
      case 's' =>
        (match w
        case "superavit" => Some(0.45) case "sostenido" => Some(0.4)
        case _ => None)
      case _ => None
    else if |w| == 10 then
      match w[0]
      case 'd' =>
        (match w
        case "desarrollo" => Some(0.25)
        case _ => None)
      case 'e' =>
        (match w
        case "eficiencia" => Some(0.3)
        case _ => None)
      case 'f' =>
        (match w
        case "fortalecer" => Some(0.3)
        case _ => None)
      case 'i' =>
        (match w
        case "incremento" => Some(0.3) case "importante" => Some(0.2) case "innovacion" => Some(0.35)
        case _ => None)
      case 'p' =>
        (match w
        case "promisorio" => Some(0.35) case "prometedor" => Some(0.35)
        case _ => None)
      case 'r' =>
        (match w
        case "reconocida" => Some(0.25)
        case _ => None)
      case _ => None
    else if |w| == 11 then
      match w
      case "crecimiento" => Some(0.4) case "oportunidad" => Some(0.3) case "negociacion" => Some(0.25)
      case "estabilidad" => Some(0.35) case "prosperidad" => Some(0.45) case "floreciente" => Some(0.4)
      case _ => None
    else if |w| == 12 then
      match w
      case "recuperacion" => Some(0.4) case "reactivacion" => Some(0.4) case "rentabilidad" => Some(0.4)
      case _ => None
    else if |w| == 13 then
      match w
      case "modernizacion" => Some(0.35) case "productividad" => Some(0.35) case "consolidacion" => Some(0.35)
      case _ => None
    else if |w| == 14 then
      match w
      case "sostenibilidad" => Some(0.3) case "competitividad" => Some(0.35)
      case _ => None
    else if |w| == 15 then
      match w
      case "fortalecimiento" => Some(0.35)
      case _ => None
    else None
  }

  /** `negative_economic.get(w)`, local-scripts/2_run_processor.py:132-166. */
  function ScriptNegative(w: string): Option<real> {
    if |w| == 3 then
      match w
      case "cae" => Some(-0.4)
      case _ => None
    else if |w| == 4 then
      match w
      case "baja" => Some(-0.3) case "daño" => Some(-0.4) case "fuga" => Some(-0.5) case "paro" => Some(-0.45)
      case _ => None
    else if |w| == 5 then
      match w
      case "caida" => Some(-0.4) case "deuda" => Some(-0.35) case "multa" => Some(-0.35)
      case _ => None
    else if |w| == 6 then
      match w[0]
      case 'a' =>
        (match w
        case "afecta" => Some(-0.3) case "ajuste" => Some(-0.3)
        case _ => None)
      case 'c' =>
        (match w
        case "crisis" => Some(-0.6) case "cierra" => Some(-0.3)
        case _ => None)
      case 'g' =>
        (match w
        case "guerra" => Some(-0.5)
        case _ => None)
      case 'h' =>
        (match w
        case "huelga" => Some(-0.4)
        case _ => None)
      case 'i' =>
        (match w
        case "impago" => Some(-0.45)
        case _ => None)
      case 'p' =>
        (match w
        case "pierde" => Some(-0.35)
        case _ => None)
      case 'r' =>
        (match w
        case "reduce" => Some(-0.3) case "riesgo" => Some(-0.3)
        case _ => None)
      case _ => None
    else if |w| == 7 then
      match w[0]
      case 'a' =>
        (match w
        case "amenaza" => Some(-0.4) case "asesina" => Some(-0.6)
        case _ => None)
      case 'c' =>
        (match w
        case "colapso" => Some(-0.7)
        case _ => None)
      case 'd' =>
        (match w
        case "deficit" => Some(-0.45) case "declive" => Some(-0.4) case "despido" => Some(-0.5)
        case _ => None)
      case 'e' =>
        (match w
        case "empeora" => Some(-0.4) case "escasez" => Some(-0.4)
        case _ => None)
      case 'f' =>
        (match w
        case "fracaso" => Some(-0.5)
        case _ => None)
      case 'p' =>
        (match w
        case "perdida" => Some(-0.4)
        case _ => None)
      case 'q' =>
        (match w
        case "quiebra" => Some(-0.7)
        case _ => None)
      case 'r' =>
        (match w
        case "rescate" => Some(-0.4) case "recorte" => Some(-0.35)
        case _ => None)
      case _ => None
    else if |w| == 8 then
      match w[0]
      case 'a' =>
        (match w
        case "afectara" => Some(-0.3)
        case _ => None)
      case 'c' =>
        (match w
        case "combaten" => Some(-0.3)
        case _ => None)
      case 'd' =>
        (match w
        case "desplome" => Some(-0.6)
        case _ => None)
      case 'n' =>
        (match w
        case "negativo" => Some(-0.4)
        case _ => None)
      case 'p' =>
        (match w
        case "preocupa" => Some(-0.35) case "problema" => Some(-0.3) case "protesta" => Some(-0.35)
        case _ => None)
      case 'r' =>
        (match w
        case "recesion" => Some(-0.6)
        case _ => None)
      case 's' =>
        (match w
        case "suspende" => Some(-0.35)
        case _ => None)
      case _ => None
    else if |w| == 9 then
      match w[0]
      case 'c' =>
        (match w
        case "conflicto" => Some(-0.4)
        case _ => None)
      case 'd' =>
        (match w
        case "disminuye" => Some(-0.35) case "deterioro" => Some(-0.45) case "dictadura" => Some(-0.6)
        case "desempleo" => Some(-0.5)
        case _ => None)
      case 'i' =>
        (match w
        case "inflacion" => Some(-0.45)
        case _ => None)
      case 'm' =>
        (match w
        case "morosidad" => Some(-0.4)
        case _ => None)
      case 's' =>
        (match w
        case "sanciones" => Some(-0.45)
        case _ => None)
      case 'v' =>
        (match w
        case "violencia" => Some(-0.5)
        case _ => None)
      case _ => None
    else if |w| == 10 then
      match w
      case "dificultad" => Some(-0.35) case "emergencia" => Some(-0.4) case "corrupcion" => Some(-0.6)
      case "bancarrota" => Some(-0.7) case "austeridad" => Some(-0.35)
      case _ => None
    else if |w| == 11 then
      match w
      case "volatilidad" => Some(-0.3) case "mercenarios" => Some(-0.4) case "devaluacion" => Some(-0.4)
      case "contraccion" => Some(-0.4) case "insolvencia" => Some(-0.6)
      case _ => None
    else if |w| == 12 then
      match w
      case "preocupacion" => Some(-0.35) case "desconfianza" => Some(-0.35) case "penalizacion" => Some(-0.35)
      case "depreciacion" => Some(-0.35) case "intervencion" => Some(-0.35)
      case _ => None
    else if |w| == 13 then
      match w
      case "incertidumbre" => Some(-0.4) case "inestabilidad" => Some(-0.45) case "estancamiento" => Some(-0.4)
      case "racionamiento" => Some(-0.45)
      case _ => None
    else if |w| == 14 then
      match w
      case "desaceleracion" => Some(-0.4)
      case _ => None
    else if |w| == 17 then
      match w
      case "desabastecimiento" => Some(-0.45)
      case _ => None
    else if |w| == 18 then
      match w
      case "sobreendeudamiento" => Some(-0.5)
      case _ => None
    else None
  }
}
