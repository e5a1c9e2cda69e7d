/** The languages the pipeline speaks (nodes.py): the eleven codes of the
    recipe prompt's language instructions, and the five of them the
    clarification messages come in. */
module Languages {
  import opened Wrappers
  import opened Text

  /** The languages the recipe prompt has an instruction for. */
  datatype Language =
    | Italian | English | French | Spanish | German | Portuguese
    | Chinese | Japanese | Korean | Russian | Arabic

  /** The code each language has in the instruction table. */
  function CodeOf(language: Language): string {
    match language
    case Italian => "it"
    case English => "en"
    case French => "fr"
    case Spanish => "es"
    case German => "de"
    case Portuguese => "pt"
    case Chinese => "zh"
    case Japanese => "ja"
    case Korean => "ko"
    case Russian => "ru"
    case Arabic => "ar"
  }

  /** The language a code names, if it is one of the instruction table's
      eleven keys. */
  function LanguageOf(code: string): (r: Option<Language>)
    ensures r.Some? <==> code in ["it", "en", "fr", "es", "de", "pt", "zh", "ja", "ko", "ru", "ar"]
    ensures r.Some? ==> CodeOf(r.value) == code
  {
    if code == "it" then Some(Italian)
    else if code == "en" then Some(English)
    else if code == "fr" then Some(French)
    else if code == "es" then Some(Spanish)
    else if code == "de" then Some(German)
    else if code == "pt" then Some(Portuguese)
    else if code == "zh" then Some(Chinese)
    else if code == "ja" then Some(Japanese)
    else if code == "ko" then Some(Korean)
    else if code == "ru" then Some(Russian)
    else if code == "ar" then Some(Arabic)
    else None
  }

  /** Each language is found under its own code, so no two share one. */
  lemma {:induction false} LanguageOfCode(language: Language)
    ensures LanguageOf(CodeOf(language)) == Some(language)
  {
    match language {
      case Italian => case English => case French => case Spanish => case German => case Portuguese =>
      case Chinese => case Japanese => case Korean => case Russian => case Arabic =>
    }
  }

  /** The instruction table's entry for a language. */
  function Instruction(language: Language): string {
    match language
    case Italian => "IMPORTANTE: Rispondi SEMPRE in italiano. Usa unità di misura italiane (grammi, litri, cucchiai, ecc.). Scrivi tutti i testi in italiano."
    case English => "IMPORTANT: Always respond in English. Use imperial or metric measurements as appropriate. Write all text in English."
    case French => "IMPORTANT: Répondez TOUJOURS en français. Utilisez des unités de mesure françaises (grammes, litres, cuillères, etc.). Écrivez tout le texte en français."
    case Spanish => "IMPORTANTE: Responde SIEMPRE en español. Usa unidades de medida españolas (gramos, litros, cucharadas, etc.). Escribe todo el texto en español."
    case German => "WICHTIG: Antworte IMMER auf Deutsch. Verwende deutsche Maßeinheiten (Gramm, Liter, Esslöffel, usw.). Schreibe den gesamten Text auf Deutsch."
    case Portuguese => "IMPORTANTE: Responda SEMPRE em português. Use unidades de medida portuguesas (gramas, litros, colheres, etc.). Escreva todo o texto em português."
    case Chinese => "重要：始终用中文回复。使用中文度量单位（克、升、勺等）。用中文写所有文本。"
    case Japanese => "重要：必ず日本語で回答してください。日本の単位（グラム、リットル、大さじなど）を使用してください。すべてのテキストを日本語で書いてください。"
    case Korean => "중요: 항상 한국어로 답하세요. 한국의 측정 단위(그램, 리터, 큰술 등)를 사용하세요. 모든 텍스트를 한국어로 작성하세요."
    case Russian => "ВАЖНО: Всегда отвечайте на русском языке. Используйте русские единицы измерения (граммы, литры, ложки и т.д.). Пишите весь текст на русском языке."
    case Arabic => "مهم: أجب دائماً بالعربية. استخدم وحدات القياس العربية (جرام، لتر، ملعقة، إلخ). اكتب كل النص بالعربية."
  }

  const DefaultLanguage := "it"

  /** The language whose instruction `get_language_instructions` returns for
      a code: the code's own, or Italian for a code the table does not hold. */
  function InstructionLanguage(code: string): (language: Language)
    ensures LanguageOf(code).Some? ==> language == LanguageOf(code).value
    ensures LanguageOf(code).None? ==> language == Italian
  {
    LanguageOf(code).GetOr(Italian)
  }

  /** `get_language_instructions`: the table's entry for the code, or the
      Italian entry. */
  function LanguageInstruction(code: string): (r: string)
    ensures code in ["it", "en", "fr", "es", "de", "pt", "zh", "ja", "ko", "ru", "ar"] ==>
              r == Instruction(LanguageOf(code).value) && CodeOf(LanguageOf(code).value) == code
    ensures code !in ["it", "en", "fr", "es", "de", "pt", "zh", "ja", "ko", "ru", "ar"] ==> r == Instruction(Italian)
  {
    Instruction(InstructionLanguage(code))
  }


  /** A language's three clarification messages; the "more details" one is
      `detailsBefore + desire + detailsAfter`. */
  datatype Templates = Templates(rateLimit: string, noDesire: string, detailsBefore: string, detailsAfter: string)

  /** The five languages the clarification table has an entry for. */
  predicate HasClarifications(language: Language) {
    language.Italian? || language.English? || language.French? || language.Spanish? || language.German?
  }

  /** The clarification table's entry for one of its languages. */
  function TemplateTexts(language: Language): Templates
    requires HasClarifications(language)
  {
    match language
    case Italian => Templates(
        "Ho raggiunto il limite di richieste. Attendi un momento e riprova.",
        "Cosa vorresti cucinare? Descrivi il piatto che hai in mente.",
        "Ho bisogno di più dettagli per creare la tua ricetta. Potresti essere più specifico riguardo '",
        "'?")
    case English => Templates(
        "I've hit a rate limit. Please wait a moment and try again.",
        "What would you like to cook? Please describe the dish you have in mind.",
        "I need more details to create your recipe. Could you be more specific about '",
        "'?")
    case French => Templates(
        "J'ai atteint une limite de débit. Veuillez attendre un moment et réessayer.",
        "Que souhaitez-vous cuisiner ? Veuillez décrire le plat que vous avez en tête.",
        "J'ai besoin de plus de détails pour créer votre recette. Pourriez-vous être plus précis sur '",
        "'?")
    case Spanish => Templates(
        "He alcanzado un límite de velocidad. Por favor, espera un momento e inténtalo de nuevo.",
        "¿Qué te gustaría cocinar? Describe el plato que tienes en mente.",
        "Necesito más detalles para crear tu receta. ¿Podrías ser más específico sobre '",
        "'?")
    case German => Templates(
        "Ich habe ein Ratenlimit erreicht. Bitte warten Sie einen Moment und versuchen Sie es erneut.",
        "Was möchten Sie kochen? Bitte beschreiben Sie das Gericht, das Sie sich vorstellen.",
        "Ich brauche mehr Details, um Ihr Rezept zu erstellen. Könnten Sie spezifischer über '",
        "' sein?")
  }

  /** The language whose templates the node uses for a code: the table's
      keys are `it`, `en`, `fr`, `es` and `de`, each naming the language the
      recipe prompt gives it; every other code gets the Italian templates. */
  function ClarificationLanguage(code: string): (language: Language)
    ensures HasClarifications(language)
    ensures code in ["it", "en", "fr", "es", "de"] ==> LanguageOf(code) == Some(language)
    ensures code !in ["it", "en", "fr", "es", "de"] ==> language == Italian
  {
    if code == "it" then Italian
    else if code == "en" then English
    else if code == "fr" then French
    else if code == "es" then Spanish
    else if code == "de" then German
    else Italian
  }

  /** The templates the clarification node looks up for a code, with the
      Italian ones as the fallback. */
  function TemplatesFor(code: string): (t: Templates)
    ensures code in ["it", "en", "fr", "es", "de"] ==> t == TemplateTexts(LanguageOf(code).value)
    ensures code !in ["it", "en", "fr", "es", "de"] ==> t == TemplateTexts(Italian)
  {
    TemplateTexts(ClarificationLanguage(code))
  }


  /** An assistant message of the clarification node, known by the language
      of its templates and the template it instantiates; its text is
      `ClarificationText`. */
  datatype Clarification =
    | RateLimitNotice(language: Language)
    | DishQuestion(language: Language)
    | DetailsQuestion(language: Language, desire: string)

  /** A clarification message written out with templates `t`: the template
      itself, or the "more details" template around the user's desire. */
  function Render(t: Templates, c: Clarification): string {
    match c
    case RateLimitNotice(_) => t.rateLimit
    case DishQuestion(_) => t.noDesire
    case DetailsQuestion(_, desire) => t.detailsBefore + desire + t.detailsAfter
  }

  /** The text of a clarification message, in its language's templates. */
  function ClarificationText(c: Clarification): string
    requires HasClarifications(c.language)
  {
    Render(TemplateTexts(c.language), c)
  }

  /** The "more details" message quotes the desire, whatever the templates. */
  lemma {:induction false} DetailsQuoteDesire(t: Templates, language: Language, desire: string)
    ensures Contains(Render(t, DetailsQuestion(language, desire)), desire)
  {
    ContainsMiddle(t.detailsBefore, desire, t.detailsAfter);
  }
}
