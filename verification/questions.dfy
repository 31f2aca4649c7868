/**
 * The fixed intake questionnaire: the language choices, the welcome and
 * language-selection texts, and fourteen numbered questions, each with a
 * text per language. Lookups fall back to English when a translation is
 * missing.
 */
module Questions {
  import opened Wrappers

  /** One questionnaire entry: its 1-based number, the record field it feeds and its texts. */
  datatype AnamnesisQuestion = AnamnesisQuestion(
    number: nat,
    fieldName: string,
    description: string,
    translations: map<string, string>)
  {
    /**
     * The text in `language`, else the English text, else "". A language
     * that was never chosen (`None`) is never a key, so it reads English.
     */
    function Translated(language: Option<string>): (r: string)
      ensures language.Some? && language.value in translations ==> r == translations[language.value]
      ensures !(language.Some? && language.value in translations) && "en" in translations ==> r == translations["en"]
      ensures !(language.Some? && language.value in translations) && "en" !in translations ==> r == ""
      ensures r == "" || r in translations.Values
    {
      if language.Some? && language.value in translations then translations[language.value]
      else if "en" in translations then translations["en"]
      else ""
    }
  }

  /** The languages a patient may choose, by code. */
  const LanguageOptions: map<string, string> := map[
    "en" := "English",
    "es" := "Español",
    "pt-BR" := "Português (Brasil)",
    "it" := "Italiano"
  ]

  const WelcomeMessages: map<string, string> := map[
    "en" := "Welcome to Triage AI. I'll ask you a few questions to understand your symptoms and help direct you to the right care.",
    "es" := "Bienvenido a Triage AI. Le haré algunas preguntas para entender sus síntomas y ayudarle a recibir la atención adecuada.",
    "pt-BR" := "Bem-vindo ao Triage AI. Farei algumas perguntas para entender seus sintomas e ajudá-lo a receber o atendimento adequado.",
    "it" := "Benvenuto a Triage AI. Le farò alcune domande per comprendere i suoi sintomi e aiutarla a ricevere le cure appropriate."
  ]

  const LanguageQuestions: map<string, string> := map[
    "en" := "Please select your preferred language:",
    "es" := "Por favor seleccione su idioma preferido:",
    "pt-BR" := "Por favor, selecione seu idioma preferido:",
    "it" := "Per favore, selezioni la lingua preferita:"
  ]

  /** The questionnaire, in the order it is asked. */
  const Catalog: seq<AnamnesisQuestion> := [
    AnamnesisQuestion(1, "patient_name", "Patient's full name", map[
      "en" := "What is your full name?",
      "es" := "¿Cuál es su nombre completo?",
      "pt-BR" := "Qual é o seu nome completo?",
      "it" := "Qual è il suo nome completo?"
    ]),
    AnamnesisQuestion(2, "date_of_birth", "Patient's date of birth", map[
      "en" := "What is your date of birth?",
      "es" := "¿Cuál es su fecha de nacimiento?",
      "pt-BR" := "Qual é a sua data de nascimento?",
      "it" := "Qual è la sua data di nascita?"
    ]),
    AnamnesisQuestion(3, "phone_number", "Contact phone number", map[
      "en" := "What is your phone number?",
      "es" := "¿Cuál es su número de teléfono?",
      "pt-BR" := "Qual é o seu número de telefone?",
      "it" := "Qual è il suo numero di telefono?"
    ]),
    AnamnesisQuestion(4, "emergency_contact_name", "Emergency contact person", map[
      "en" := "Emergency contact name (who should we call in case of emergency)?",
      "es" := "Nombre del contacto de emergencia (¿a quién debemos llamar en caso de emergencia)?",
      "pt-BR" := "Nome do contato de emergência (quem devemos ligar em caso de emergência)?",
      "it" := "Nome del contatto di emergenza (chi dobbiamo chiamare in caso di emergenza)?"
    ]),
    AnamnesisQuestion(5, "emergency_contact_phone", "Emergency contact phone", map[
      "en" := "Emergency contact phone number?",
      "es" := "¿Número de teléfono del contacto de emergencia?",
      "pt-BR" := "Número de telefone do contato de emergência?",
      "it" := "Numero di telefono del contatto di emergenza?"
    ]),
    AnamnesisQuestion(6, "chief_complaint", "Main reason for visit", map[
      "en" := "What brings you in today?",
      "es" := "¿Qué le trae hoy?",
      "pt-BR" := "O que o traz aqui hoje?",
      "it" := "Cosa la porta qui oggi?"
    ]),
    AnamnesisQuestion(7, "onset", "When symptoms started", map[
      "en" := "When did this start?",
      "es" := "¿Cuándo comenzó esto?",
      "pt-BR" := "Quando isso começou?",
      "it" := "Quando è iniziato?"
    ]),
    AnamnesisQuestion(8, "pain_scale", "Severity rating", map[
      "en" := "On a scale of 1-10, how severe is it?",
      "es" := "En una escala del 1 al 10, ¿qué tan severo es?",
      "pt-BR" := "Em uma escala de 1 a 10, qual a intensidade?",
      "it" := "Su una scala da 1 a 10, quanto è grave?"
    ]),
    AnamnesisQuestion(9, "location", "Body location", map[
      "en" := "Where exactly is the problem located?",
      "es" := "¿Dónde exactamente está ubicado el problema?",
      "pt-BR" := "Onde exatamente está localizado o problema?",
      "it" := "Dove si trova esattamente il problema?"
    ]),
    AnamnesisQuestion(10, "radiation", "Pain radiation", map[
      "en" := "Does the pain spread anywhere else?",
      "es" := "¿El dolor se extiende a algún otro lugar?",
      "pt-BR" := "A dor se espalha para algum outro lugar?",
      "it" := "Il dolore si irradia altrove?"
    ]),
    AnamnesisQuestion(11, "associated_symptoms", "Associated symptoms", map[
      "en" := "Any other symptoms? (dizziness, nausea, fever, etc.)",
      "es" := "¿Algún otro síntoma? (mareos, náuseas, fiebre, etc.)",
      "pt-BR" := "Algum outro sintoma? (tontura, náusea, febre, etc.)",
      "it" := "Altri sintomi? (vertigini, nausea, febbre, ecc.)"
    ]),
    AnamnesisQuestion(12, "medical_history", "Past medical history", map[
      "en" := "Do you have any medical conditions?",
      "es" := "¿Tiene alguna condición médica?",
      "pt-BR" := "Você tem alguma condição médica?",
      "it" := "Ha qualche condizione medica?"
    ]),
    AnamnesisQuestion(13, "current_medications", "Current medications", map[
      "en" := "What medications are you currently taking?",
      "es" := "¿Qué medicamentos está tomando actualmente?",
      "pt-BR" := "Quais medicamentos você está tomando atualmente?",
      "it" := "Quali farmaci sta assumendo attualmente?"
    ]),
    AnamnesisQuestion(14, "allergies", "Known allergies", map[
      "en" := "Do you have any allergies?",
      "es" := "¿Tiene alguna alergia?",
      "pt-BR" := "Você tem alguma alergia?",
      "it" := "Ha qualche allergia?"
    ])
  ]

  /** Entry `i` of the catalog carries number `i + 1`: numbering is contiguous from 1. */
  lemma CatalogNumbered()
    ensures |Catalog| == 14
    ensures forall i :: 0 <= i < |Catalog| ==> Catalog[i].number == i + 1
  {
  }

  /** The question numbered `n`, or `None` when `n` is outside the catalog. */
  function GetQuestion(n: int): (r: Option<AnamnesisQuestion>)
    ensures r.Some? <==> 1 <= n <= |Catalog|
    ensures r.Some? ==> r.value == Catalog[n - 1] && r.value.number == n
  {
    CatalogNumbered();
    if 1 <= n <= |Catalog| then Some(Catalog[n - 1]) else None
  }

  /** The text of entry `n` (from 1) of `questions` in `language`, or `None` outside the list. */
  function QuestionTextIn(questions: seq<AnamnesisQuestion>, n: int, language: Option<string>): (r: Option<string>)
    ensures r.None? <==> !(1 <= n <= |questions|)
    ensures r.Some? ==> r.value == questions[n - 1].Translated(language)
  {
    if 1 <= n <= |questions| then Some(questions[n - 1].Translated(language)) else None
  }

  /** The text of question `n` in `language`, or `None` when `n` is outside the catalog. */
  function GetQuestionText(n: int, language: Option<string>): (r: Option<string>)
    ensures r.None? <==> !(1 <= n <= TotalQuestions())
    ensures r.Some? ==> r.value == Catalog[n - 1].Translated(language)
    ensures r == QuestionTextIn(Catalog, n, language)
  {
    var q := GetQuestion(n);
    if q.Some? then Some(q.value.Translated(language)) else None
  }

  /** The number of questions: the length of the catalog, fourteen. */
  function TotalQuestions(): (r: nat)
    ensures r == |Catalog| && r == 14
  {
    |Catalog|
  }

  /** The welcome text in `language`, English for a code without one. */
  function WelcomeMessage(language: string): (r: string)
    ensures language in WelcomeMessages ==> r == WelcomeMessages[language]
    ensures language !in WelcomeMessages ==> r == WelcomeMessages["en"]
  {
    if language in WelcomeMessages then WelcomeMessages[language] else WelcomeMessages["en"]
  }

  /** The language-selection prompt in `language`, English for a code without one. */
  function LanguageQuestion(language: string): (r: string)
    ensures language in LanguageQuestions ==> r == LanguageQuestions[language]
    ensures language !in LanguageQuestions ==> r == LanguageQuestions["en"]
  {
    if language in LanguageQuestions then LanguageQuestions[language] else LanguageQuestions["en"]
  }

  /** The first question's text in `language`. */
  function FirstQuestion(language: Option<string>): (r: string)
    ensures GetQuestionText(1, language) == Some(r)
  {
    Catalog[0].Translated(language)
  }

  /** Every selectable language has its own welcome text and selection prompt. */
  lemma SelectableLanguagesGreeted()
    ensures LanguageOptions.Keys == WelcomeMessages.Keys == LanguageQuestions.Keys
  {
  }

  /** Question `q` reads as a non-empty text in every selectable language and in English. */
  ghost predicate FullyTranslated(q: AnamnesisQuestion) {
    forall code :: code in LanguageOptions ==> code in q.translations && q.translations[code] != ""
  }

  /**
   * Every catalog question has a non-empty text for each selectable language,
   * so no question in range is ever shown as "" in any language, chosen or not.
   */
  lemma CatalogFullyTranslated(n: int, language: Option<string>)
    requires 1 <= n <= TotalQuestions()
    ensures FullyTranslated(Catalog[n - 1])
    ensures GetQuestionText(n, language).Some? && GetQuestionText(n, language).value != ""
  {
    if n <= 7 {
      EarlyQuestionsTranslated(n - 1);
    } else {
      LateQuestionsTranslated(n - 1);
    }
    assert "en" in LanguageOptions;
  }

  /** The first seven questions are fully translated. */
  lemma EarlyQuestionsTranslated(i: int)
    requires 0 <= i < 7
    ensures FullyTranslated(Catalog[i])
  {
  }

  /** The last seven questions are fully translated. */
  lemma LateQuestionsTranslated(i: int)
    requires 7 <= i < 14
    ensures FullyTranslated(Catalog[i])
  {
  }
}
