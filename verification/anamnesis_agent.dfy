/**
 * The extraction stage: it lays the patient's answers out as numbered
 * question/answer pairs, asks the language model for a JSON record and
 * validates what comes back as an `Anamnesis`.
 */
module AnamnesisAgent {
  import opened Wrappers
  import opened Text
  import opened Json
  import opened Schemas
  import opened Questions
  import opened Services

  /** The language names used in the extraction prompt. */
  const LanguageNames: map<string, string> := map[
    "en" := "English",
    "es" := "Spanish",
    "pt-BR" := "Portuguese (Brazil)"
  ]

  /** The name of `language` for the prompt; a code without an entry, or none, reads "English". */
  function LanguageName(language: Option<string>): (r: string)
    ensures language.Some? && language.value in LanguageNames ==> r == LanguageNames[language.value]
    ensures !(language.Some? && language.value in LanguageNames) ==> r == "English"
  {
    if language.Some? && language.value in LanguageNames then LanguageNames[language.value] else "English"
  }

  /** Italian can be chosen in the chat, yet the extraction prompt calls it English. */
  lemma ItalianNamedEnglish()
    ensures "it" in LanguageOptions
    ensures LanguageName(Some("it")) == "English"
  {
  }

  /** The answer given to question `n`, or "Not provided". */
  function Answer(answers: map<int, string>, n: int): string {
    if n in answers then answers[n] else "Not provided"
  }

  /** `f"Q{q.number}: {question_text}\nA: {answer}"`. */
  function QaPair(q: AnamnesisQuestion, answers: map<int, string>, language: Option<string>): string {
    "Q" + NatToString(q.number) + ": " + q.Translated(language) + "\nA: " + Answer(answers, q.number)
  }

  /** One pair per question of `questions`, in that order. */
  function Pairs(questions: seq<AnamnesisQuestion>, answers: map<int, string>, language: Option<string>): (r: seq<string>)
    ensures |r| == |questions|
    ensures forall i :: 0 <= i < |r| ==> r[i] == QaPair(questions[i], answers, language)
  {
    seq(|questions|, i requires 0 <= i < |questions| => QaPair(questions[i], answers, language))
  }

  /** The pairs of `questions` separated by a blank line. */
  function QaTextOf(questions: seq<AnamnesisQuestion>, answers: map<int, string>, language: Option<string>): string {
    Join(Pairs(questions, answers, language), "\n\n")
  }

  /** The catalog's pairs separated by a blank line. */
  function QaText(answers: map<int, string>, language: Option<string>): string {
    QaTextOf(Catalog, answers, language)
  }

  /**
   * `_build_prompt`'s loop: it walks the questions in order, appending one
   * pair per question.
   */
  method BuildPairs(questions: seq<AnamnesisQuestion>, answers: map<int, string>, language: Option<string>)
    returns (pairs: seq<string>)
    ensures pairs == Pairs(questions, answers, language)
  {
    pairs := [];
    for i := 0 to |questions|
      invariant |pairs| == i
      invariant forall k :: 0 <= k < i ==> pairs[k] == QaPair(questions[k], answers, language)
    {
      var q := questions[i];
      var answer := if q.number in answers then answers[q.number] else "Not provided";
      pairs := pairs + ["Q" + NatToString(q.number) + ": " + q.Translated(language) + "\nA: " + answer];
    }
  }

  /** The Q/A block of the extraction prompt: the catalog's pairs joined by a blank line. */
  method BuildQaText(answers: map<int, string>, language: Option<string>) returns (text: string)
    ensures text == QaText(answers, language)
  {
    var pairs := BuildPairs(Catalog, answers, language);
    text := Join(pairs, "\n\n");
  }

  /** Entry `i` of `questions` carries number `i + 1`. */
  ghost predicate NumberedFromOne(questions: seq<AnamnesisQuestion>) {
    forall i :: 0 <= i < |questions| ==> questions[i].number == i + 1
  }

  /**
   * Pair `i` belongs to question `i + 1`: it opens with that number and
   * the question's text and ends with the answer to that question, or
   * "Not provided".
   */
  lemma PairShape(questions: seq<AnamnesisQuestion>, answers: map<int, string>, language: Option<string>, i: nat)
    requires NumberedFromOne(questions) && i < |questions|
    ensures var p := Pairs(questions, answers, language)[i];
      var head := "Q" + NatToString(i + 1) + ": " + questions[i].Translated(language) + "\nA: ";
      && StartsWith(p, head)
      && p[|head|..] == Answer(answers, i + 1)
  {
    var p := Pairs(questions, answers, language)[i];
    var head := "Q" + NatToString(i + 1) + ": " + questions[i].Translated(language) + "\nA: ";
    assert p == head + Answer(answers, i + 1);
    assert p[..|head|] == head;
  }

  /** The answer to question `n`, or "Not provided", occurs in the pairs of a numbered list. */
  lemma AnswerInPairs(questions: seq<AnamnesisQuestion>, answers: map<int, string>, language: Option<string>, n: int)
    requires NumberedFromOne(questions) && 1 <= n <= |questions|
    ensures IsSubstring(Answer(answers, n), Join(Pairs(questions, answers, language), "\n\n"))
  {
    var pairs := Pairs(questions, answers, language);
    var head := "Q" + NatToString(n) + ": " + questions[n - 1].Translated(language) + "\nA: ";
    assert pairs[n - 1] == head + Answer(answers, n);
    SuffixOccurs(head, Answer(answers, n));
    JoinContainsPart(pairs, "\n\n", n - 1);
    SubstringTransitive(Answer(answers, n), pairs[n - 1], Join(pairs, "\n\n"));
  }

  /** Pairs of a numbered list depend only on the answers to its numbers. */
  lemma PairsIgnoreOtherKeys(questions: seq<AnamnesisQuestion>, a1: map<int, string>, a2: map<int, string>,
                             language: Option<string>)
    requires NumberedFromOne(questions)
    requires forall n :: 1 <= n <= |questions| ==> Answer(a1, n) == Answer(a2, n)
    ensures Pairs(questions, a1, language) == Pairs(questions, a2, language)
  {
    var p1 := Pairs(questions, a1, language);
    var p2 := Pairs(questions, a2, language);
    forall i | 0 <= i < |questions|
      ensures p1[i] == p2[i]
    {
      assert questions[i].number == i + 1;
    }
  }

  /**
   * The prompt text holds one pair per catalog question, in catalog order:
   * pair `i` opens with "Q{i + 1}: " and the question's text and ends with
   * the answer to question `i + 1`, or "Not provided".
   */
  lemma QaTextPairs(answers: map<int, string>, language: Option<string>, i: nat)
    requires i < TotalQuestions()
    ensures QaText(answers, language) == Join(Pairs(Catalog, answers, language), "\n\n")
    ensures |Pairs(Catalog, answers, language)| == TotalQuestions()
    ensures var p := Pairs(Catalog, answers, language)[i];
      var head := "Q" + NatToString(i + 1) + ": " + Catalog[i].Translated(language) + "\nA: ";
      && StartsWith(p, head)
      && p[|head|..] == (if i + 1 in answers then answers[i + 1] else "Not provided")
  {
    CatalogNumbered();
    PairShape(Catalog, answers, language, i);
  }

  /** Every catalog answer, or "Not provided" in its place, appears in the prompt text. */
  lemma AnswerInQaText(answers: map<int, string>, language: Option<string>, n: int)
    requires 1 <= n <= TotalQuestions()
    ensures IsSubstring(if n in answers then answers[n] else "Not provided", QaText(answers, language))
  {
    CatalogNumbered();
    AnswerInPairs(Catalog, answers, language, n);
  }

  /**
   * Only the answers to catalog questions reach the prompt: two answer
   * maps that agree on 1..14 give the same text, so the language answer
   * stored under 0, or any other stray key, never shows.
   */
  lemma QaTextIgnoresOtherKeys(a1: map<int, string>, a2: map<int, string>, language: Option<string>)
    requires forall n :: 1 <= n <= TotalQuestions() ==> (n in a1 <==> n in a2)
    requires forall n :: 1 <= n <= TotalQuestions() && n in a1 ==> a1[n] == a2[n]
    ensures QaText(a1, language) == QaText(a2, language)
  {
    CatalogNumbered();
    assert forall n :: 1 <= n <= |Catalog| ==> Answer(a1, n) == Answer(a2, n);
    PairsIgnoreOtherKeys(Catalog, a1, a2, language);
  }

  /** The JSON text of an extraction reply: stripped, then unfenced. */
  function ReplyJson(reply: string): string {
    Unfence(Strip(reply))
  }

  /**
   * What `process` does once the prompt text is built: one completion, its
   * fence removed, decoded and validated as an `Anamnesis`.
   */
  function ExtractFrom(qaText: string, language: Option<string>, env: Env): (r: Result<Anamnesis, StageError>)
    ensures var text := ReplyJson(env.complete(ExtractionPrompt(qaText, LanguageName(language))));
      && (env.decode(text).None? ==> r == Failure(MalformedJson))
      && (env.decode(text).Some? && !env.decode(text).value.JObject? ==> r == Failure(NotAnObject))
      && (env.decode(text).Some? ==> r == AnamnesisFromJson(env.decode(text).value))
  {
    var data :- Decode(env.decode, ReplyJson(env.complete(ExtractionPrompt(qaText, LanguageName(language)))));
    AnamnesisFromJson(data)
  }

  /**
   * `process`: one completion for the prompt built from the answers, its
   * fence removed, decoded and validated as an `Anamnesis`.
   */
  function Process(answers: map<int, string>, language: Option<string>, env: Env): (r: Result<Anamnesis, StageError>)
    ensures var text := ReplyJson(env.complete(ExtractionPrompt(QaText(answers, language), LanguageName(language))));
      && (env.decode(text).None? ==> r == Failure(MalformedJson))
      && (env.decode(text).Some? && !env.decode(text).value.JObject? ==> r == Failure(NotAnObject))
      && (env.decode(text).Some? ==> r == AnamnesisFromJson(env.decode(text).value))
  {
    ExtractFrom(QaText(answers, language), language, env)
  }

  /** A reply whose decoded record has a pain scale outside 1..10 is refused. */
  lemma ProcessRefusesPainOutOfRange(answers: map<int, string>, language: Option<string>, env: Env)
    requires var text := ReplyJson(env.complete(ExtractionPrompt(QaText(answers, language), LanguageName(language))));
      && env.decode(text).Some? && env.decode(text).value.JObject?
      && "pain_scale" in env.decode(text).value.fields
      && env.decode(text).value.fields["pain_scale"].JInt?
      && !(1 <= env.decode(text).value.fields["pain_scale"].i <= 10)
    ensures Process(answers, language, env).Failure?
  {
  }

  /** A reply made of a fenced block reads as the block's body. */
  lemma ReplyJsonFenced(opening: string, body: string)
    requires StartsWith(opening, Fence) && '\n' !in opening
    ensures ReplyJson(opening + "\n" + body + "\n" + Fence) == body
  {
    UnfenceFenced(opening, body, Fence);
    FencedReplyStripped(opening, body);
  }

  /**
   * A fenced reply whose body decodes to the JSON form of a record gives
   * back exactly that record.
   */
  lemma ProcessReadsFencedRecord(answers: map<int, string>, language: Option<string>, env: Env,
                                 opening: string, body: string, a: Anamnesis)
    requires StartsWith(opening, Fence) && '\n' !in opening
    requires env.complete(ExtractionPrompt(QaText(answers, language), LanguageName(language)))
             == opening + "\n" + body + "\n" + Fence
    requires env.decode(body) == Some(AnamnesisToJson(a))
    ensures Process(answers, language, env) == Success(a)
  {
    ReplyJsonFenced(opening, body);
    AnamnesisJsonRoundTrip(a);
  }

  /** The language answer and any other key outside the catalog never change the extracted record. */
  lemma ProcessIgnoresOtherKeys(a1: map<int, string>, a2: map<int, string>, language: Option<string>, env: Env)
    requires forall n :: 1 <= n <= TotalQuestions() ==> (n in a1 <==> n in a2)
    requires forall n :: 1 <= n <= TotalQuestions() && n in a1 ==> a1[n] == a2[n]
    ensures Process(a1, language, env) == Process(a2, language, env)
  {
    QaTextIgnoresOtherKeys(a1, a2, language);
  }
}
