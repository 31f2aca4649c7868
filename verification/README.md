# Triage AI — a Dafny model of the intake, triage and routing core

Triage AI is a hospital triage assistant. A patient chats through a fixed
questionnaire of fourteen questions. The questions are available in four
languages. The answers are then processed by three stages in turn:

1. **Extraction.** A language model reads the raw answers and returns a
   structured patient record (`Anamnesis`).
2. **Classification.** A triage colour is chosen from the Manchester
   protocol. The priority is always derived from the colour.
3. **Routing.** A department, a doctor type and an urgency are chosen. An
   urgency label the model gets wrong falls back to the colour's default.

The HTTP layer keeps two in-memory registries: intake sessions and triage
jobs. A second pipeline (`CrewAI`) runs the same three stages with a
different prompt set and a more forgiving JSON reader.

The model has one module per source file:

- `Wrappers`: `Option` and `Result`.
- `Text`: the Python string operations the core relies on. These are
  `strip` (with Python's whitespace set), `startswith`, `split`, `join`,
  `find`, `rfind` and `str(int)`, with their round trips.
- `Json`: a decoded JSON value, and the field readers that pydantic applies
  to it.
- `Schemas`: the records and enumerations, their JSON forms and the
  `SessionData` class.
- `Questions`: the questionnaire, the language tables and their lookups.
- `Services`: the collaborators, the fence removal, the symptom query and
  the list rendering that the three agents share.
- `AnamnesisAgent`, `TriageAgent`, `RoutingAgent`: the three stages.
- `Crew`: the CrewAI pipeline, including its own JSON extraction.
- `App`: the session state machine and the `TriageService` class. The class
  holds the session and job registries, and its methods are the endpoints.

The language model, the vector store and `json.loads` are the three fields
of an `Env` value. The model knows nothing about them, except that a search
returns at most the number of documents asked for. A prompt is represented
by the datatype of its ingredients: the answers text, the retrieved
documents, the language name and the allergy warning. The fixed prose
around those ingredients is not modelled. Fresh ids and the clock are
parameters of the endpoints that use them.

Where the code and the design description of the system disagree, the
model follows the code:

- A new session starts at question 1, not at the language question
  (`models/schemas.py:261-263`). The language turn therefore cannot be
  reached from `create_session`. `App.NoLanguageFromFresh` proves this.
- An empty answer is accepted like any other text (`main.py:154`). It is
  not refused as invalid input.
- A failed job does not get a "failed" status. Its slot stays empty
  (`main.py:250-253`), so polling it answers "processing" for ever.
- The three agents remove a fence by dropping the first and last lines,
  whatever the last line holds (`agents/anamnesis.py:144-148`). They then
  decode the whole rest. Only the crew checks for a closing fence and looks
  for a `{...}` span (`agents/crew.py:307-327`).
- The routing reply must contain an `urgency` key (`agents/routing.py:216`).
  A missing key fails the stage. A list or object value fails the stage too,
  because it cannot be a dictionary key. Every other unknown value falls
  back to the colour's default.
- The questionnaire has fourteen questions, not nine.
- The session record declares no `language` field, yet the handlers read
  and write it. See "## Findings".

## Model

| member | source | states |
|---|---|---|
| Text.TrimStart | main.py:159 | the result is no longer than the input and does not begin with whitespace |
| Text.TrimStartSuffix | main.py:159 | what `lstrip` keeps is a suffix of the input |
| Text.TrimEnd | agents/anamnesis.py:142 | the result is no longer than the input and does not end with whitespace |
| Text.TrimEndPrefix | agents/anamnesis.py:142 | what `rstrip` keeps is a prefix of the input |
| Text.Strip | agents/anamnesis.py:142 | `str.strip()`: the result neither begins nor ends with whitespace |
| Text.StripAround | agents/anamnesis.py:142 | the stripped text occurs in the input, with only whitespace before and after it |
| Text.LeadingSpace | main.py:159 | everything `lstrip` drops is whitespace |
| Text.TrailingSpace | agents/anamnesis.py:142 | everything `rstrip` drops is whitespace |
| Text.StripIdempotent | agents/anamnesis.py:142 | stripping twice is stripping once |
| Text.StripKeeps | agents/anamnesis.py:142 | a text that neither begins nor ends with whitespace is left unchanged by strip |
| Text.OccursWithin | agents/crew.py:323-324 | an occurrence inside a slice is an occurrence in the whole text |
| Text.SubstringTransitive | agents/crew.py:323-324 | a substring of a substring is a substring |
| Text.SuffixOccurs | agents/crew.py:323-324 | a text occurs at the end of any text it is appended to |
| Text.Find | agents/crew.py:320 | `str.find`: -1, or an index inside the text that holds the character |
| Text.FindSpec | agents/crew.py:320 | a non-negative result holds the character and no earlier index does; -1 means the character is absent |
| Text.FindIs | agents/crew.py:320 | the index of the first occurrence is what find returns |
| Text.RFind | agents/crew.py:321 | `str.rfind`: -1, or an index inside the text that holds the character |
| Text.RFindSpec | agents/crew.py:321 | a non-negative result holds the character and no later index does; -1 means the character is absent |
| Text.RFindIs | agents/crew.py:321 | the index of the last occurrence is what rfind returns |
| Text.Split | agents/anamnesis.py:145 | `str.split(sep)` always yields at least one part |
| Text.SplitPartsFree | agents/anamnesis.py:145 | no part contains the separator |
| Text.JoinSplit | agents/anamnesis.py:145-147 | joining the parts with the separator gives back the text |
| Text.SplitJoin | agents/anamnesis.py:145-147 | splitting a join of separator-free parts gives back the parts |
| Text.SplitPrepend | agents/anamnesis.py:145 | a separator-free head followed by the separator splits into the head and the rest's parts |
| Text.SplitAppend | agents/anamnesis.py:145 | a separator and a separator-free tail add one part at the end |
| Text.JoinSnoc | agents/anamnesis.py:50 | joining a list with one more part appends the separator and that part |
| Text.JoinContainsPart | agents/anamnesis.py:50 | every part occurs in the joined text |
| Text.DigitChar | agents/anamnesis.py:48 | the character of digit `d` is a digit character whose value is `d` |
| Text.NatToString | agents/anamnesis.py:48 | `str(n)` of a natural number is a non-empty string of digits |
| Text.NatToStringValue | agents/anamnesis.py:48 | the digits of `str(n)` denote `n` |
| Json.Decode | agents/anamnesis.py:150-151 | `json.loads`: fails exactly when the decoder rejects the text, else yields its value |
| Json.Index | agents/triage.py:141 | `data[key]`: fails with a missing-key error exactly when the key is absent, else yields its value |
| Json.OptStrRoundTrip | models/schemas.py:48-51 | a serialised optional string reads back as itself |
| Json.StrListRoundTrip | models/schemas.py:92-95 | a serialised string list reads back as itself |
| Schemas.ParseColor | models/schemas.py:8-13 | `TriageColor(v)` accepts exactly the four colour values, and the value it returns is the one given |
| Schemas.ColorValueRoundTrip | models/schemas.py:8-13 | each colour's value parses back to that colour |
| Schemas.RequiredStr | models/schemas.py:40-43 | a required `str` field succeeds exactly when the key holds a string, and returns that string |
| Schemas.OptionalPainScale | models/schemas.py:74-79 | `pain_scale` is null or an integer from 1 to 10; anything else, 0 and 11 included, is refused |
| Schemas.AnamnesisFromJson | models/schemas.py:36-107 | `Anamnesis(**data)`: a reply is accepted exactly when it is an object whose four required fields are strings, whose optional string fields are absent, null or strings, whose pain scale is absent, null or an integer in 1..10 and whose list fields are absent or lists of strings; every optional string field is its key read as an optional string (None when absent or null), every list field its key read as a string list (empty when absent) |
| Schemas.MinimalAnamnesisAccepted | models/schemas.py:36-107 | a reply holding only the four required strings is accepted, with None for every optional string and the pain scale and empty lists |
| Schemas.AnamnesisJsonRoundTrip | models/schemas.py:36-107 | every record survives serialisation and re-validation unchanged |
| Schemas.IdentityFieldsRoundTrip | models/schemas.py:40-59 | the identifying fields of a serialised record read back as themselves |
| Schemas.ComplaintFieldsRoundTrip | models/schemas.py:62-79 | the complaint fields and the pain scale of a serialised record read back as themselves |
| Schemas.PainFieldsRoundTrip | models/schemas.py:80-91 | the pain type, location and radiation of a serialised record read back as themselves |
| Schemas.ListFieldsRoundTrip | models/schemas.py:92-107 | the list fields of a serialised record read back as themselves |
| Schemas.MakeChatResponse | models/schemas.py:200-216 | a chat reply is refused exactly when its question number is below 1, and otherwise carries the given fields |
| Schemas.SessionData.constructor | models/schemas.py:253-273 | a new session has no answers, is not complete, has no language or outputs, and waits at the given question |
| Services.InnerLines | agents/anamnesis.py:147 | `lines[1:-1]`: empty for two lines or fewer, otherwise all but the first and last |
| Services.Unfence | agents/anamnesis.py:144-148 | a text without a fence is kept; a fenced text is its first line, the result and its last line, joined by newlines |
| Services.JoinOuter | agents/anamnesis.py:147 | a join of three or more parts is the first part, the inner join and the last part |
| Services.FencedLines | agents/anamnesis.py:145 | a fenced block splits into its opening line, the body's lines and its closing line |
| Services.InnerOfFramed | agents/anamnesis.py:147 | the inner lines of a framed list are its middle |
| Services.FencedStripped | agents/anamnesis.py:142 | a text opened by a fence and ending in a non-space character is unchanged by strip |
| Services.FenceStripped | agents/anamnesis.py:142 | the fence itself is unchanged by strip |
| Services.FencedReplyStripped | agents/anamnesis.py:142 | a fenced reply is unchanged by strip |
| Services.UnfenceFenced | agents/anamnesis.py:144-148 | a fenced block reads back as exactly its body, however many lines the body has |
| Services.SymptomQuery | agents/triage.py:112 | the query is the chief complaint, a space and the symptoms joined by spaces |
| Services.SymptomQueryMentions | agents/triage.py:112 | the complaint and every reported symptom occur in the query |
| Services.BulletsLines | agents/triage.py:55 | the rendering has one line per document, in order, each the document after "- " |
| Questions.AnamnesisQuestion.Translated | chat/questions.py:18-20 | the text in the chosen language, else the English text, else "" when neither is present; always one of the question's texts or "" |
| Questions.CatalogNumbered | chat/questions.py:49-207 | the catalog holds fourteen questions, numbered contiguously from 1 |
| Questions.GetQuestion | chat/questions.py:210-222 | the question numbered `n` exists exactly for 1 ≤ n ≤ 14 and carries that number |
| Questions.QuestionTextIn | chat/questions.py:225-238 | no text outside the list, otherwise entry `n`'s text in the language |
| Questions.GetQuestionText | chat/questions.py:225-238 | no text outside 1..14, otherwise the question's text in the language with the English fallback |
| Questions.TotalQuestions | chat/questions.py:241-243 | the number of questions is the catalog's length, fourteen |
| Questions.WelcomeMessage | chat/questions.py:246-248 | the welcome in the language, English for an unknown code |
| Questions.LanguageQuestion | chat/questions.py:251-253 | the selection prompt in the language, English for an unknown code |
| Questions.FirstQuestion | chat/questions.py:256-258 | the first question's text is what the text lookup gives for question 1 |
| Questions.SelectableLanguagesGreeted | chat/questions.py:24-40 | each selectable language has a welcome and a selection prompt, and no other language has them |
| Questions.CatalogFullyTranslated | chat/questions.py:49-207 | every question has a non-empty text in each selectable language, so no question in range ever reads as empty |
| Questions.EarlyQuestionsTranslated | chat/questions.py:49-129 | questions 1 to 7 are fully translated |
| Questions.LateQuestionsTranslated | chat/questions.py:130-207 | questions 8 to 14 are fully translated |
| AnamnesisAgent.LanguageName | agents/anamnesis.py:51 | the prompt's language name, "English" for no language or a code without an entry |
| AnamnesisAgent.ItalianNamedEnglish | agents/anamnesis.py:15-19 | Italian can be chosen in the chat, yet the extraction prompt calls it English |
| AnamnesisAgent.Pairs | agents/anamnesis.py:44-48 | one "Q/A" pair per question, in catalog order |
| AnamnesisAgent.BuildPairs | agents/anamnesis.py:44-48 | the loop builds exactly the pair list |
| AnamnesisAgent.BuildQaText | agents/anamnesis.py:44-50 | the loop and the join build exactly the Q/A text |
| AnamnesisAgent.PairShape | agents/anamnesis.py:48 | pair `i` is "Q", the number `i + 1`, the question text, a newline, "A: " and the answer or "Not provided" |
| AnamnesisAgent.AnswerInPairs | agents/anamnesis.py:44-50 | the answer to each question, or "Not provided", occurs in the joined pairs |
| AnamnesisAgent.PairsIgnoreOtherKeys | agents/anamnesis.py:44-48 | the pairs depend only on the answers to the listed question numbers |
| AnamnesisAgent.QaTextPairs | agents/anamnesis.py:44-50 | the Q/A text is the catalog's fourteen pairs joined by a blank line |
| AnamnesisAgent.AnswerInQaText | agents/anamnesis.py:44-50 | every catalog answer, or "Not provided", appears in the prompt text |
| AnamnesisAgent.QaTextIgnoresOtherKeys | agents/anamnesis.py:44-50 | the language answer under key 0, or any other key outside 1..14, does not change the prompt text |
| AnamnesisAgent.ExtractFrom | agents/anamnesis.py:121-153 | an undecodable reply fails as malformed; a decodable one gives exactly the record validated from the stripped, unfenced reply |
| AnamnesisAgent.Process | agents/anamnesis.py:121-153 | `process`: one completion over the Q/A text; undecodable fails as malformed, decodable gives exactly the validated record |
| AnamnesisAgent.ProcessRefusesPainOutOfRange | agents/anamnesis.py:153 | a reply whose pain scale is an integer outside 1..10 fails the stage |
| AnamnesisAgent.ReplyJsonFenced | agents/anamnesis.py:142-148 | a reply made of a fenced block reads as the block's body |
| AnamnesisAgent.ProcessReadsFencedRecord | agents/anamnesis.py:121-153 | a fenced reply holding a serialised record yields exactly that record |
| AnamnesisAgent.ProcessIgnoresOtherKeys | agents/anamnesis.py:121-153 | the extracted record depends only on the answers to questions 1..14 |
| TriageAgent.ColorToPriority | agents/triage.py:17-22 | the priority table, read backwards, gives the colour again |
| TriageAgent.ColorToPriorityBijective | agents/triage.py:17-22 | every priority belongs to exactly one colour |
| TriageAgent.ClassificationFromJson | agents/triage.py:138-149 | a reply is accepted exactly when it is an object with a known colour, a string reasoning and risk-factor and protocol keys that are absent or lists of strings; fails on a non-object, a missing or unknown colour, or a missing reasoning; on success the priority follows the colour and each list is its key read as a string list, empty when absent |
| TriageAgent.MinimalClassificationAccepted | agents/triage.py:138-149 | a reply holding only a known colour and a reasoning string is accepted, with empty risk factors and protocols |
| TriageAgent.PriorityKeyIgnored | agents/triage.py:143-149 | a "priority" key in the reply, whatever it holds, changes nothing |
| TriageAgent.ClassificationJsonRoundTrip | agents/triage.py:143-149 | a serialised classification reads back as itself exactly when its priority follows its colour |
| TriageAgent.Classify | agents/triage.py:102-149 | `classify`: protocols for the symptom query, one completion; undecodable fails as malformed, decodable gives exactly the classification read from it; any result's priority follows its colour |
| RoutingAgent.ColorToUrgency | agents/routing.py:22-27 | the urgency table, read backwards, gives the colour again |
| RoutingAgent.UrgencyFromLabel | agents/routing.py:206-211 | exactly the four labels are known, each naming its own urgency |
| RoutingAgent.UrgencyLabelRoundTrip | agents/routing.py:206-211 | each urgency's label is recognised as that urgency |
| RoutingAgent.ResolveUrgency | agents/routing.py:216 | fails only on a list or object; a known label gives its urgency, anything else the colour's default |
| RoutingAgent.RulesQuery | agents/routing.py:166 | the rules query is the complaint, a space and the colour's value |
| RoutingAgent.LanguageName | agents/routing.py:69-74 | the prompt's language name, "English" for a code without an entry |
| RoutingAgent.AllergyWarning | agents/routing.py:76-83 | empty exactly when no allergy is known, otherwise the heading, the allergies and the instruction |
| RoutingAgent.AllergyWarningNamesAll | agents/routing.py:76-83 | every known allergy is named in the warning |
| RoutingAgent.RoutingFromJson | agents/routing.py:203-221 | a reply is accepted exactly when it is an object with string department and doctor type, a scalar urgency, a room type that is absent, null or a string, order and contraindication keys that are absent or lists of strings, and notes that are absent or a string; missing department, doctor type or urgency fail in that order; the urgency is resolved leniently; on success every optional field is its key read with its default (None, empty list, empty notes) |
| RoutingAgent.MinimalRoutingAccepted | agents/routing.py:203-221 | a reply holding only the department, the doctor type and a scalar urgency is accepted, with no room type, no orders, no contraindications and empty notes |
| RoutingAgent.UnknownUrgencyFallsBack | agents/routing.py:216 | replacing the urgency of a valid reply by an unknown label still succeeds, with the colour's default urgency |
| RoutingAgent.RoutingJsonRoundTrip | agents/routing.py:213-221 | a serialised routing decision reads back as itself, whatever the colour |
| RoutingAgent.Route | agents/routing.py:149-221 | `route`: rules and orders retrieved, one completion; undecodable fails as malformed, decodable gives exactly the routing decision read from it |
| Crew.Unfence | agents/crew.py:312-317 | a text without a fence is kept |
| Crew.FenceLeads | agents/crew.py:312 | a text beginning with a fence line begins with the fence |
| Crew.KeptFramed | agents/crew.py:314-317 | between an opening fence line and a closing fence line, the middle lines are kept |
| Crew.KeptBetween | agents/crew.py:314-317 | when the first and last lines are fences, the lines strictly between are kept |
| Crew.KeptAfterOpening | agents/crew.py:314-317 | when the last line is not a fence, every line after the opening one is kept |
| Crew.KeptOpen | agents/crew.py:314-317 | an unclosed block keeps every line after the opening one |
| Crew.UnfenceFramed | agents/crew.py:312-317 | a text split into a fence line, middle lines and a closing fence reads back as the middle lines |
| Crew.UnfenceClosed | agents/crew.py:312-317 | a block closed by a fence line reads back as exactly its body |
| Crew.OpenedLines | agents/crew.py:313 | a text opened by a fence line splits into that line and the rest's lines |
| Crew.UnfenceOpened | agents/crew.py:312-317 | an unclosed block reads back as the lines after the opening one |
| Crew.UnfenceOpenedBody | agents/crew.py:312-317 | an unclosed block split into a fence line and a body's lines reads back as that body |
| Crew.UnfenceUnclosed | agents/crew.py:312-317 | an opening fence line followed by a body whose last line is not a fence reads back as the body |
| Crew.JsonSpan | agents/crew.py:320-327 | with a `{` before a later `}`, the span from the first `{` to the last `}`; otherwise the whole text |
| Crew.JsonSpanFindsObject | agents/crew.py:320-327 | an object with no `{` before it and no `}` after it is cut out exactly |
| Crew.JsonSpanOfObject | agents/crew.py:320-327 | a text with braces at both ends is its own span |
| Crew.DecodeSpan | agents/crew.py:320-327 | the span, or the whole text, is decoded |
| Crew.ExtractJson | agents/crew.py:307-327 | `_extract_json`: strip, unfence, cut the span and decode |
| Crew.UnfenceOneLine | agents/crew.py:312-317 | one line after the opening fence is kept when it is not a fence itself |
| Crew.ObjectStripped | agents/crew.py:309 | a text with braces at both ends is unchanged by strip and is not the fence |
| Crew.UnfenceClosedReply | agents/crew.py:309-317 | a reply closed by a fence line is unchanged by strip and unfences to its body |
| Crew.ExtractJsonClosedObject | agents/crew.py:307-327 | an object reply closed by a fence line decodes as the object |
| Crew.UnfenceUnclosedReply | agents/crew.py:309-317 | a one-line object after an unclosed opening fence unfences to the object |
| Crew.ExtractJsonUnclosedObject | agents/crew.py:307-327 | an object reply whose fence is never closed still decodes as the object |
| Crew.AllergyWarning | agents/crew.py:270-272 | empty exactly when no allergy is known, otherwise it contains the joined allergies |
| Crew.AllergyWarningNamesAll | agents/crew.py:270-272 | every known allergy is named in the crew's allergy line |
| Crew.Extract | agents/crew.py:344-366 | one completion over the Q/A text; no JSON found fails as malformed, otherwise the result is exactly the record validated from `_extract_json`'s value |
| Crew.Classify | agents/crew.py:368-392 | one completion; no JSON fails as malformed, otherwise exactly the classification read from it; any result's priority follows its colour |
| Crew.Route | agents/crew.py:394-425 | one completion; no JSON fails as malformed, otherwise exactly the routing decision read from it, its urgency resolved leniently |
| Crew.Process | agents/crew.py:329-428 | the three stages in order over the catalog's Q/A text: the first failing stage's error ends the run, and three successes give exactly their three results |
| App.Respond | main.py:180-198 | a chat reply with a question number below 1 fails with a server error, otherwise it carries the given fields |
| App.ChatStep | main.py:135-198 | `chat` on a known session: refusal when complete; the answer stored under the current question; the language turn; one step forward; completion after the last question |
| App.FreshIntake | main.py:116-198 | after `k` answers a new session waits at `k + 1`, is finished exactly when all are answered, holds the answers under 1..k and has no language |
| App.FreshReplies | main.py:191-198 | each answer of a new session is replied to with the next question in English, the last one with the completion reply |
| App.CompleteIsFinal | main.py:150-151 | a finished session refuses every further message and stays as it is |
| App.RunTurnsAppend | main.py:135-198 | two batches of messages give the same state as their concatenation |
| App.NoLanguageFromFresh | main.py:157-173 | a new session never reaches the language turn, whatever messages arrive |
| App.CatalogFreshReply | main.py:191-198 | with the catalog, a new session's first answer is followed by question 2's English text |
| App.ChatStepAsWritten | main.py:157-198 | as written, a turn that sets or reads the undeclared language field fails after the answer is stored |
| App.FirstAnswerFailsAsWritten | main.py:191 | as written, a new session's first answer fails while the session still moves on; the corrected turn asks question 2 |
| App.AgentsAreStages | main.py:227-238 | the three agents are the extraction over the catalog text, a classification whose priority follows its colour, and routing in English |
| App.RunStages | main.py:225-253 | the stages run in order; each output exists only if the earlier stages succeeded; the error is the failing stage's |
| App.OverwriteSlot | main.py:224 | filling the job slot twice leaves only the second value |
| App.TriageService.constructor | main.py:44-45 | both registries start empty, over the catalog |
| App.TriageService.CreateSession | main.py:116-132 | a new session under the given id, created now, waiting at question 1; nothing else changes |
| App.TriageService.Chat | main.py:135-198 | unknown session: 404 and nothing changes; otherwise the session takes the `ChatStep` turn and no other session changes |
| App.TriageService.ProcessTriage | main.py:201-258 | unknown or unfinished sessions are refused before a job exists; otherwise outputs are stored as produced, and the slot holds the result exactly when all stages succeed |
| App.TriageService.RunJob | main.py:225-253 | the stages' outputs replace the session's only when produced; a failure answers 500 and leaves the slot empty |
| App.TriageService.GetResult | main.py:261-279 | unknown job: 404; an empty slot reads "processing", a filled one "completed" with its result |
| App.TriageService.GetSession | main.py:282-296 | the session's progress, answer count and language, or 404 |
| App.TriageService.CleanupOldSessions | main.py:48-56 | exactly the sessions created more than 24 hours ago are removed; the rest are untouched |

## Left out

- The language-model calls (OpenAI and CrewAI) are an uninterpreted `complete` function of the prompt's ingredients. The prompt prose, the agents' roles and goals, and the model parameters are not modelled.
- `json.loads` is the parameter `decode`. JSON text syntax is not modelled, only the decoded value.
- The vector store is `search`, which returns at most `k` documents. Its ranking and the sentinel text it returns for an empty collection are not modelled. The crew's search tools, which the agents call on their own, are not modelled.
- The seed data (`db/seed_data.py`) is not part of this model.
- The FastAPI plumbing is not modelled: the lifespan hook, `/health`, CORS, static files and request-body validation.
- Asynchronous execution and concurrent requests are not modelled. Each endpoint runs to completion before the next starts.
- Pydantic's lax coercions are not modelled. Values such as the string "9", booleans or 8.0 for an integer field are treated as type errors.
- The text of exception messages is not modelled. A stage error is a `StageError` value, and the 500 reply carries that value.
- Fresh ids (`uuid4`) and the clock (`datetime.utcnow`) are parameters. Time is counted in microseconds.
- The agents are function values (`App.AgentsOver`) created from one `Env`. Their construction and client configuration are not modelled.
- `tests/test_agents.py` is not part of this model. It describes an older version with nine questions.
- `App.TriageService.ProcessTriage` and `App.TriageService.GetSession` read the session's declared `language` field. As written, both read an undeclared attribute. This is the same defect as the one under "## Findings".
- The routing agent is called without a language (`main.py:237`), so it always uses its default, "en". The model passes "en" explicitly.
- `Text.Split`: its `ensures` states only that there is at least one part. The facts about the parts are the lemmas `Text.SplitPartsFree`, `Text.JoinSplit` and `Text.SplitJoin`.
- `Text.Find`: its `ensures` states only the range of the result. The full specification is `Text.FindSpec`.
- `Text.RFind`: its `ensures` states only the range of the result. The full specification is `Text.RFindSpec`.
- `Crew.Unfence`: its `ensures` covers only unfenced text. Fenced text is covered by `Crew.UnfenceFramed` and `Crew.UnfenceOpened`.
- The crew's language table names Brazilian Portuguese "Portuguese (Brazilian)" (`agents/crew.py:40-44`), like the routing agent. The crew uses the routing agent's table, which is identical.
- `cleanup_old_sessions` is not called anywhere in `main.py`. It is modelled as a method that a caller may invoke.

## Findings

| source | as written | input that shows it | evidently intended | confidence | as-written member | corrected member |
|---|---|---|---|---|---|---|
| main.py:191 | `chat` reads and writes `session.language`, but `SessionData` declares no such field (models/schemas.py:253-273). Pydantic refuses both the assignment and the read. | A new session's first answer, with the 14-question catalog. The answer is stored under question 1 and `current_question` moves to 2, then reading the language raises and the request fails with 500. | A declared optional `language` field, so the reply asks question 2 in English. | not executed | App.ChatStepAsWritten, App.FirstAnswerFailsAsWritten | App.ChatStep (used by App.TriageService.Chat) |
