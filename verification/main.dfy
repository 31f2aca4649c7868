/**
 * The HTTP layer: an in-memory registry of intake sessions and of triage
 * jobs, the chat turn that walks a session through the questionnaire, the
 * processing request that runs the three stages on a finished session,
 * the result poll, the session inspection and the sweep of expired
 * sessions.
 *
 * Fresh identifiers (`uuid4`) and the clock (`datetime.utcnow`, counted
 * in microseconds) are parameters of the operations that use them.
 */
module App {
  import opened Wrappers
  import opened Text
  import opened Json
  import opened Schemas
  import opened Questions
  import opened Services
  import AnamnesisAgent
  import TriageAgent
  import RoutingAgent

  /** What an HTTP error carries: a fixed message, or the text of an exception raised on the way. */
  datatype Detail =
    | Message(text: string)
    | Raised(error: StageError)
    | UndeclaredField(name: string)

  datatype HttpError = HttpError(status: int, detail: Detail)

  const SessionNotFound: HttpError := HttpError(404, Message("Session not found"))
  const AlreadyComplete: HttpError := HttpError(400, Message("Session already complete"))
  const InvalidLanguage: HttpError := HttpError(400, Message("Invalid language selection"))
  const NotComplete: HttpError :=
    HttpError(400, Message("Anamnesis not complete. Please answer all questions first."))
  const JobNotFound: HttpError := HttpError(404, Message("Job not found"))

  /** The question a new session starts at (the `current_question` default). */
  const FirstQuestionNumber: int := 1

  /** The state a new session starts in. */
  const Fresh: IntakeState := IntakeState(map[], FirstQuestionNumber, false, None)

  /** How long a session is kept: 24 hours, in microseconds. */
  const SessionLifetime: int := 24 * 60 * 60 * 1_000_000

  // ---------------------------------------------------------------------------
  // One chat turn, as a function of the session's intake state
  // ---------------------------------------------------------------------------

  /** The session's new intake state and the reply to one chat message. */
  datatype Turn = Turn(next: IntakeState, reply: Result<ChatResponse, HttpError>)

  /** `ChatResponse(...)` inside the handler: a question number below 1 fails validation, a server error. */
  function Respond(sessionId: string, n: int, text: Option<string>, complete: bool): (r: Result<ChatResponse, HttpError>)
    ensures n >= 1 ==> r == Success(ChatResponse(sessionId, n, text, complete))
    ensures n < 1 ==> r == Failure(HttpError(500, Raised(Invalid("question_number"))))
  {
    match MakeChatResponse(sessionId, n, text, complete)
    case Success(response) => Success(response)
    case Failure(e) => Failure(HttpError(500, Raised(e)))
  }

  /**
   * `chat` on a known session, with `questions` the questionnaire it
   * consults: a finished session refuses and stays as it is; otherwise the
   * message is stored under the current question, nothing else in the
   * answers changing. At question 0 an unknown code is refused with the
   * session left at 0, and a known one is chosen and question 1 asked. At
   * any other question the session moves on by exactly one; once past the
   * last question it is finished and the reply names the last question,
   * otherwise the reply asks the next question in the session's language.
   */
  function ChatStep(questions: seq<AnamnesisQuestion>, sessionId: string, s: IntakeState, message: string): (t: Turn)
    ensures s.isComplete ==> t == Turn(s, Failure(AlreadyComplete))
    ensures !s.isComplete ==> t.next.answers == s.answers[s.currentQuestion := message]
    ensures !s.isComplete ==> t.next.currentQuestion >= s.currentQuestion
    ensures !s.isComplete && s.currentQuestion == 0 && Strip(message) !in LanguageOptions ==>
      t == Turn(s.(answers := s.answers[0 := message]), Failure(InvalidLanguage))
    ensures !s.isComplete && s.currentQuestion == 0 && Strip(message) in LanguageOptions ==>
      && t.next == IntakeState(s.answers[0 := message], 1, false, Some(Strip(message)))
      && t.reply == Respond(sessionId, 1, QuestionTextIn(questions, 1, Some(Strip(message))), false)
    ensures !s.isComplete && s.currentQuestion != 0 ==>
      && t.next.currentQuestion == s.currentQuestion + 1
      && t.next.language == s.language
      && (t.next.isComplete <==> s.currentQuestion + 1 > |questions|)
    ensures !s.isComplete && s.currentQuestion != 0 && t.next.isComplete ==>
      t.reply == Respond(sessionId, |questions|, None, true)
    ensures !s.isComplete && 1 <= s.currentQuestion < |questions| ==>
      t.reply == Success(ChatResponse(sessionId, s.currentQuestion + 1,
                                      Some(questions[s.currentQuestion].Translated(s.language)), false))
  {
    if s.isComplete then Turn(s, Failure(AlreadyComplete))
    else
      var answers := s.answers[s.currentQuestion := message];
      if s.currentQuestion == 0 then
        var code := Strip(message);
        if code !in LanguageOptions then Turn(s.(answers := answers), Failure(InvalidLanguage))
        else Turn(IntakeState(answers, 1, false, Some(code)), Respond(sessionId, 1, QuestionTextIn(questions, 1, Some(code)), false))
      else
        var current := s.currentQuestion + 1;
        var total := |questions|;
        if current > total then
          Turn(IntakeState(answers, current, true, s.language), Respond(sessionId, total, None, true))
        else
          Turn(IntakeState(answers, current, false, s.language),
               Respond(sessionId, current, QuestionTextIn(questions, current, s.language), false))
  }

  /** Message `i` of a run, counting from 1. */
  function Nth(messages: seq<string>, i: int): string
    requires 1 <= i <= |messages|
  {
    messages[i - 1]
  }

  /** The intake state after a run of chat messages, the last one handled last. */
  function RunTurns(questions: seq<AnamnesisQuestion>, sessionId: string, s: IntakeState, messages: seq<string>): IntakeState
    decreases |messages|
  {
    if messages == [] then s
    else ChatStep(questions, sessionId, RunTurns(questions, sessionId, s, messages[..|messages| - 1]), messages[|messages| - 1]).next
  }

  /**
   * A new session answered `k` times, for `k` up to the number of
   * questions: it waits for question `k + 1`, it is finished exactly when
   * all questions are answered (and at least one was), the answers are the messages under 1..k,
   * and no language is ever chosen.
   */
  lemma {:induction false} FreshIntake(questions: seq<AnamnesisQuestion>, sessionId: string, messages: seq<string>)
    requires |messages| <= |questions|
    ensures var s := RunTurns(questions, sessionId, Fresh, messages);
      && s.currentQuestion == |messages| + 1
      && (s.isComplete <==> messages != [] && |messages| == |questions|)
      && s.language == None
      && s.answers == map i | 1 <= i <= |messages| :: Nth(messages, i)
    decreases |messages|
  {
    if messages != [] {
      var k := |messages| - 1;
      var before := messages[..k];
      FreshIntake(questions, sessionId, before);
      var s := RunTurns(questions, sessionId, Fresh, before);
      var s' := RunTurns(questions, sessionId, Fresh, messages);
      assert s' == ChatStep(questions, sessionId, s, messages[k]).next;
      assert forall i :: 1 <= i <= k ==> Nth(before, i) == Nth(messages, i);
      assert s'.answers == (map i | 1 <= i <= k :: Nth(before, i))[k + 1 := messages[k]];
      assert s'.answers == map i | 1 <= i <= |messages| :: Nth(messages, i);
    }
  }

  /**
   * The reply to each message of a new session: the next question in
   * English while questions remain, then the completion reply for the
   * last one.
   */
  lemma FreshReplies(questions: seq<AnamnesisQuestion>, sessionId: string, messages: seq<string>, message: string)
    requires |messages| < |questions|
    ensures var reply := ChatStep(questions, sessionId, RunTurns(questions, sessionId, Fresh, messages), message).reply;
      && (|messages| + 2 <= |questions| ==>
            reply == Success(ChatResponse(sessionId, |messages| + 2, Some(questions[|messages| + 1].Translated(None)), false)))
      && (|messages| + 1 == |questions| ==> reply == Success(ChatResponse(sessionId, |questions|, None, true)))
  {
    FreshIntake(questions, sessionId, messages);
  }

  /** Once finished, a session refuses every further message and stays as it is. */
  lemma {:induction false} CompleteIsFinal(questions: seq<AnamnesisQuestion>, sessionId: string, s: IntakeState,
                                           messages: seq<string>)
    requires s.isComplete
    ensures RunTurns(questions, sessionId, s, messages) == s
    decreases |messages|
  {
    if messages != [] {
      CompleteIsFinal(questions, sessionId, s, messages[..|messages| - 1]);
    }
  }

  /** Running two batches of messages is running their concatenation. */
  lemma {:induction false} RunTurnsAppend(questions: seq<AnamnesisQuestion>, sessionId: string, s: IntakeState,
                                          first: seq<string>, rest: seq<string>)
    ensures RunTurns(questions, sessionId, s, first + rest)
         == RunTurns(questions, sessionId, RunTurns(questions, sessionId, s, first), rest)
    decreases |rest|
  {
    if rest != [] {
      var all := first + rest;
      assert all[..|all| - 1] == first + rest[..|rest| - 1];
      assert all[|all| - 1] == rest[|rest| - 1];
      RunTurnsAppend(questions, sessionId, s, first, rest[..|rest| - 1]);
    } else {
      assert first + rest == first;
    }
  }

  /**
   * A new session never reaches the language branch: it starts past
   * question 0 and only moves forward, so its language stays unset however
   * many messages arrive.
   */
  lemma NoLanguageFromFresh(questions: seq<AnamnesisQuestion>, sessionId: string, messages: seq<string>)
    ensures RunTurns(questions, sessionId, Fresh, messages).language == None
    ensures RunTurns(questions, sessionId, Fresh, messages).currentQuestion >= 1
  {
    var n := |questions|;
    if |messages| <= n {
      FreshIntake(questions, sessionId, messages);
    } else {
      var k := if n == 0 then 1 else n;
      var done := messages[..k];
      if n == 0 {
        assert done[..0] == [];
      } else {
        FreshIntake(questions, sessionId, done);
      }
      RunTurnsAppend(questions, sessionId, Fresh, done, messages[k..]);
      assert done + messages[k..] == messages;
      CompleteIsFinal(questions, sessionId, RunTurns(questions, sessionId, Fresh, done), messages[k..]);
    }
  }

  /** The catalog's first questions have English texts, so a new session is asked question 2 in English. */
  lemma CatalogFreshReply(sessionId: string, message: string)
    ensures ChatStep(Catalog, sessionId, Fresh, message).reply
         == Success(ChatResponse(sessionId, 2, GetQuestionText(2, None), false))
    ensures GetQuestionText(2, None).Some?
  {
  }

  // ---------------------------------------------------------------------------
  // The chat turn as written, on a session record without a language field
  // ---------------------------------------------------------------------------

  /**
   * `chat` as written: the session record declares no `language`, so
   * setting it (at question 0) and reading it (for the next question's
   * text) raise after the state has changed, and the request fails.
   */
  function ChatStepAsWritten(questions: seq<AnamnesisQuestion>, sessionId: string, s: IntakeState, message: string)
    : (t: Turn)
    ensures t.next.answers == (if s.isComplete then s.answers else s.answers[s.currentQuestion := message])
    ensures !s.isComplete && s.currentQuestion != 0 && s.currentQuestion + 1 <= |questions| ==>
      t.reply == Failure(HttpError(500, UndeclaredField("language")))
  {
    if s.isComplete then Turn(s, Failure(AlreadyComplete))
    else
      var answers := s.answers[s.currentQuestion := message];
      if s.currentQuestion == 0 then
        var code := Strip(message);
        if code !in LanguageOptions then Turn(s.(answers := answers), Failure(InvalidLanguage))
        else Turn(s.(answers := answers), Failure(HttpError(500, UndeclaredField("language"))))
      else
        var current := s.currentQuestion + 1;
        var total := |questions|;
        if current > total then
          Turn(IntakeState(answers, current, true, s.language), Respond(sessionId, total, None, true))
        else
          Turn(IntakeState(answers, current, false, s.language), Failure(HttpError(500, UndeclaredField("language"))))
  }

  /**
   * The first answer of a new session: as written it is stored and the
   * session moves on, yet the request fails instead of asking question 2,
   * which the corrected turn does.
   */
  lemma FirstAnswerFailsAsWritten(questions: seq<AnamnesisQuestion>, sessionId: string, message: string)
    requires |questions| >= 2
    ensures ChatStepAsWritten(questions, sessionId, Fresh, message).reply
         == Failure(HttpError(500, UndeclaredField("language")))
    ensures ChatStepAsWritten(questions, sessionId, Fresh, message).next == ChatStep(questions, sessionId, Fresh, message).next
    ensures ChatStep(questions, sessionId, Fresh, message).reply
         == Success(ChatResponse(sessionId, 2, Some(questions[1].Translated(None)), false))
  {
  }

  // ---------------------------------------------------------------------------
  // The three stages of a processing request
  // ---------------------------------------------------------------------------

  /** How far a processing run got: each stage's output, and the error that stopped it, if any. */
  datatype Outcome = Outcome(
    anamnesis: Option<Anamnesis>,
    classification: Option<TriageClassification>,
    routing: Option<Routing>,
    failure: Option<StageError>)

  /**
   * The three agents the application creates at start-up, seen through the
   * calls the processing handler makes on them: `process(answers,
   * language)`, `classify(anamnesis)` and `route(anamnesis,
   * classification)`.
   */
  datatype Agents = Agents(
    process: (map<int, string>, Option<string>) -> Result<Anamnesis, StageError>,
    classify: Anamnesis -> Result<TriageClassification, StageError>,
    route: (Anamnesis, TriageClassification) -> Result<Routing, StageError>)

  /**
   * The agents over the services `env`; `route` is called without a
   * language, so routing takes its default, "en".
   */
  function AgentsOver(env: Env): Agents {
    Agents((answers, language) => AnamnesisAgent.Process(answers, language, env),
           a => TriageAgent.Classify(a, env),
           (a, c) => RoutingAgent.Route(a, c, "en", env))
  }

  /**
   * The agents are the three stages: extraction from the catalog's Q/A
   * text in the session's language, classification whose priority follows
   * the colour, and routing in English.
   */
  lemma AgentsAreStages(env: Env, answers: map<int, string>, language: Option<string>,
                        a: Anamnesis, c: TriageClassification)
    ensures AgentsOver(env).process(answers, language)
            == AnamnesisAgent.ExtractFrom(AnamnesisAgent.QaText(answers, language), language, env)
    ensures AgentsOver(env).classify(a).Success? ==>
      AgentsOver(env).classify(a).value.priority == TriageAgent.ColorToPriority(AgentsOver(env).classify(a).value.color)
    ensures AgentsOver(env).route(a, c) == RoutingAgent.Route(a, c, "en", env)
  {
  }

  /**
   * The `try` block of `process_triage`: extraction, classification, then
   * routing, the first failure stopping the run. Stages run strictly in
   * order: an output exists only when every earlier stage succeeded, the
   * run fails exactly when there is no routing, each output is its stage's
   * result, and the error is the one the failing stage raised.
   */
  function RunStages(agents: Agents, answers: map<int, string>, language: Option<string>): (o: Outcome)
    ensures o.classification.Some? ==> o.anamnesis.Some?
    ensures o.routing.Some? ==> o.classification.Some?
    ensures o.failure.None? <==> o.routing.Some?
    ensures o.anamnesis.Some? ==> agents.process(answers, language) == Success(o.anamnesis.value)
    ensures o.anamnesis.None? ==> agents.process(answers, language) == Failure(o.failure.value)
    ensures o.anamnesis.Some? && o.classification.None? ==>
      agents.classify(o.anamnesis.value) == Failure(o.failure.value)
    ensures o.classification.Some? ==> agents.classify(o.anamnesis.value) == Success(o.classification.value)
    ensures o.classification.Some? && o.routing.None? ==>
      agents.route(o.anamnesis.value, o.classification.value) == Failure(o.failure.value)
    ensures o.routing.Some? ==>
      agents.route(o.anamnesis.value, o.classification.value) == Success(o.routing.value)
  {
    match agents.process(answers, language)
    case Failure(e) => Outcome(None, None, None, Some(e))
    case Success(a) =>
      match agents.classify(a)
      case Failure(e) => Outcome(Some(a), None, None, Some(e))
      case Success(c) =>
        match agents.route(a, c)
        case Failure(e) => Outcome(Some(a), Some(c), None, Some(e))
        case Success(r) => Outcome(Some(a), Some(c), Some(r), None)
  }

  /** Filling a slot twice leaves only the second value. */
  lemma OverwriteSlot<K, V>(m: map<K, V>, k: K, first: V, second: V)
    ensures m[k := first][k := second] == m[k := second]
  {
  }

  /** `produced` if the stage produced something, otherwise what the session held before. */
  function Kept<T>(produced: Option<T>, previous: Option<T>): Option<T> {
    if produced.Some? then produced else previous
  }

  /**
   * How a processing run `o` leaves the session's outputs, the job's slot
   * and the reply: each output is replaced only when its stage produced
   * one; a failure answers 500 with the error and leaves the slot empty; a
   * success fills the slot with the result, stamped `now`.
   */
  predicate JobDone(o: Outcome,
                    anamnesis0: Option<Anamnesis>, classification0: Option<TriageClassification>,
                    routing0: Option<Routing>,
                    anamnesis: Option<Anamnesis>, classification: Option<TriageClassification>,
                    routing: Option<Routing>, slot: Option<TriageResult>,
                    sessionId: string, jobId: string, now: int, r: Result<ProcessResponse, HttpError>)
  {
    && anamnesis == Kept(o.anamnesis, anamnesis0)
    && classification == Kept(o.classification, classification0)
    && routing == Kept(o.routing, routing0)
    && (o.failure.Some? ==>
          && r == Failure(HttpError(500, Raised(o.failure.value)))
          && slot == None)
    && (o.failure.None? ==>
          && o.anamnesis.Some? && o.classification.Some? && o.routing.Some?
          && r == Success(ProcessResponse(Completed, jobId))
          && slot == Some(TriageResult(now, sessionId, o.anamnesis.value, o.classification.value, o.routing.value)))
  }

  // ---------------------------------------------------------------------------
  // The registries and the endpoints
  // ---------------------------------------------------------------------------

  /** The reply to `create_session`. */
  datatype SessionCreated = SessionCreated(sessionId: string, languageOptions: map<string, string>,
                                           isLanguageSelection: bool)

  /** The reply to `get_session`. */
  datatype SessionInfo = SessionInfo(sessionId: string, currentQuestion: int, isComplete: bool,
                                     answersCount: nat, language: Option<string>)

  /** The `sessions` and `job_results` registries, with the services the stages call. */
  class TriageService {
    var sessions: map<string, SessionData>
    var jobResults: map<string, Option<TriageResult>>
    /** The agents the processing handler calls. */
    const agents: Agents
    /** The questionnaire the handlers consult: the catalog. */
    const questions: seq<AnamnesisQuestion>

    /** Every session is filed under its own id, so distinct ids hold distinct records. */
    ghost predicate Valid()
      reads this`sessions
    {
      forall id :: id in sessions ==> sessions[id].sessionId == id
    }

    /** Empty registries over the catalog. */
    constructor (env: Env)
      ensures Valid()
      ensures sessions == map[] && jobResults == map[] && agents == AgentsOver(env) && questions == Catalog
    {
      sessions := map[];
      jobResults := map[];
      agents := AgentsOver(env);
      questions := Catalog;
    }

    /** `create_session`: a new session under a fresh id, created now, waiting for question 1. */
    method CreateSession(sessionId: string, now: int) returns (r: SessionCreated)
      requires Valid()
      modifies this
      ensures Valid()
      ensures r == SessionCreated(sessionId, LanguageOptions, true)
      ensures sessionId in sessions && fresh(sessions[sessionId])
      ensures sessions == old(sessions)[sessionId := sessions[sessionId]]
      ensures sessions[sessionId].Intake() == Fresh && sessions[sessionId].createdAt == now
      ensures sessions[sessionId].anamnesis.None? && sessions[sessionId].classification.None?
              && sessions[sessionId].routing.None?
      ensures jobResults == old(jobResults)
    {
      var session := new SessionData(sessionId, now, FirstQuestionNumber);
      sessions := sessions[sessionId := session];
      r := SessionCreated(sessionId, LanguageOptions, true);
    }

    /**
     * `chat`: an unknown session is refused and nothing changes; otherwise
     * the session takes the turn `ChatStep` describes, and no other
     * session and no job changes.
     */
    method Chat(sessionId: string, message: string) returns (reply: Result<ChatResponse, HttpError>)
      requires Valid()
      modifies if sessionId in sessions then {sessions[sessionId]} else {}
      ensures sessionId !in sessions ==> reply == Failure(SessionNotFound)
      ensures sessionId in sessions ==>
        var t := ChatStep(questions, sessionId, old(sessions[sessionId].Intake()), message);
        sessions[sessionId].Intake() == t.next && reply == t.reply
      ensures sessionId in sessions ==>
        && sessions[sessionId].anamnesis == old(sessions[sessionId].anamnesis)
        && sessions[sessionId].classification == old(sessions[sessionId].classification)
        && sessions[sessionId].routing == old(sessions[sessionId].routing)
      ensures forall id :: id in sessions && id != sessionId ==> unchanged(sessions[id])
    {
      if sessionId !in sessions {
        return Failure(SessionNotFound);
      }
      var session := sessions[sessionId];
      if session.isComplete {
        return Failure(AlreadyComplete);
      }
      session.answers := session.answers[session.currentQuestion := message];
      if session.currentQuestion == 0 {
        var code := Strip(message);
        if code !in LanguageOptions {
          return Failure(InvalidLanguage);
        }
        session.language := Some(code);
        session.currentQuestion := 1;
        var text := QuestionTextIn(questions, 1, session.language);
        return Respond(sessionId, 1, text, false);
      }
      session.currentQuestion := session.currentQuestion + 1;
      var total := |questions|;
      if session.currentQuestion > total {
        session.isComplete := true;
        return Respond(sessionId, total, None, true);
      }
      var text := QuestionTextIn(questions, session.currentQuestion, session.language);
      reply := Respond(sessionId, session.currentQuestion, text, false);
    }

    /**
     * `process_triage`: an unknown or unfinished session is refused before
     * any job is registered; otherwise the job runs as `RunJob` describes.
     */
    method ProcessTriage(sessionId: string, jobId: string, now: int) returns (r: Result<ProcessResponse, HttpError>)
      requires Valid()
      modifies this, if sessionId in sessions then {sessions[sessionId]} else {}
      ensures Valid()
      ensures sessions == old(sessions)
      ensures sessionId !in sessions ==> r == Failure(SessionNotFound) && jobResults == old(jobResults)
      ensures sessionId in sessions && !sessions[sessionId].isComplete ==>
        r == Failure(NotComplete) && jobResults == old(jobResults)
      ensures sessionId in sessions ==> sessions[sessionId].Intake() == old(sessions[sessionId].Intake())
      ensures sessionId in sessions && sessions[sessionId].isComplete ==>
        var s := sessions[sessionId];
        && jobId in jobResults && jobResults == old(jobResults)[jobId := jobResults[jobId]]
        && JobDone(RunStages(agents, old(s.answers), old(s.language)),
                   old(s.anamnesis), old(s.classification), old(s.routing),
                   s.anamnesis, s.classification, s.routing, jobResults[jobId], sessionId, jobId, now, r)
      ensures forall id :: id in sessions && id != sessionId ==> unchanged(sessions[id])
    {
      if sessionId !in sessions {
        return Failure(SessionNotFound);
      }
      var session := sessions[sessionId];
      if !session.isComplete {
        return Failure(NotComplete);
      }
      jobResults := jobResults[jobId := None];
      var slot;
      r, slot := RunJob(session, jobId, now);
      OverwriteSlot(old(jobResults), jobId, None, slot);
      jobResults := jobResults[jobId := slot];
    }

    /**
     * The `try` block of `process_triage` for a finished session: the
     * stages run on the session's answers, each output is stored on the
     * session as soon as it exists, and `slot` is what the job's slot
     * receives: the result when all three stages succeed, nothing when one
     * raises.
     */
    method RunJob(session: SessionData, jobId: string, now: int)
      returns (r: Result<ProcessResponse, HttpError>, slot: Option<TriageResult>)
      modifies session`anamnesis, session`classification, session`routing
      ensures JobDone(RunStages(agents, old(session.answers), old(session.language)),
                      old(session.anamnesis), old(session.classification), old(session.routing),
                      session.anamnesis, session.classification, session.routing, slot,
                      session.sessionId, jobId, now, r)
    {
      var o := RunStages(agents, session.answers, session.language);
      if o.anamnesis.Some? {
        session.anamnesis := o.anamnesis;
      }
      if o.classification.Some? {
        session.classification := o.classification;
      }
      if o.routing.Some? {
        session.routing := o.routing;
      }
      if o.failure.Some? {
        return Failure(HttpError(500, Raised(o.failure.value))), None;
      }
      slot := Some(TriageResult(now, session.sessionId, o.anamnesis.value, o.classification.value, o.routing.value));
      r := Success(ProcessResponse(Completed, jobId));
    }

    /**
     * `get_result`: an unknown job is refused, an empty slot reads as
     * still processing and a filled one as completed with its result;
     * nothing changes, so polls agree until the slot is written.
     */
    method GetResult(jobId: string) returns (r: Result<ResultResponse, HttpError>)
      ensures jobId !in jobResults ==> r == Failure(JobNotFound)
      ensures jobId in jobResults && jobResults[jobId].None? ==>
        r == Success(ResultResponse(Processing, None, None))
      ensures jobId in jobResults && jobResults[jobId].Some? ==>
        r == Success(ResultResponse(Completed, jobResults[jobId], None))
    {
      if jobId !in jobResults {
        return Failure(JobNotFound);
      }
      var result := jobResults[jobId];
      if result.None? {
        return Success(ResultResponse(Processing, None, None));
      }
      r := Success(ResultResponse(Completed, result, None));
    }

    /** `get_session`: the session's progress, its number of stored answers and its language. */
    method GetSession(sessionId: string) returns (r: Result<SessionInfo, HttpError>)
      ensures sessionId !in sessions ==> r == Failure(SessionNotFound)
      ensures sessionId in sessions ==>
        var s := sessions[sessionId];
        r == Success(SessionInfo(s.sessionId, s.currentQuestion, s.isComplete, |s.answers|, s.language))
    {
      if sessionId !in sessions {
        return Failure(SessionNotFound);
      }
      var session := sessions[sessionId];
      r := Success(SessionInfo(session.sessionId, session.currentQuestion, session.isComplete,
                               |session.answers|, session.language));
    }

    /**
     * `cleanup_old_sessions`: exactly the sessions created before the
     * cutoff, 24 hours before `now`, are removed; the rest keep their
     * records.
     */
    method CleanupOldSessions(now: int)
      requires Valid()
      modifies this
      ensures Valid()
      ensures sessions == map id | id in old(sessions) && old(sessions)[id].createdAt >= now - SessionLifetime
                                :: old(sessions)[id]
      ensures jobResults == old(jobResults)
    {
      var cutoff := now - SessionLifetime;
      var expired := set id | id in sessions && sessions[id].createdAt < cutoff;
      while expired != {}
        invariant expired <= sessions.Keys
        invariant forall id :: id in sessions <==> id in old(sessions) && (id in expired || old(sessions)[id].createdAt >= cutoff)
        invariant forall id :: id in sessions ==> sessions[id] == old(sessions)[id]
        invariant forall id :: id in expired ==> sessions[id].createdAt < cutoff
        invariant jobResults == old(jobResults)
        decreases |expired|
      {
        var id :| id in expired;
        sessions := sessions - {id};
        expired := expired - {id};
      }
    }
  }
}
