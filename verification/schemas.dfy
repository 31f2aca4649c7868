/**
 * The records of the triage system: the three closed enumerations, the
 * structured patient record (Anamnesis), the classification, the routing
 * decision, the aggregate result, the chat reply and the per-session state.
 *
 * Field constraints are carried by types where the record model states
 * them (`PainScale`, `QuestionNumber`); building a record from decoded
 * JSON checks them and fails with `Invalid(field)` instead of clamping.
 */
module Schemas {
  import opened Wrappers
  import opened Json

  // ---------------------------------------------------------------------------
  // Enumerations
  // ---------------------------------------------------------------------------

  /** The four Manchester triage colours. */
  datatype TriageColor = Red | Yellow | Green | Blue

  /** The string value of each colour. */
  function ColorValue(c: TriageColor): string {
    match c
    case Red => "RED"
    case Yellow => "YELLOW"
    case Green => "GREEN"
    case Blue => "BLUE"
  }

  /** `TriageColor(v)`: the colour whose value is `v`; anything else is refused. */
  function ParseColor(v: JsonValue): (r: Option<TriageColor>)
    ensures r.Some? <==> v.JString? && v.s in {"RED", "YELLOW", "GREEN", "BLUE"}
    ensures r.Some? ==> JString(ColorValue(r.value)) == v
  {
    match v
    case JString("RED") => Some(Red)
    case JString("YELLOW") => Some(Yellow)
    case JString("GREEN") => Some(Green)
    case JString("BLUE") => Some(Blue)
    case _ => None
  }

  /** Each colour's value parses back to that colour, so the values are distinct. */
  lemma ColorValueRoundTrip(c: TriageColor)
    ensures ParseColor(JString(ColorValue(c))) == Some(c)
  {
  }

  datatype Priority = Emergency | Urgent | Standard | Low

  function PriorityValue(p: Priority): string {
    match p
    case Emergency => "EMERGENCY"
    case Urgent => "URGENT"
    case Standard => "STANDARD"
    case Low => "LOW"
  }

  datatype Urgency = Immediate | Within30Min | Within1Hour | StandardWait

  function UrgencyValue(u: Urgency): string {
    match u
    case Immediate => "Immediate"
    case Within30Min => "Within 30 min"
    case Within1Hour => "Within 1 hour"
    case StandardWait => "Standard"
  }

  // ---------------------------------------------------------------------------
  // Anamnesis
  // ---------------------------------------------------------------------------

  /** A pain rating: an integer from 1 to 10. */
  type PainScale = x: int | 1 <= x <= 10 witness 1

  /** The structured patient record. */
  datatype Anamnesis = Anamnesis(
    patientName: string,
    dateOfBirth: string,
    phoneNumber: Option<string>,
    emergencyContactName: Option<string>,
    emergencyContactPhone: Option<string>,
    chiefComplaint: string,
    onset: string,
    duration: Option<string>,
    painScale: Option<PainScale>,
    painType: Option<string>,
    location: Option<string>,
    radiation: Option<string>,
    associatedSymptoms: seq<string>,
    medicalHistory: seq<string>,
    currentMedications: seq<string>,
    allergies: seq<string>)

  /** A required `str` field of a record: absent or not a string is a validation error. */
  function RequiredStr(data: map<string, JsonValue>, key: string): (r: Result<string, StageError>)
    ensures r.Success? <==> key in data && data[key].JString?
    ensures r.Success? ==> data[key] == JString(r.value)
  {
    if key in data then AsStr(data[key], key) else Failure(Invalid(key))
  }

  /** An optional `str` field: absent and null both read as `None`. */
  function OptionalStr(data: map<string, JsonValue>, key: string): Result<Option<string>, StageError> {
    AsOptStr(GetOr(data, key, JNull), key)
  }

  /** A `list[str]` field that defaults to the empty list when absent. */
  function StrList(data: map<string, JsonValue>, key: string): Result<seq<string>, StageError> {
    AsStrList(GetOr(data, key, JArray([])), key)
  }

  /** The `pain_scale` field: null, or an integer from 1 to 10; anything else is refused. */
  function OptionalPainScale(v: JsonValue): (r: Result<Option<PainScale>, StageError>)
    ensures r.Success? <==> v.JNull? || (v.JInt? && 1 <= v.i <= 10)
    ensures r.Success? && r.value.Some? ==> v == JInt(r.value.value)
    ensures r.Failure? ==> r.error == Invalid("pain_scale")
  {
    match v
    case JNull => Success(None)
    case JInt(i) => if 1 <= i <= 10 then Success(Some(i)) else Failure(Invalid("pain_scale"))
    case _ => Failure(Invalid("pain_scale"))
  }

  /** `data[key]` is the string `s`. */
  predicate HasString(data: map<string, JsonValue>, key: string, s: string) {
    key in data && data[key] == JString(s)
  }

  /** A key that is absent or null. */
  predicate AbsentOrNull(data: map<string, JsonValue>, key: string) {
    key !in data || data[key] == JNull
  }

  /**
   * `Anamnesis(**data)`: the record built from a decoded completion.
   * The four required fields must be strings; optional scalars default to
   * `None`, lists to empty; a pain scale outside 1..10 is refused, not clamped.
   * Keys the record does not know are ignored.
   */
  function AnamnesisFromJson(v: JsonValue): (r: Result<Anamnesis, StageError>)
    ensures r.Success? <==>
      && v.JObject?
      && RequiredStr(v.fields, "patient_name").Success? && RequiredStr(v.fields, "date_of_birth").Success?
      && RequiredStr(v.fields, "chief_complaint").Success? && RequiredStr(v.fields, "onset").Success?
      && OptionalStr(v.fields, "phone_number").Success?
      && OptionalStr(v.fields, "emergency_contact_name").Success?
      && OptionalStr(v.fields, "emergency_contact_phone").Success?
      && OptionalStr(v.fields, "duration").Success?
      && OptionalPainScale(GetOr(v.fields, "pain_scale", JNull)).Success?
      && OptionalStr(v.fields, "pain_type").Success?
      && OptionalStr(v.fields, "location").Success?
      && OptionalStr(v.fields, "radiation").Success?
      && StrList(v.fields, "associated_symptoms").Success?
      && StrList(v.fields, "medical_history").Success?
      && StrList(v.fields, "current_medications").Success?
      && StrList(v.fields, "allergies").Success?
    ensures r.Success? ==>
      && HasString(v.fields, "patient_name", r.value.patientName)
      && HasString(v.fields, "date_of_birth", r.value.dateOfBirth)
      && HasString(v.fields, "chief_complaint", r.value.chiefComplaint)
      && HasString(v.fields, "onset", r.value.onset)
    ensures (v.JObject? && !("patient_name" in v.fields && "date_of_birth" in v.fields
                             && "chief_complaint" in v.fields && "onset" in v.fields)) ==> r.Failure?
    ensures r.Success? ==> (r.value.painScale.None? <==> AbsentOrNull(v.fields, "pain_scale"))
    ensures r.Success? && r.value.painScale.Some? ==> v.fields["pain_scale"] == JInt(r.value.painScale.value)
    ensures (v.JObject? && "pain_scale" in v.fields && v.fields["pain_scale"].JInt?
             && !(1 <= v.fields["pain_scale"].i <= 10)) ==> r.Failure?
    ensures r.Success? ==>
      && OptionalStr(v.fields, "phone_number") == Success(r.value.phoneNumber)
      && OptionalStr(v.fields, "emergency_contact_name") == Success(r.value.emergencyContactName)
      && OptionalStr(v.fields, "emergency_contact_phone") == Success(r.value.emergencyContactPhone)
      && OptionalStr(v.fields, "duration") == Success(r.value.duration)
      && OptionalStr(v.fields, "pain_type") == Success(r.value.painType)
      && OptionalStr(v.fields, "location") == Success(r.value.location)
      && OptionalStr(v.fields, "radiation") == Success(r.value.radiation)
    ensures r.Success? ==>
      && StrList(v.fields, "associated_symptoms") == Success(r.value.associatedSymptoms)
      && StrList(v.fields, "medical_history") == Success(r.value.medicalHistory)
      && StrList(v.fields, "current_medications") == Success(r.value.currentMedications)
      && StrList(v.fields, "allergies") == Success(r.value.allergies)
    ensures r.Success? ==>
      && (AbsentOrNull(v.fields, "phone_number") ==> r.value.phoneNumber.None?)
      && (AbsentOrNull(v.fields, "emergency_contact_name") ==> r.value.emergencyContactName.None?)
      && (AbsentOrNull(v.fields, "emergency_contact_phone") ==> r.value.emergencyContactPhone.None?)
      && (AbsentOrNull(v.fields, "duration") ==> r.value.duration.None?)
      && (AbsentOrNull(v.fields, "pain_type") ==> r.value.painType.None?)
      && (AbsentOrNull(v.fields, "location") ==> r.value.location.None?)
      && (AbsentOrNull(v.fields, "radiation") ==> r.value.radiation.None?)
    ensures r.Success? ==>
      && ("associated_symptoms" !in v.fields ==> r.value.associatedSymptoms == [])
      && ("medical_history" !in v.fields ==> r.value.medicalHistory == [])
      && ("current_medications" !in v.fields ==> r.value.currentMedications == [])
      && ("allergies" !in v.fields ==> r.value.allergies == [])
  {
    if !v.JObject? then Failure(NotAnObject)
    else
      var d := v.fields;
      var patientName :- RequiredStr(d, "patient_name");
      var dateOfBirth :- RequiredStr(d, "date_of_birth");
      var phoneNumber :- OptionalStr(d, "phone_number");
      var contactName :- OptionalStr(d, "emergency_contact_name");
      var contactPhone :- OptionalStr(d, "emergency_contact_phone");
      var chiefComplaint :- RequiredStr(d, "chief_complaint");
      var onset :- RequiredStr(d, "onset");
      var duration :- OptionalStr(d, "duration");
      var painScale :- OptionalPainScale(GetOr(d, "pain_scale", JNull));
      var painType :- OptionalStr(d, "pain_type");
      var location :- OptionalStr(d, "location");
      var radiation :- OptionalStr(d, "radiation");
      var symptoms :- StrList(d, "associated_symptoms");
      var history :- StrList(d, "medical_history");
      var medications :- StrList(d, "current_medications");
      var allergies :- StrList(d, "allergies");
      Success(Anamnesis(patientName, dateOfBirth, phoneNumber, contactName, contactPhone,
                        chiefComplaint, onset, duration, painScale, painType, location, radiation,
                        symptoms, history, medications, allergies))
  }

  /**
   * A reply holding only the four required strings is accepted, and every
   * optional field takes its default: None for the optional strings and the
   * pain scale, the empty list for the lists.
   */
  lemma MinimalAnamnesisAccepted(name: string, born: string, complaint: string, onset: string)
    ensures AnamnesisFromJson(JObject(map[
              "patient_name" := JString(name), "date_of_birth" := JString(born),
              "chief_complaint" := JString(complaint), "onset" := JString(onset)]))
            == Success(Anamnesis(name, born, None, None, None, complaint, onset,
                                 None, None, None, None, None, [], [], [], []))
  {
  }

  /** The JSON form of a record, as it is serialised in a result response. */
  function AnamnesisToJson(a: Anamnesis): JsonValue {
    JObject(map[
      "patient_name" := JString(a.patientName),
      "date_of_birth" := JString(a.dateOfBirth),
      "phone_number" := OptStrJson(a.phoneNumber),
      "emergency_contact_name" := OptStrJson(a.emergencyContactName),
      "emergency_contact_phone" := OptStrJson(a.emergencyContactPhone),
      "chief_complaint" := JString(a.chiefComplaint),
      "onset" := JString(a.onset),
      "duration" := OptStrJson(a.duration),
      "pain_scale" := if a.painScale.Some? then JInt(a.painScale.value) else JNull,
      "pain_type" := OptStrJson(a.painType),
      "location" := OptStrJson(a.location),
      "radiation" := OptStrJson(a.radiation),
      "associated_symptoms" := StrListJson(a.associatedSymptoms),
      "medical_history" := StrListJson(a.medicalHistory),
      "current_medications" := StrListJson(a.currentMedications),
      "allergies" := StrListJson(a.allergies)
    ])
  }

  /** Every record survives serialisation and re-validation unchanged. */
  lemma AnamnesisJsonRoundTrip(a: Anamnesis)
    ensures AnamnesisFromJson(AnamnesisToJson(a)) == Success(a)
  {
    IdentityFieldsRoundTrip(a);
    ComplaintFieldsRoundTrip(a);
    PainFieldsRoundTrip(a);
    ListFieldsRoundTrip(a);
  }

  /** The identifying fields of a serialised record read back as themselves. */
  lemma IdentityFieldsRoundTrip(a: Anamnesis)
    ensures var d := AnamnesisToJson(a).fields;
      && RequiredStr(d, "patient_name") == Success(a.patientName)
      && RequiredStr(d, "date_of_birth") == Success(a.dateOfBirth)
      && OptionalStr(d, "phone_number") == Success(a.phoneNumber)
      && OptionalStr(d, "emergency_contact_name") == Success(a.emergencyContactName)
      && OptionalStr(d, "emergency_contact_phone") == Success(a.emergencyContactPhone)
  {
  }

  /** The complaint fields of a serialised record read back as themselves. */
  lemma ComplaintFieldsRoundTrip(a: Anamnesis)
    ensures var d := AnamnesisToJson(a).fields;
      && RequiredStr(d, "chief_complaint") == Success(a.chiefComplaint)
      && RequiredStr(d, "onset") == Success(a.onset)
      && OptionalStr(d, "duration") == Success(a.duration)
      && OptionalPainScale(GetOr(d, "pain_scale", JNull)) == Success(a.painScale)
  {
  }

  /** The pain description fields of a serialised record read back as themselves. */
  lemma PainFieldsRoundTrip(a: Anamnesis)
    ensures var d := AnamnesisToJson(a).fields;
      && OptionalStr(d, "pain_type") == Success(a.painType)
      && OptionalStr(d, "location") == Success(a.location)
      && OptionalStr(d, "radiation") == Success(a.radiation)
  {
  }

  /** The list fields of a serialised record read back as themselves. */
  lemma ListFieldsRoundTrip(a: Anamnesis)
    ensures var d := AnamnesisToJson(a).fields;
      && StrList(d, "associated_symptoms") == Success(a.associatedSymptoms)
      && StrList(d, "medical_history") == Success(a.medicalHistory)
      && StrList(d, "current_medications") == Success(a.currentMedications)
      && StrList(d, "allergies") == Success(a.allergies)
  {
    var d := AnamnesisToJson(a).fields;
    StrListRoundTrip(a.associatedSymptoms, "associated_symptoms");
    StrListRoundTrip(a.medicalHistory, "medical_history");
    StrListRoundTrip(a.currentMedications, "current_medications");
    StrListRoundTrip(a.allergies, "allergies");
  }

  // ---------------------------------------------------------------------------
  // Classification, routing and the aggregate
  // ---------------------------------------------------------------------------

  datatype TriageClassification = TriageClassification(
    color: TriageColor,
    priority: Priority,
    reasoning: string,
    riskFactors: seq<string>,
    matchedProtocols: seq<string>)

  /** The JSON form of a classification, priority included. */
  function ClassificationToJson(c: TriageClassification): JsonValue {
    JObject(map[
      "color" := JString(ColorValue(c.color)),
      "priority" := JString(PriorityValue(c.priority)),
      "reasoning" := JString(c.reasoning),
      "risk_factors" := StrListJson(c.riskFactors),
      "matched_protocols" := StrListJson(c.matchedProtocols)
    ])
  }

  datatype Routing = Routing(
    department: string,
    doctorType: string,
    urgency: Urgency,
    roomType: Option<string>,
    preliminaryOrders: seq<string>,
    contraindications: seq<string>,
    notesForStaff: string)

  /** The JSON form of a routing decision. */
  function RoutingToJson(r: Routing): JsonValue {
    JObject(map[
      "department" := JString(r.department),
      "doctor_type" := JString(r.doctorType),
      "urgency" := JString(UrgencyValue(r.urgency)),
      "room_type" := OptStrJson(r.roomType),
      "preliminary_orders" := StrListJson(r.preliminaryOrders),
      "contraindications" := StrListJson(r.contraindications),
      "notes_for_staff" := JString(r.notesForStaff)
    ])
  }

  /** The outcome of one successful pipeline run; `timestamp` is the clock reading when it was built. */
  datatype TriageResult = TriageResult(
    timestamp: int,
    sessionId: string,
    anamnesis: Anamnesis,
    classification: TriageClassification,
    routing: Routing)

  // ---------------------------------------------------------------------------
  // API replies
  // ---------------------------------------------------------------------------

  /** A question number as the chat reply reports it: at least 1. */
  type QuestionNumber = n: int | n >= 1 witness 1

  datatype ChatResponse = ChatResponse(
    sessionId: string,
    questionNumber: QuestionNumber,
    nextQuestion: Option<string>,
    isComplete: bool)

  /** `ChatResponse(...)`: refused when the question number is below 1. */
  function MakeChatResponse(sessionId: string, questionNumber: int, nextQuestion: Option<string>,
                            isComplete: bool): (r: Result<ChatResponse, StageError>)
    ensures r.Success? <==> questionNumber >= 1
    ensures r.Success? ==> r.value.questionNumber == questionNumber && r.value.sessionId == sessionId
                           && r.value.nextQuestion == nextQuestion && r.value.isComplete == isComplete
    ensures r.Failure? ==> r.error == Invalid("question_number")
  {
    if questionNumber >= 1 then Success(ChatResponse(sessionId, questionNumber, nextQuestion, isComplete))
    else Failure(Invalid("question_number"))
  }

  /** The status literal of the process and result replies. */
  datatype JobStatus = Processing | Completed | Errored

  datatype ProcessResponse = ProcessResponse(status: JobStatus, jobId: string)

  datatype ResultResponse = ResultResponse(status: JobStatus, result: Option<TriageResult>, error: Option<string>)

  // ---------------------------------------------------------------------------
  // Session state
  // ---------------------------------------------------------------------------

  /** The part of a session that the chat turns read and write. */
  datatype IntakeState = IntakeState(
    answers: map<int, string>,
    currentQuestion: int,
    isComplete: bool,
    language: Option<string>)

  /**
   * One intake session, updated in place by the chat and process handlers.
   * `language` is unset until the language turn chooses one.
   */
  class SessionData {
    const sessionId: string
    const createdAt: int
    var answers: map<int, string>
    var currentQuestion: int
    var isComplete: bool
    var language: Option<string>
    var anamnesis: Option<Anamnesis>
    var classification: Option<TriageClassification>
    var routing: Option<Routing>

    /** A new session waiting for question `firstQuestion`, with nothing answered or produced yet. */
    constructor (sessionId: string, createdAt: int, firstQuestion: int)
      ensures this.sessionId == sessionId && this.createdAt == createdAt
      ensures Intake() == IntakeState(map[], firstQuestion, false, None)
      ensures anamnesis.None? && classification.None? && routing.None?
    {
      this.sessionId := sessionId;
      this.createdAt := createdAt;
      answers := map[];
      currentQuestion := firstQuestion;
      isComplete := false;
      language := None;
      anamnesis := None;
      classification := None;
      routing := None;
    }

    /** The part of the session the chat turns change. */
    function Intake(): IntakeState
      reads this`answers, this`currentQuestion, this`isComplete, this`language
    {
      IntakeState(answers, currentQuestion, isComplete, language)
    }
  }
}
