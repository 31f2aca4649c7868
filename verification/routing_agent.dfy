/**
 * The routing stage: it retrieves routing rules and preliminary orders,
 * asks the language model for a destination and reads the urgency
 * leniently, falling back to the colour's default urgency for any label it
 * does not know.
 */
module RoutingAgent {
  import opened Wrappers
  import opened Text
  import opened Json
  import opened Schemas
  import opened Services

  /** The default urgency of each colour. */
  function ColorToUrgency(c: TriageColor): (u: Urgency)
    ensures UrgencyColor(u) == c
  {
    match c
    case Red => Immediate
    case Yellow => Within30Min
    case Green => Within1Hour
    case Blue => StandardWait
  }

  /** The colour whose default urgency is `u`. */
  function UrgencyColor(u: Urgency): TriageColor {
    match u
    case Immediate => Red
    case Within30Min => Yellow
    case Within1Hour => Green
    case StandardWait => Blue
  }

  /** `urgency_map.get(value)` for a hashable value: only the four exact labels are known. */
  function UrgencyFromLabel(v: JsonValue): (r: Option<Urgency>)
    ensures r.Some? <==> v.JString? && v.s in {"Immediate", "Within 30 min", "Within 1 hour", "Standard"}
    ensures r.Some? ==> v == JString(UrgencyValue(r.value))
  {
    match v
    case JString("Immediate") => Some(Immediate)
    case JString("Within 30 min") => Some(Within30Min)
    case JString("Within 1 hour") => Some(Within1Hour)
    case JString("Standard") => Some(StandardWait)
    case _ => None
  }

  /** Each urgency's label is recognised as that urgency. */
  lemma UrgencyLabelRoundTrip(u: Urgency)
    ensures UrgencyFromLabel(JString(UrgencyValue(u))) == Some(u)
  {
  }

  /**
   * `urgency_map.get(data["urgency"], COLOR_TO_URGENCY[color])`: a known
   * label gives its urgency, anything else the colour's default; only a
   * list or an object, which cannot be a dictionary key, raises.
   */
  function ResolveUrgency(v: JsonValue, color: TriageColor): (r: Result<Urgency, StageError>)
    ensures r.Failure? <==> v.JArray? || v.JObject?
    ensures r.Failure? ==> r.error == UnhashableUrgency
    ensures r.Success? && UrgencyFromLabel(v).Some? ==> v == JString(UrgencyValue(r.value))
    ensures r.Success? && UrgencyFromLabel(v).None? ==> r.value == ColorToUrgency(color)
  {
    if v.JArray? || v.JObject? then Failure(UnhashableUrgency)
    else
      match UrgencyFromLabel(v)
      case Some(u) => Success(u)
      case None => Success(ColorToUrgency(color))
  }

  /** `f"{chief_complaint} {color.value}"`: the query for routing rules. */
  function RulesQuery(a: Anamnesis, c: TriageClassification): (q: string)
    ensures StartsWith(q, a.chiefComplaint + " ")
    ensures q[|a.chiefComplaint| + 1..] == ColorValue(c.color)
  {
    var q := a.chiefComplaint + " " + ColorValue(c.color);
    assert q[..|a.chiefComplaint| + 1] == a.chiefComplaint + " ";
    q
  }

  /** The language names of the routing prompt. */
  const LanguageNames: map<string, string> := map[
    "en" := "English",
    "es" := "Spanish",
    "pt-BR" := "Portuguese (Brazilian)"
  ]

  /** The name of `language` for the prompt, "English" for a code without an entry. */
  function LanguageName(language: string): (r: string)
    ensures language in LanguageNames ==> r == LanguageNames[language]
    ensures language !in LanguageNames ==> r == "English"
  {
    if language in LanguageNames then LanguageNames[language] else "English"
  }

  /** The heading of the allergy warning. */
  const AllergyHeading: string := "\n## ⚠️ PATIENT ALLERGIES - CHECK FOR CONTRAINDICATIONS:\n"

  /** The instruction that closes the allergy warning. */
  const AllergyInstruction: string :=
    "\n\nYou MUST check if any preliminary orders might conflict with these allergies.\n"

  /** The allergy block of the routing prompt: nothing when no allergy is known. */
  function AllergyWarning(allergies: seq<string>): (r: string)
    ensures r == "" <==> allergies == []
    ensures allergies != [] ==> r == AllergyHeading + Join(allergies, ", ") + AllergyInstruction
  {
    if allergies == [] then "" else AllergyHeading + Join(allergies, ", ") + AllergyInstruction
  }

  /** Every known allergy is named in the warning. */
  lemma AllergyWarningNamesAll(allergies: seq<string>, i: nat)
    requires i < |allergies|
    ensures IsSubstring(allergies[i], AllergyWarning(allergies))
  {
    var listed := Join(allergies, ", ");
    JoinContainsPart(allergies, ", ", i);
    SuffixOccurs(AllergyHeading, listed);
    assert AllergyWarning(allergies) == (AllergyHeading + listed) + AllergyInstruction;
    assert (AllergyHeading + listed)[..|AllergyHeading + listed|] == AllergyHeading + listed;
    assert OccursAt(AllergyHeading + listed, AllergyWarning(allergies), 0);
    SubstringTransitive(listed, AllergyHeading + listed, AllergyWarning(allergies));
    SubstringTransitive(allergies[i], listed, AllergyWarning(allergies));
  }

  /**
   * The `Routing` built from a decoded reply: department, doctor type and
   * urgency are looked up first and must be present; the urgency is
   * resolved leniently; then every field is validated, the optional ones
   * taking their defaults when absent.
   */
  function RoutingFromJson(v: JsonValue, color: TriageColor): (r: Result<Routing, StageError>)
    ensures !v.JObject? ==> r == Failure(NotAnObject)
    ensures v.JObject? && "department" !in v.fields ==> r == Failure(MissingKey("department"))
    ensures v.JObject? && "department" in v.fields && "doctor_type" !in v.fields ==> r == Failure(MissingKey("doctor_type"))
    ensures v.JObject? && "department" in v.fields && "doctor_type" in v.fields && "urgency" !in v.fields
            ==> r == Failure(MissingKey("urgency"))
    ensures r.Success? ==> v.JObject? && "urgency" in v.fields && ResolveUrgency(v.fields["urgency"], color) == Success(r.value.urgency)
    ensures r.Success? ==> HasString(v.fields, "department", r.value.department)
    ensures r.Success? ==> HasString(v.fields, "doctor_type", r.value.doctorType)
    ensures r.Success? ==>
      && (AbsentOrNull(v.fields, "room_type") ==> r.value.roomType.None?)
      && ("preliminary_orders" !in v.fields ==> r.value.preliminaryOrders == [])
      && ("contraindications" !in v.fields ==> r.value.contraindications == [])
      && ("notes_for_staff" !in v.fields ==> r.value.notesForStaff == "")
    ensures r.Success? ==>
      && AsOptStr(GetOr(v.fields, "room_type", JNull), "room_type") == Success(r.value.roomType)
      && AsStrList(GetOr(v.fields, "preliminary_orders", JArray([])), "preliminary_orders") == Success(r.value.preliminaryOrders)
      && AsStrList(GetOr(v.fields, "contraindications", JArray([])), "contraindications") == Success(r.value.contraindications)
      && AsStr(GetOr(v.fields, "notes_for_staff", JString("")), "notes_for_staff") == Success(r.value.notesForStaff)
    ensures r.Success? <==>
      && v.JObject? && "department" in v.fields && "doctor_type" in v.fields && "urgency" in v.fields
      && ResolveUrgency(v.fields["urgency"], color).Success?
      && v.fields["department"].JString? && v.fields["doctor_type"].JString?
      && AsOptStr(GetOr(v.fields, "room_type", JNull), "room_type").Success?
      && AsStrList(GetOr(v.fields, "preliminary_orders", JArray([])), "preliminary_orders").Success?
      && AsStrList(GetOr(v.fields, "contraindications", JArray([])), "contraindications").Success?
      && AsStr(GetOr(v.fields, "notes_for_staff", JString("")), "notes_for_staff").Success?
  {
    if !v.JObject? then Failure(NotAnObject)
    else
      var d := v.fields;
      var department :- Index(d, "department");
      var doctorType :- Index(d, "doctor_type");
      var given :- Index(d, "urgency");
      var urgency :- ResolveUrgency(given, color);
      var departmentText :- AsStr(department, "department");
      var doctorTypeText :- AsStr(doctorType, "doctor_type");
      var roomType :- AsOptStr(GetOr(d, "room_type", JNull), "room_type");
      var orders :- AsStrList(GetOr(d, "preliminary_orders", JArray([])), "preliminary_orders");
      var contraindications :- AsStrList(GetOr(d, "contraindications", JArray([])), "contraindications");
      var notes :- AsStr(GetOr(d, "notes_for_staff", JString("")), "notes_for_staff");
      Success(Routing(departmentText, doctorTypeText, urgency, roomType, orders, contraindications, notes))
  }

  /**
   * A reply holding only the department, the doctor type and a scalar
   * urgency is accepted: no room type, no orders, no contraindications and
   * empty notes.
   */
  lemma MinimalRoutingAccepted(department: string, doctorType: string, urgency: JsonValue, color: TriageColor)
    requires !urgency.JArray? && !urgency.JObject?
    ensures RoutingFromJson(JObject(map["department" := JString(department), "doctor_type" := JString(doctorType),
                                        "urgency" := urgency]), color)
            == Success(Routing(department, doctorType, ResolveUrgency(urgency, color).value, None, [], [], ""))
  {
  }

  /**
   * An urgency the model did not label properly never fails the stage: a
   * reply that is otherwise valid gets the colour's default urgency.
   */
  lemma UnknownUrgencyFallsBack(d: map<string, JsonValue>, color: TriageColor, unknown: string)
    requires unknown !in {"Immediate", "Within 30 min", "Within 1 hour", "Standard"}
    requires RoutingFromJson(JObject(d), color).Success?
    ensures RoutingFromJson(JObject(d["urgency" := JString(unknown)]), color).Success?
    ensures RoutingFromJson(JObject(d["urgency" := JString(unknown)]), color).value.urgency == ColorToUrgency(color)
  {
    var d' := d["urgency" := JString(unknown)];
    assert forall k :: k != "urgency" ==> (k in d' <==> k in d);
    assert forall k :: k != "urgency" && k in d ==> d'[k] == d[k];
    assert GetOr(d', "room_type", JNull) == GetOr(d, "room_type", JNull);
    assert GetOr(d', "preliminary_orders", JArray([])) == GetOr(d, "preliminary_orders", JArray([]));
    assert GetOr(d', "contraindications", JArray([])) == GetOr(d, "contraindications", JArray([]));
    assert GetOr(d', "notes_for_staff", JString("")) == GetOr(d, "notes_for_staff", JString(""));
  }

  /** A serialised routing decision reads back as itself, whatever the colour. */
  lemma RoutingJsonRoundTrip(r: Routing, color: TriageColor)
    ensures RoutingFromJson(RoutingToJson(r), color) == Success(r)
  {
    UrgencyLabelRoundTrip(r.urgency);
    OptStrRoundTrip(r.roomType, "room_type");
    StrListRoundTrip(r.preliminaryOrders, "preliminary_orders");
    StrListRoundTrip(r.contraindications, "contraindications");
  }

  /**
   * `route`: up to five rules retrieved for complaint and colour, up to
   * five orders for the symptom query, one completion for the prompt built
   * from them, the fence removed, decoded and read as a routing decision.
   */
  function Route(a: Anamnesis, c: TriageClassification, language: string, env: Env): (r: Result<Routing, StageError>)
    ensures var rules := env.search(RoutingRules, RulesQuery(a, c), RetrievalCount);
      var orders := env.search(PreliminaryOrders, SymptomQuery(a), RetrievalCount);
      var prompt := RoutingPrompt(a, c, Bullets(rules), Bullets(orders), LanguageName(language), AllergyWarning(a.allergies));
      var text := Unfence(Strip(env.complete(prompt)));
      && (env.decode(text).None? ==> r == Failure(MalformedJson))
      && (env.decode(text).Some? ==> r == RoutingFromJson(env.decode(text).value, c.color))
  {
    var rules := env.search(RoutingRules, RulesQuery(a, c), RetrievalCount);
    var orders := env.search(PreliminaryOrders, SymptomQuery(a), RetrievalCount);
    var prompt := RoutingPrompt(a, c, Bullets(rules), Bullets(orders), LanguageName(language), AllergyWarning(a.allergies));
    var data :- Decode(env.decode, Unfence(Strip(env.complete(prompt))));
    RoutingFromJson(data, c.color)
  }
}
