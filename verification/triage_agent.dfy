/**
 * The classification stage: it retrieves protocols for the patient's
 * symptoms, asks the language model for a colour and derives the priority
 * from the colour alone.
 */
module TriageAgent {
  import opened Wrappers
  import opened Text
  import opened Json
  import opened Schemas
  import opened Services

  /** The priority that goes with each colour, RED being the most pressing. */
  function ColorToPriority(c: TriageColor): (p: Priority)
    ensures PriorityColor(p) == c
  {
    match c
    case Red => Emergency
    case Yellow => Urgent
    case Green => Standard
    case Blue => Low
  }

  /** The colour a priority belongs to, read off the same table backwards. */
  function PriorityColor(p: Priority): TriageColor {
    match p
    case Emergency => Red
    case Urgent => Yellow
    case Standard => Green
    case Low => Blue
  }

  /** The table is a bijection: every priority is reached, by exactly one colour. */
  lemma ColorToPriorityBijective(p: Priority)
    ensures ColorToPriority(PriorityColor(p)) == p
    ensures forall c :: ColorToPriority(c) == p ==> c == PriorityColor(p)
  {
  }

  /**
   * The `TriageClassification` built from a decoded reply: `data["color"]`
   * must name a colour, `data["reasoning"]` must be a string, the two lists
   * default to empty; the priority is never read from the reply.
   */
  function ClassificationFromJson(v: JsonValue): (r: Result<TriageClassification, StageError>)
    ensures !v.JObject? ==> r == Failure(NotAnObject)
    ensures v.JObject? && "color" !in v.fields ==> r == Failure(MissingKey("color"))
    ensures v.JObject? && "color" in v.fields && ParseColor(v.fields["color"]).None? ==> r == Failure(UnknownColor)
    ensures v.JObject? && "color" in v.fields && ParseColor(v.fields["color"]).Some? && "reasoning" !in v.fields
            ==> r == Failure(MissingKey("reasoning"))
    ensures r.Success? ==> v.JObject? && "color" in v.fields && ParseColor(v.fields["color"]) == Some(r.value.color)
    ensures r.Success? ==> r.value.priority == ColorToPriority(r.value.color)
    ensures r.Success? ==> HasString(v.fields, "reasoning", r.value.reasoning)
    ensures r.Success? && "risk_factors" !in v.fields ==> r.value.riskFactors == []
    ensures r.Success? && "matched_protocols" !in v.fields ==> r.value.matchedProtocols == []
    ensures r.Success? ==>
      && AsStrList(GetOr(v.fields, "risk_factors", JArray([])), "risk_factors") == Success(r.value.riskFactors)
      && AsStrList(GetOr(v.fields, "matched_protocols", JArray([])), "matched_protocols") == Success(r.value.matchedProtocols)
    ensures r.Success? <==>
      && v.JObject? && "color" in v.fields && ParseColor(v.fields["color"]).Some?
      && "reasoning" in v.fields && v.fields["reasoning"].JString?
      && AsStrList(GetOr(v.fields, "risk_factors", JArray([])), "risk_factors").Success?
      && AsStrList(GetOr(v.fields, "matched_protocols", JArray([])), "matched_protocols").Success?
  {
    if !v.JObject? then Failure(NotAnObject)
    else
      var d := v.fields;
      var raw :- Index(d, "color");
      var parsed := ParseColor(raw);
      if parsed.None? then Failure(UnknownColor)
      else
        var color := parsed.value;
        var reasoning :- Index(d, "reasoning");
        var reasoningText :- AsStr(reasoning, "reasoning");
        var riskFactors :- AsStrList(GetOr(d, "risk_factors", JArray([])), "risk_factors");
        var matched :- AsStrList(GetOr(d, "matched_protocols", JArray([])), "matched_protocols");
        Success(TriageClassification(color, ColorToPriority(color), reasoningText, riskFactors, matched))
  }

  /**
   * A reply holding only a known colour and a reasoning string is accepted,
   * with empty risk-factor and protocol lists.
   */
  lemma MinimalClassificationAccepted(color: TriageColor, reasoning: string)
    ensures ClassificationFromJson(JObject(map["color" := JString(ColorValue(color)), "reasoning" := JString(reasoning)]))
            == Success(TriageClassification(color, ColorToPriority(color), reasoning, [], []))
  {
    ColorValueRoundTrip(color);
  }

  /** A "priority" key in the reply, whatever it holds, changes nothing. */
  lemma PriorityKeyIgnored(d: map<string, JsonValue>, claimed: JsonValue)
    ensures ClassificationFromJson(JObject(d["priority" := claimed])) == ClassificationFromJson(JObject(d))
  {
    var d' := d["priority" := claimed];
    assert forall k :: k != "priority" ==> (k in d' <==> k in d);
    assert forall k :: k != "priority" && k in d ==> d'[k] == d[k];
    assert GetOr(d', "risk_factors", JArray([])) == GetOr(d, "risk_factors", JArray([]));
    assert GetOr(d', "matched_protocols", JArray([])) == GetOr(d, "matched_protocols", JArray([]));
  }

  /**
   * A serialised classification reads back as itself exactly when its
   * priority is the one its colour dictates.
   */
  lemma ClassificationJsonRoundTrip(c: TriageClassification)
    ensures ClassificationFromJson(ClassificationToJson(c)) == Success(c) <==> c.priority == ColorToPriority(c.color)
  {
    ColorValueRoundTrip(c.color);
    StrListRoundTrip(c.riskFactors, "risk_factors");
    StrListRoundTrip(c.matchedProtocols, "matched_protocols");
  }

  /**
   * `classify`: up to five protocols retrieved for the symptom query, one
   * completion for the prompt listing them, the fence removed, decoded and
   * read as a classification.
   */
  function Classify(a: Anamnesis, env: Env): (r: Result<TriageClassification, StageError>)
    ensures var protocols := env.search(TriageProtocols, SymptomQuery(a), RetrievalCount);
      var text := Unfence(Strip(env.complete(ClassificationPrompt(a, Bullets(protocols)))));
      && (env.decode(text).None? ==> r == Failure(MalformedJson))
      && (env.decode(text).Some? ==> r == ClassificationFromJson(env.decode(text).value))
    ensures r.Success? ==> r.value.priority == ColorToPriority(r.value.color)
  {
    var protocols := env.search(TriageProtocols, SymptomQuery(a), RetrievalCount);
    var reply := env.complete(ClassificationPrompt(a, Bullets(protocols)));
    var data :- Decode(env.decode, Unfence(Strip(reply)));
    ClassificationFromJson(data)
  }
}
