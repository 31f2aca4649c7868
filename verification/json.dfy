/**
 * Decoded JSON as the agents see it after `json.loads`, the exceptions that
 * turning a completion into a record can raise, and the field checks the
 * record models apply to a decoded value.
 *
 * The decoder itself is not modelled: it is a parameter of type
 * `string -> Option<JsonValue>` (`None` stands for a `JSONDecodeError`).
 */
module Json {
  import opened Wrappers

  datatype JsonValue =
    | JNull
    | JBool(b: bool)
    | JInt(i: int)
    | JFraction                 // a number with a fractional part
    | JString(s: string)
    | JArray(items: seq<JsonValue>)
    | JObject(fields: map<string, JsonValue>)

  /** The exceptions a stage can raise while reading a completion. */
  datatype StageError =
    | MalformedJson             // json.loads rejected the text
    | NotAnObject               // the decoded value is not a dict (TypeError)
    | MissingKey(key: string)   // data[key] on an absent key (KeyError)
    | Invalid(field: string)    // a record field failed validation (ValidationError)
    | UnknownColor              // TriageColor(...) of a value outside the enum (ValueError)
    | UnhashableUrgency         // a list or dict used as a dict key (TypeError)

  /** `json.loads(text)` through the given decoder. */
  function Decode(decode: string -> Option<JsonValue>, text: string): (r: Result<JsonValue, StageError>)
    ensures r.Failure? <==> decode(text).None?
    ensures r.Success? ==> r.value == decode(text).value
  {
    match decode(text)
    case Some(v) => Success(v)
    case None => Failure(MalformedJson)
  }

  /** `data[key]`. */
  function Index(data: map<string, JsonValue>, key: string): (r: Result<JsonValue, StageError>)
    ensures r.Success? <==> key in data
    ensures r.Success? ==> r.value == data[key]
    ensures r.Failure? ==> r.error == MissingKey(key)
  {
    if key in data then Success(data[key]) else Failure(MissingKey(key))
  }

  /** `data.get(key, default)`. */
  function GetOr(data: map<string, JsonValue>, key: string, default: JsonValue): JsonValue {
    if key in data then data[key] else default
  }

  /** A `str` field: only a JSON string is accepted. */
  function AsStr(v: JsonValue, field: string): Result<string, StageError> {
    if v.JString? then Success(v.s) else Failure(Invalid(field))
  }

  /** A `str | None` field: null or a string. */
  function AsOptStr(v: JsonValue, field: string): Result<Option<string>, StageError> {
    match v
    case JNull => Success(None)
    case JString(s) => Success(Some(s))
    case _ => Failure(Invalid(field))
  }

  /** A `list[str]` field: an array of strings (null is refused). */
  function AsStrList(v: JsonValue, field: string): Result<seq<string>, StageError> {
    if v.JArray? && forall i :: 0 <= i < |v.items| ==> v.items[i].JString? then
      Success(seq(|v.items|, i requires 0 <= i < |v.items| && v.items[i].JString? => v.items[i].s))
    else
      Failure(Invalid(field))
  }

  /** How a `str | None` value is serialised. */
  function OptStrJson(o: Option<string>): JsonValue {
    if o.Some? then JString(o.value) else JNull
  }

  /** How a `list[str]` value is serialised. */
  function StrListJson(xs: seq<string>): JsonValue {
    JArray(seq(|xs|, i requires 0 <= i < |xs| => JString(xs[i])))
  }

  /** A serialised optional string reads back as itself. */
  lemma OptStrRoundTrip(o: Option<string>, field: string)
    ensures AsOptStr(OptStrJson(o), field) == Success(o)
  {
  }

  /** A serialised string list reads back as itself. */
  lemma StrListRoundTrip(xs: seq<string>, field: string)
    ensures AsStrList(StrListJson(xs), field) == Success(xs)
  {
    var v := StrListJson(xs);
    assert forall i :: 0 <= i < |v.items| ==> v.items[i].JString?;
    var r := AsStrList(v, field);
    assert r.value == xs;
  }
}
