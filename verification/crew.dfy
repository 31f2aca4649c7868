/**
 * The alternative orchestration of the three stages as a sequence of
 * crews. Its replies are cleaned more leniently than the agents' own: the
 * closing fence line is dropped only when it is one, and the JSON object
 * is then cut out between the first `{` and the last `}`. The
 * classification and routing records are assembled exactly as in the
 * stand-alone stages, and the language names are the routing stage's.
 */
module Crew {
  import opened Wrappers
  import opened Text
  import opened Json
  import opened Schemas
  import opened Services
  import AnamnesisAgent
  import TriageAgent
  import RoutingAgent

  /**
   * The lines the crew keeps of a fenced text: from the second line when
   * the first starts with the fence, up to the last one unless that line,
   * stripped, is the fence itself.
   */
  function KeptLines(lines: seq<string>): seq<string>
    requires |lines| >= 1
  {
    var startIdx := if StartsWith(lines[0], Fence) then 1 else 0;
    var endIdx := if Strip(lines[|lines| - 1]) == Fence then |lines| - 1 else |lines|;
    if startIdx <= endIdx then lines[startIdx..endIdx] else []
  }

  /**
   * The crew's fence removal: a text starting with the fence loses its
   * first line, and its last line only when that line, stripped, is the
   * fence itself; any other text is kept.
   */
  function Unfence(t: string): (r: string)
    ensures !StartsWith(t, Fence) ==> r == t
  {
    if StartsWith(t, Fence) then Join(KeptLines(Split(t, '\n')), "\n") else t
  }

  /** A text that begins with a line starting with the fence starts with the fence. */
  lemma FenceLeads(opening: string, rest: string)
    requires StartsWith(opening, Fence)
    ensures StartsWith(opening + rest, Fence)
  {
    assert (opening + rest)[..|Fence|] == opening[..|Fence|];
  }

  /** The crew keeps the middle lines of a block opened and closed by fence lines. */
  lemma KeptFramed(opening: string, mid: seq<string>, closing: string)
    requires StartsWith(opening, Fence) && Strip(closing) == Fence
    ensures KeptLines([opening] + mid + [closing]) == mid
  {
    FramedParts(opening, mid, closing);
    KeptBetween([opening] + mid + [closing], closing);
  }

  /** The crew keeps the lines between the first and the last, named `last`, when both are fences. */
  lemma KeptBetween(lines: seq<string>, last: string)
    requires |lines| >= 2 && lines[|lines| - 1] == last
    requires StartsWith(lines[0], Fence) && Strip(last) == Fence
    ensures KeptLines(lines) == lines[1..|lines| - 1]
  {
  }

  /** The crew keeps every line after the opening one when the last, named `last`, is not a fence. */
  lemma KeptAfterOpening(lines: seq<string>, last: string)
    requires |lines| >= 1 && lines[|lines| - 1] == last
    requires StartsWith(lines[0], Fence) && Strip(last) != Fence
    ensures KeptLines(lines) == lines[1..]
  {
  }

  /** The crew keeps every line after the opening one when the last is not a fence. */
  lemma KeptOpen(opening: string, mid: seq<string>)
    requires StartsWith(opening, Fence) && |mid| >= 1 && Strip(mid[|mid| - 1]) != Fence
    ensures KeptLines([opening] + mid) == mid
  {
    ConsParts(opening, mid);
    KeptAfterOpening([opening] + mid, mid[|mid| - 1]);
  }

  /** A text split into a fence line, middle lines and a closing fence line reads back as the middle lines. */
  lemma UnfenceFramed(t: string, opening: string, mid: seq<string>, closing: string)
    requires StartsWith(t, Fence) && Split(t, '\n') == [opening] + mid + [closing]
    requires StartsWith(opening, Fence) && Strip(closing) == Fence
    ensures Unfence(t) == Join(mid, "\n")
  {
    KeptFramed(opening, mid, closing);
  }

  /** A block closed by a fence line reads back as exactly its body. */
  lemma UnfenceClosed(opening: string, body: string, closing: string)
    requires StartsWith(opening, Fence) && Strip(closing) == Fence
    requires '\n' !in opening && '\n' !in closing
    ensures Unfence(opening + "\n" + body + "\n" + closing) == body
  {
    FenceLeads(opening, "\n");
    FenceLeads(opening + "\n", body);
    FenceLeads(opening + "\n" + body, "\n");
    FenceLeads(opening + "\n" + body + "\n", closing);
    FencedLines(opening, body, closing);
    UnfenceFramed(opening + "\n" + body + "\n" + closing, opening, Split(body, '\n'), closing);
    JoinSplit(body, '\n');
  }

  /** The lines of a text opened by a fence line: that line, then the lines of the rest. */
  lemma OpenedLines(opening: string, body: string)
    requires StartsWith(opening, Fence) && '\n' !in opening
    ensures StartsWith(opening + "\n" + body, Fence)
    ensures Split(opening + "\n" + body, '\n') == [opening] + Split(body, '\n')
  {
    assert opening + "\n" + body == opening + ("\n" + body);
    FenceLeads(opening, "\n" + body);
    SplitPrepend(opening, body, '\n');
  }

  /** A text opened by a fence line reads back as the lines after it when the last is not a fence. */
  lemma UnfenceOpened(t: string, opening: string, mid: seq<string>)
    requires StartsWith(t, Fence) && Split(t, '\n') == [opening] + mid
    requires StartsWith(opening, Fence) && |mid| >= 1 && Strip(mid[|mid| - 1]) != Fence
    ensures Unfence(t) == Join(mid, "\n")
  {
    KeptOpen(opening, mid);
  }

  /** A text split into a fence line and the lines of `body`, the last not a fence, reads back as `body`. */
  lemma UnfenceOpenedBody(t: string, opening: string, body: string)
    requires StartsWith(t, Fence) && Split(t, '\n') == [opening] + Split(body, '\n')
    requires StartsWith(opening, Fence) && Strip(Split(body, '\n')[|Split(body, '\n')| - 1]) != Fence
    ensures Unfence(t) == body
  {
    UnfenceOpened(t, opening, Split(body, '\n'));
    JoinSplit(body, '\n');
  }

  /**
   * A block whose closing fence is missing also reads back as its body,
   * provided the body's own last line is not a fence: unlike the agents,
   * the crew does not drop that line.
   */
  lemma UnfenceUnclosed(opening: string, body: string)
    requires StartsWith(opening, Fence) && '\n' !in opening
    requires Strip(Split(body, '\n')[|Split(body, '\n')| - 1]) != Fence
    ensures Unfence(opening + "\n" + body) == body
  {
    OpenedLines(opening, body);
    UnfenceOpenedBody(opening + "\n" + body, opening, body);
  }

  /**
   * The JSON span of a text: from the first `{` through the last `}` when
   * that `}` comes after it, otherwise the whole text.
   */
  function JsonSpan(t: string): (r: string)
    ensures !(Find(t, '{') != -1 && RFind(t, '}') > Find(t, '{')) ==> r == t
    ensures Find(t, '{') != -1 && RFind(t, '}') > Find(t, '{') ==>
      && |r| >= 2 && r[0] == '{' && r[|r| - 1] == '}'
      && OccursAt(r, t, Find(t, '{'))
      && '{' !in t[..Find(t, '{')]
      && '}' !in t[Find(t, '{') + |r|..]
  {
    var start := Find(t, '{');
    var end := RFind(t, '}') + 1;
    FindSpec(t, '{');
    RFindSpec(t, '}');
    if start != -1 && end > start then t[start..end] else t
  }

  /** An object with no `{` before it and no `}` after it is cut out exactly. */
  lemma JsonSpanFindsObject(before: string, obj: string, after: string)
    requires |obj| >= 2 && obj[0] == '{' && obj[|obj| - 1] == '}'
    requires '{' !in before && '}' !in after
    ensures JsonSpan(before + obj + after) == obj
  {
    var t := before + obj + after;
    var last := |before| + |obj| - 1;
    assert t[..|before|] == before;
    FindIs(t, '{', |before|);
    assert t[last + 1..] == after;
    RFindIs(t, '}', last);
    assert t[|before|..last + 1] == obj;
  }

  /** A text that is one object, braces at both ends, is its own span. */
  lemma JsonSpanOfObject(obj: string)
    requires |obj| >= 2 && obj[0] == '{' && obj[|obj| - 1] == '}'
    ensures JsonSpan(obj) == obj
  {
    assert obj[..0] == [];
    FindIs(obj, '{', 0);
    assert obj[|obj|..] == [];
    RFindIs(obj, '}', |obj| - 1);
    assert obj[0..|obj|] == obj;
  }

  /** What `_extract_json` reads: the reply stripped, unfenced, narrowed to its JSON span and decoded. */
  function ExtractedJson(reply: string, decode: string -> Option<JsonValue>): Result<JsonValue, StageError> {
    Decode(decode, JsonSpan(Unfence(Strip(reply))))
  }

  /** The second half of `_extract_json`: decode the JSON span when there is one, else the whole text. */
  method DecodeSpan(text: string, decode: string -> Option<JsonValue>) returns (r: Result<JsonValue, StageError>)
    ensures r == Decode(decode, JsonSpan(text))
  {
    var start := Find(text, '{');
    var end := RFind(text, '}') + 1;
    if start != -1 && end > start {
      r := Decode(decode, text[start..end]);
    } else {
      r := Decode(decode, text);
    }
  }

  /** `_extract_json`: the reply stripped and unfenced by rebinding, then its span decoded. */
  method ExtractJson(reply: string, decode: string -> Option<JsonValue>) returns (r: Result<JsonValue, StageError>)
    ensures r == ExtractedJson(reply, decode)
  {
    var text := Strip(reply);
    if StartsWith(text, Fence) {
      var lines := Split(text, '\n');
      text := Join(KeptLines(lines), "\n");
    }
    assert text == Unfence(Strip(reply));
    r := DecodeSpan(text, decode);
  }

  /** A single line after the opening fence is kept when it is not a fence itself. */
  lemma UnfenceOneLine(opening: string, line: string)
    requires StartsWith(opening, Fence) && '\n' !in opening
    requires '\n' !in line && Strip(line) != Fence
    ensures Unfence(opening + "\n" + line) == line
  {
    SplitJoin([line], '\n');
    assert Split(line, '\n') == [line];
    UnfenceUnclosed(opening, line);
  }

  /** A text with braces at both ends is already stripped and is not the fence. */
  lemma ObjectStripped(obj: string)
    requires |obj| >= 2 && obj[0] == '{' && obj[|obj| - 1] == '}'
    ensures Strip(obj) == obj && Strip(obj) != Fence
  {
    assert !IsSpace(obj[0]) && !IsSpace(obj[|obj| - 1]);
    StripKeeps(obj);
  }

  /** A reply closed by a fence line is stripped already and unfences to its body. */
  lemma UnfenceClosedReply(opening: string, body: string)
    requires StartsWith(opening, Fence) && '\n' !in opening
    ensures Unfence(Strip(opening + "\n" + body + "\n" + Fence)) == body
  {
    FenceStripped();
    UnfenceClosed(opening, body, Fence);
    FencedReplyStripped(opening, body);
  }

  /** An object reply closed by a fence line decodes as the object. */
  lemma ExtractJsonClosedObject(opening: string, obj: string, decode: string -> Option<JsonValue>)
    requires StartsWith(opening, Fence) && '\n' !in opening
    requires |obj| >= 2 && obj[0] == '{' && obj[|obj| - 1] == '}'
    ensures ExtractedJson(opening + "\n" + obj + "\n" + Fence, decode) == Decode(decode, obj)
  {
    UnfenceClosedReply(opening, obj);
    JsonSpanOfObject(obj);
  }

  /** A one-line object after the opening fence is stripped already and unfences to the object. */
  lemma UnfenceUnclosedReply(opening: string, obj: string)
    requires StartsWith(opening, Fence) && '\n' !in opening
    requires |obj| >= 2 && obj[0] == '{' && obj[|obj| - 1] == '}' && '\n' !in obj
    ensures Unfence(Strip(opening + "\n" + obj)) == obj
  {
    ObjectStripped(obj);
    UnfenceOneLine(opening, obj);
    assert opening + "\n" + obj == opening + ("\n" + obj);
    FencedStripped(opening, "\n" + obj);
  }

  /**
   * An object reply whose closing fence is missing decodes as the object
   * too, where the agents' own cleaning would drop its last line.
   */
  lemma ExtractJsonUnclosedObject(opening: string, obj: string, decode: string -> Option<JsonValue>)
    requires StartsWith(opening, Fence) && '\n' !in opening
    requires |obj| >= 2 && obj[0] == '{' && obj[|obj| - 1] == '}' && '\n' !in obj
    ensures ExtractedJson(opening + "\n" + obj, decode) == Decode(decode, obj)
  {
    UnfenceUnclosedReply(opening, obj);
    JsonSpanOfObject(obj);
  }

  /** The crew's allergy line: nothing when no allergy is known. */
  function AllergyWarning(allergies: seq<string>): (r: string)
    ensures r == "" <==> allergies == []
    ensures allergies != [] ==> IsSubstring(Join(allergies, ", "), r)
  {
    if allergies == [] then ""
    else
      var head := "\n⚠️ ALLERGIES: ";
      var listed := Join(allergies, ", ");
      var r := head + listed + " - Check all orders for contraindications!";
      assert r[|head|..|head| + |listed|] == listed;
      assert OccursAt(listed, r, |head|);
      r
  }

  /** Every known allergy is named in the crew's allergy line. */
  lemma AllergyWarningNamesAll(allergies: seq<string>, i: nat)
    requires i < |allergies|
    ensures IsSubstring(allergies[i], AllergyWarning(allergies))
  {
    JoinContainsPart(allergies, ", ", i);
    SubstringTransitive(allergies[i], Join(allergies, ", "), AllergyWarning(allergies));
  }

  /** The crew's extraction: one completion for the pairs text, read as an `Anamnesis`. */
  function Extract(qaText: string, language: string, env: Env): (r: Result<Anamnesis, StageError>)
    ensures var reply := env.complete(CrewExtractionPrompt(qaText, RoutingAgent.LanguageName(language), language));
      && (ExtractedJson(reply, env.decode).Failure? ==> r == Failure(MalformedJson))
      && (ExtractedJson(reply, env.decode).Success? ==> r == AnamnesisFromJson(ExtractedJson(reply, env.decode).value))
  {
    var reply := env.complete(CrewExtractionPrompt(qaText, RoutingAgent.LanguageName(language), language));
    var data :- ExtractedJson(reply, env.decode);
    AnamnesisFromJson(data)
  }

  /** The crew's classification: the priority always follows the colour. */
  function Classify(a: Anamnesis, language: string, env: Env): (r: Result<TriageClassification, StageError>)
    ensures var reply := env.complete(CrewClassificationPrompt(a, RoutingAgent.LanguageName(language)));
      && (ExtractedJson(reply, env.decode).Failure? ==> r == Failure(MalformedJson))
      && (ExtractedJson(reply, env.decode).Success? ==> r == TriageAgent.ClassificationFromJson(ExtractedJson(reply, env.decode).value))
    ensures r.Success? ==> r.value.priority == TriageAgent.ColorToPriority(r.value.color)
  {
    var reply := env.complete(CrewClassificationPrompt(a, RoutingAgent.LanguageName(language)));
    var data :- ExtractedJson(reply, env.decode);
    TriageAgent.ClassificationFromJson(data)
  }

  /**
   * The crew's routing: the prompt carries the crew's allergy line, and an
   * unknown urgency falls back to the colour's default.
   */
  function Route(a: Anamnesis, c: TriageClassification, language: string, env: Env): (r: Result<Routing, StageError>)
    ensures var reply := env.complete(CrewRoutingPrompt(a, c, RoutingAgent.LanguageName(language), AllergyWarning(a.allergies)));
      var data := ExtractedJson(reply, env.decode);
      && (data.Failure? ==> r == Failure(MalformedJson))
      && (data.Success? ==> r == RoutingAgent.RoutingFromJson(data.value, c.color))
      && (r.Success? ==> data.Success? && data.value.JObject? && "urgency" in data.value.fields
                         && RoutingAgent.ResolveUrgency(data.value.fields["urgency"], c.color) == Success(r.value.urgency))
  {
    var reply := env.complete(CrewRoutingPrompt(a, c, RoutingAgent.LanguageName(language), AllergyWarning(a.allergies)));
    var data :- ExtractedJson(reply, env.decode);
    RoutingAgent.RoutingFromJson(data, c.color)
  }

  /**
   * `process`: extraction, classification and routing in turn, the first
   * failure ending the run; every stage sees the same language.
   */
  function Process(answers: map<int, string>, language: string, env: Env)
    : (r: Result<(Anamnesis, TriageClassification, Routing), StageError>)
    ensures r.Success? ==>
      && Extract(AnamnesisAgent.QaText(answers, Some(language)), language, env) == Success(r.value.0)
      && Classify(r.value.0, language, env) == Success(r.value.1)
      && Route(r.value.0, r.value.1, language, env) == Success(r.value.2)
      && r.value.1.priority == TriageAgent.ColorToPriority(r.value.1.color)
    ensures var extracted := Extract(AnamnesisAgent.QaText(answers, Some(language)), language, env);
      && (extracted.Failure? ==> r == Failure(extracted.error))
      && (extracted.Success? ==>
            var classified := Classify(extracted.value, language, env);
            && (classified.Failure? ==> r == Failure(classified.error))
            && (classified.Success? ==>
                  var routed := Route(extracted.value, classified.value, language, env);
                  && (routed.Failure? ==> r == Failure(routed.error))
                  && (routed.Success? ==> r == Success((extracted.value, classified.value, routed.value)))))
  {
    var anamnesis :- Extract(AnamnesisAgent.QaText(answers, Some(language)), language, env);
    var classification :- Classify(anamnesis, language, env);
    var routing :- Route(anamnesis, classification, language, env);
    Success((anamnesis, classification, routing))
  }
}
