/**
 * What the three agents share: the external services they call, the
 * ingredients of each prompt, the markdown-fence removal applied to every
 * completion, the symptom query and the "- " list rendering of retrieved
 * documents.
 *
 * The completion service, the vector store and `json.loads` are not
 * modelled; they are the fields of `Env`, functions the model knows
 * nothing about except that a search returns at most the number of
 * documents asked for.
 */
module Services {
  import opened Wrappers
  import opened Text
  import opened Json
  import opened Schemas

  /** The three collections of the vector store. */
  datatype Corpus = TriageProtocols | RoutingRules | PreliminaryOrders

  /** A similarity search: the documents of a collection closest to a query, at most `k` of them. */
  type SearchFn = f: (Corpus, string, nat) -> seq<string> | forall c, q, k :: |f(c, q, k)| <= k
    witness (c: Corpus, q: string, k: nat) => []

  /**
   * What a completion request is built from. The prose around these
   * ingredients is fixed text and is not modelled; two requests built
   * from the same ingredients are the same request.
   */
  datatype Prompt =
    | ExtractionPrompt(qaText: string, languageName: string)
    | ClassificationPrompt(anamnesis: Anamnesis, protocolsText: string)
    | RoutingPrompt(anamnesis: Anamnesis, classification: TriageClassification,
                    rulesText: string, ordersText: string, languageName: string, allergyWarning: string)
    | CrewExtractionPrompt(qaText: string, languageName: string, language: string)
    | CrewClassificationPrompt(anamnesis: Anamnesis, languageName: string)
    | CrewRoutingPrompt(anamnesis: Anamnesis, classification: TriageClassification,
                        languageName: string, allergyWarning: string)

  /** The collaborators of the pipeline: the language model, the vector store and the JSON decoder. */
  datatype Env = Env(
    complete: Prompt -> string,
    search: SearchFn,
    decode: string -> Option<JsonValue>)

  /** How many documents each retrieval asks for. */
  const RetrievalCount: nat := 5

  /** The opening of a markdown code block. */
  const Fence: string := "```"

  /** The lines strictly between the first and the last (`lines[1:-1]`). */
  function InnerLines(lines: seq<string>): (r: seq<string>)
    ensures |lines| <= 2 ==> r == []
    ensures |lines| > 2 ==> r == lines[1..|lines| - 1]
  {
    if |lines| <= 2 then [] else lines[1..|lines| - 1]
  }

  /**
   * The fence removal of the three agents: a text that starts with the
   * fence loses its first and its last line, whatever the last line holds;
   * any other text is kept.
   */
  function Unfence(t: string): (r: string)
    ensures !StartsWith(t, Fence) ==> r == t
    ensures StartsWith(t, Fence) && |Split(t, '\n')| <= 2 ==> r == ""
    ensures StartsWith(t, Fence) && |Split(t, '\n')| > 2 ==>
      var lines := Split(t, '\n');
      t == lines[0] + "\n" + r + "\n" + lines[|lines| - 1]
  {
    if StartsWith(t, Fence) then
      var lines := Split(t, '\n');
      var r := Join(InnerLines(lines), "\n");
      if |lines| > 2 then
        JoinSplit(t, '\n');
        JoinOuter(lines, "\n");
        r
      else r
    else t
  }

  /** A join of three or more parts is the first part, the inner join and the last part. */
  lemma JoinOuter(parts: seq<string>, sep: string)
    requires |parts| > 2
    ensures Join(parts, sep) == parts[0] + sep + Join(parts[1..|parts| - 1], sep) + sep + parts[|parts| - 1]
  {
    var inner := parts[1..|parts| - 1];
    assert parts[1..] == inner + [parts[|parts| - 1]];
    JoinSnoc(inner, parts[|parts| - 1], sep);
  }

  /** The lines of a fenced block are its opening line, the body's lines and the closing line. */
  lemma FencedLines(opening: string, body: string, closing: string)
    requires '\n' !in opening && '\n' !in closing
    ensures Split(opening + "\n" + body + "\n" + closing, '\n') == [opening] + Split(body, '\n') + [closing]
  {
    var t := opening + "\n" + body + "\n" + closing;
    assert t == opening + ['\n'] + (body + ['\n'] + closing);
    SplitPrepend(opening, body + ['\n'] + closing, '\n');
    SplitAppend(body, closing, '\n');
    SeqAssoc([opening], Split(body, '\n'), [closing]);
  }

  /** The inner lines of a framed list are the frame's contents. */
  lemma InnerOfFramed(first: string, mid: seq<string>, last: string)
    ensures InnerLines([first] + mid + [last]) == mid
  {
    var lines := [first] + mid + [last];
    assert lines[1..|lines| - 1] == mid;
  }

  /** A text opened by a fence line and ending in a non-space character is already stripped. */
  lemma FencedStripped(opening: string, rest: string)
    requires StartsWith(opening, Fence) && |rest| >= 1 && !IsSpace(rest[|rest| - 1])
    ensures Strip(opening + rest) == opening + rest
  {
    var t := opening + rest;
    assert t[0] == opening[0] == Fence[0] == '`';
    assert t[|t| - 1] == rest[|rest| - 1];
    StripKeeps(t);
  }

  /** The fence itself is stripped already. */
  lemma FenceStripped()
    ensures Strip(Fence) == Fence
  {
    StripKeeps(Fence);
  }

  /** A reply made of a fenced block is stripped already. */
  lemma FencedReplyStripped(opening: string, body: string)
    requires StartsWith(opening, Fence)
    ensures Strip(opening + "\n" + body + "\n" + Fence) == opening + "\n" + body + "\n" + Fence
  {
    assert opening + "\n" + body + "\n" + Fence == opening + ("\n" + body + "\n" + Fence);
    FencedStripped(opening, "\n" + body + "\n" + Fence);
  }

  /** A fenced block reads back as exactly its body, however many lines the body has. */
  lemma UnfenceFenced(opening: string, body: string, closing: string)
    requires StartsWith(opening, Fence)
    requires '\n' !in opening && '\n' !in closing
    ensures Unfence(opening + "\n" + body + "\n" + closing) == body
  {
    var t := opening + "\n" + body + "\n" + closing;
    assert t == opening + ("\n" + body + "\n" + closing);
    assert t[..|Fence|] == opening[..|Fence|];
    FencedLines(opening, body, closing);
    InnerOfFramed(opening, Split(body, '\n'), closing);
    JoinSplit(body, '\n');
  }

  /** `f"{chief_complaint} {' '.join(associated_symptoms)}"`: the query for protocols and orders. */
  function SymptomQuery(a: Anamnesis): (q: string)
    ensures StartsWith(q, a.chiefComplaint + " ")
    ensures q[|a.chiefComplaint| + 1..] == Join(a.associatedSymptoms, " ")
  {
    var q := a.chiefComplaint + " " + Join(a.associatedSymptoms, " ");
    assert q[..|a.chiefComplaint| + 1] == a.chiefComplaint + " ";
    q
  }

  /** Every reported symptom is part of the symptom query. */
  lemma SymptomQueryMentions(a: Anamnesis, i: nat)
    requires i < |a.associatedSymptoms|
    ensures IsSubstring(a.chiefComplaint, SymptomQuery(a))
    ensures IsSubstring(a.associatedSymptoms[i], SymptomQuery(a))
  {
    var q := SymptomQuery(a);
    var rest := Join(a.associatedSymptoms, " ");
    assert q[..|a.chiefComplaint|] == a.chiefComplaint;
    assert OccursAt(a.chiefComplaint, q, 0);
    JoinContainsPart(a.associatedSymptoms, " ", i);
    var k :| OccursAt(a.associatedSymptoms[i], rest, k);
    var off := |a.chiefComplaint| + 1;
    assert q[off + k..off + k + |a.associatedSymptoms[i]|] == rest[k..k + |a.associatedSymptoms[i]|];
    assert OccursAt(a.associatedSymptoms[i], q, off + k);
  }

  /** One retrieved document as a list line. */
  function Bullet(doc: string): string {
    "- " + doc
  }

  /** `"\n".join(f"- {d}" for d in docs)`: the retrieved documents, one "- " line each, in retrieval order. */
  function Bullets(docs: seq<string>): string {
    Join(seq(|docs|, i requires 0 <= i < |docs| => Bullet(docs[i])), "\n")
  }

  /**
   * Reading the rendered list back line by line gives each document, in
   * order, behind its "- ", as long as no document spans several lines.
   */
  lemma BulletsLines(docs: seq<string>)
    requires |docs| >= 1
    requires forall i :: 0 <= i < |docs| ==> '\n' !in docs[i]
    ensures |Split(Bullets(docs), '\n')| == |docs|
    ensures forall i :: 0 <= i < |docs| ==> Split(Bullets(docs), '\n')[i] == "- " + docs[i]
  {
    var lines := seq(|docs|, i requires 0 <= i < |docs| => Bullet(docs[i]));
    forall i | 0 <= i < |lines|
      ensures '\n' !in lines[i]
    {
      assert lines[i] == "- " + docs[i];
    }
    SplitJoin(lines, '\n');
  }
}
