/** The answer extraction of `get_gemini_response` (ChatBot.py:39-53): from the
    decoded body of a successful `generateContent` call, the first candidate's
    first part's text (or a fixed fallback message) and the web sources cited in
    that candidate's grounding metadata. Python's lookups are modelled exactly,
    so every place where the code can raise is an `Err` here. */
module Extraction {
  import opened PyJson
  import opened Lists

  /** One `{"uri": ..., "title": ...}` dict of the returned source list. The
      values are copied from the response as they are, strings or not. */
  datatype Source = Source(uri: Json, title: Json)

  /** The `(text, sources)` pair that `get_gemini_response` returns. `text` is
      whatever truthy value the response held (a str for any real response). */
  datatype Reply = Reply(text: Json, sources: seq<Source>)

  const FallbackText: string :=
    "I'm sorry, I couldn't find an answer to that question. Please try asking in a different way or be more specific about Cornell University."

  /** The reply given whenever no answer text is found. */
  const Fallback: Reply := Reply(JStr(FallbackText), [])

  /** The whole of ChatBot.py:39-53 for a decoded body `result`. */
  function Extract(result: Json): Result<Reply> {
    var candidates :- Get(result, "candidates", JArr([JObj(map[])]));
    var candidate :- First(candidates);
    if !Truthy(candidate) then Ok(Fallback) else
    var found :- TextProbe(candidate);
    if !Truthy(found) then Ok(Fallback) else
    var text :- AnswerAt(candidate);
    var sources :- GroundingSources(candidate);
    Ok(Reply(text, sources))
  }

  /** `candidate.get("content", {}).get("parts", [{}])[0].get("text")`, the
      test of ChatBot.py:43. */
  function TextProbe(candidate: Json): Result<Json> {
    var content :- Get(candidate, "content", JObj(map[]));
    var parts :- Get(content, "parts", JArr([JObj(map[])]));
    var part :- First(parts);
    Get(part, "text", JNull)
  }

  /** `candidate["content"]["parts"][0]["text"]` (ChatBot.py:44). */
  function AnswerAt(candidate: Json): Result<Json> {
    var content :- Field(candidate, "content");
    var parts :- Field(content, "parts");
    var part :- First(parts);
    Field(part, "text")
  }

  /** ChatBot.py:45-51: the grounding metadata is consulted only when it and
      its attribution list are truthy. */
  function GroundingSources(candidate: Json): Result<seq<Source>> {
    var metadata :- Get(candidate, "groundingMetadata", JObj(map[]));
    if !Truthy(metadata) then Ok([]) else
    var attributions :- Get(metadata, "groundingAttributions", JNull);
    if !Truthy(attributions) then Ok([]) else
    var listed :- Field(metadata, "groundingAttributions");
    Comprehension(listed)
  }

  /** The list comprehension at ChatBot.py:47-51 run over any iterable value.
      Iterating a str yields one-character strs and iterating a dict yields its
      keys, which are strs too; the first of them has no `get`. */
  function Comprehension(iterable: Json): Result<seq<Source>> {
    match iterable
    case JArr(items) => SourcesFrom(items)
    case JStr(s) => if s == [] then Ok([]) else Err(AttributeError)
    case JObj(fields) => if fields == map[] then Ok([]) else Err(AttributeError)
    case _ => Err(TypeError)
  }

  /** The comprehension over a list, element by element from the front: the
      first element that raises ends the evaluation. */
  function SourcesFrom(attrs: seq<Json>): Result<seq<Source>> {
    if attrs == [] then Ok([]) else
    var web :- Get(attrs[0], "web", JNull);
    var head :- if Truthy(web) then SourceEntry(attrs[0]) else Ok([]);
    var tail :- SourcesFrom(attrs[1..]);
    Ok(head + tail)
  }

  /** `{"uri": attr["web"]["uri"], "title": attr["web"]["title"]}`
      (ChatBot.py:48), as a one-element list; `attr["web"]` is looked up once,
      since both lookups yield the same value. */
  function SourceEntry(attr: Json): Result<seq<Source>> {
    var web :- Field(attr, "web");
    var uri :- Field(web, "uri");
    var title :- Field(web, "title");
    Ok([Source(uri, title)])
  }

  // ---------------------------------------------------------------------------
  // The same extraction stated declaratively, with explicit absence checks.

  /** The attribution has a truthy `web` entry, i.e. it is cited. */
  predicate HasWeb(attr: Json) {
    attr.JObj? && "web" in attr.fields && Truthy(attr.fields["web"])
  }

  /** The attribution can go through the comprehension without raising: it is a
      dict, and if it is cited its `web` is a dict holding `uri` and `title`. */
  predicate AttrOk(attr: Json) {
    && attr.JObj?
    && (HasWeb(attr) ==>
          var web := attr.fields["web"];
          web.JObj? && "uri" in web.fields && "title" in web.fields)
  }

  /** The source a cited, well-formed attribution contributes. */
  function SourceOf(attr: Json): Source {
    if AttrOk(attr) && HasWeb(attr) then
      var web := attr.fields["web"].fields;
      Source(web["uri"], web["title"])
    else
      Source(JNull, JNull)
  }

  /** The first candidate, when `candidates` is present as a non-empty list. */
  predicate HasCandidate(result: Json) {
    && result.JObj? && "candidates" in result.fields
    && result.fields["candidates"].JArr? && result.fields["candidates"].items != []
  }

  function Candidate(result: Json): Json
    requires HasCandidate(result)
  {
    result.fields["candidates"].items[0]
  }

  /** `content` of a candidate that is a dict holding one. */
  predicate HasContent(c: Json) {
    c.JObj? && "content" in c.fields
  }

  /** `content.parts` is present as a non-empty list. */
  predicate HasParts(c: Json) {
    && HasContent(c) && c.fields["content"].JObj? && "parts" in c.fields["content"].fields
    && c.fields["content"].fields["parts"].JArr? && c.fields["content"].fields["parts"].items != []
  }

  function Part(c: Json): Json
    requires HasParts(c)
  {
    c.fields["content"].fields["parts"].items[0]
  }

  /** `t` is the truthy `content.parts[0].text` of candidate `c`. */
  predicate AnswerOf(c: Json, t: Json) {
    HasParts(c) && Part(c).JObj? && "text" in Part(c).fields && Part(c).fields["text"] == t && Truthy(t)
  }

  /** `t` is the answer text of the first candidate of `result`. */
  predicate AnswerIn(result: Json, t: Json) {
    HasCandidate(result) && AnswerOf(Candidate(result), t)
  }

  /** The candidate's `groundingMetadata.groundingAttributions` is a non-empty list. */
  predicate Cited(c: Json) {
    && c.JObj? && "groundingMetadata" in c.fields
    && var metadata := c.fields["groundingMetadata"];
    && metadata.JObj? && "groundingAttributions" in metadata.fields
    && metadata.fields["groundingAttributions"].JArr?
    && metadata.fields["groundingAttributions"].items != []
  }

  function Attributions(c: Json): seq<Json>
    requires Cited(c)
  {
    c.fields["groundingMetadata"].fields["groundingAttributions"].items
  }

  // ---------------------------------------------------------------------------
  // Properties

  /** The comprehension succeeds exactly when every attribution is well formed,
      and then yields the cited attributions' sources in their original order. */
  lemma {:induction false} SourcesFromMeaning(attrs: seq<Json>)
    ensures SourcesFrom(attrs).Ok? <==> forall k :: 0 <= k < |attrs| ==> AttrOk(attrs[k])
    ensures SourcesFrom(attrs).Ok? ==> SourcesFrom(attrs).value == Map(SourceOf, Filter(HasWeb, attrs))
  {
    if attrs != [] {
      SourcesFromMeaning(attrs[1..]);
      assert forall k :: 1 <= k < |attrs| ==> attrs[k] == attrs[1..][k - 1];
      if SourcesFrom(attrs).Ok? {
        var kept := Filter(HasWeb, attrs[1..]);
        if HasWeb(attrs[0]) {
          assert ([attrs[0]] + kept)[1..] == kept;
          assert Map(SourceOf, [attrs[0]] + kept) == [SourceOf(attrs[0])] + Map(SourceOf, kept);
        } else {
          assert [] + kept == kept;
        }
      }
    }
  }

  /** There are never more sources than attributions, and each source is the
      `uri` and `title` of a cited attribution's `web`. */
  lemma SourcesFromBounded(attrs: seq<Json>, sources: seq<Source>)
    requires SourcesFrom(attrs) == Ok(sources)
    ensures |sources| <= |attrs|
    ensures forall k :: 0 <= k < |sources| ==>
      exists i :: 0 <= i < |attrs| && HasWeb(attrs[i]) && sources[k] == SourceOf(attrs[i])
  {
    SourcesFromMeaning(attrs);
    var kept := Filter(HasWeb, attrs);
    forall k | 0 <= k < |sources|
      ensures exists i :: 0 <= i < |attrs| && HasWeb(attrs[i]) && sources[k] == SourceOf(attrs[i])
    {
      MapAt(SourceOf, kept, k);
      FilterMembers(HasWeb, attrs, kept[k]);
      var i :| 0 <= i < |attrs| && attrs[i] == kept[k];
      assert HasWeb(attrs[i]) && sources[k] == SourceOf(attrs[i]);
    }
  }

  /** Once the `.get` chain of ChatBot.py:43 has found a truthy text, the
      subscripts of line 44 cannot raise and yield that same text. */
  lemma ProbeThenSubscript(candidate: Json)
    requires TextProbe(candidate).Ok? && Truthy(TextProbe(candidate).value)
    ensures AnswerOf(candidate, TextProbe(candidate).value)
    ensures AnswerAt(candidate) == TextProbe(candidate)
  {
  }

  /** A found answer is returned exactly. Its sources are the attributions
      with a truthy `web`, in order, when the attribution list is non-empty and
      well formed; there are none when the candidate has no metadata, or its
      metadata or attribution list is missing or falsy; and an error in the
      metadata is the error of the whole extraction. */
  lemma AnswerFound(result: Json, t: Json)
    requires AnswerIn(result, t)
    ensures (&& Cited(Candidate(result))
             && forall k :: 0 <= k < |Attributions(Candidate(result))| ==> AttrOk(Attributions(Candidate(result))[k])) ==>
      Extract(result) == Ok(Reply(t, Map(SourceOf, Filter(HasWeb, Attributions(Candidate(result))))))
    ensures "groundingMetadata" !in Candidate(result).fields ==> Extract(result) == Ok(Reply(t, []))
    ensures (&& "groundingMetadata" in Candidate(result).fields
             && var metadata := Candidate(result).fields["groundingMetadata"];
             || !Truthy(metadata)
             || (metadata.JObj? && "groundingAttributions" !in metadata.fields)
             || (metadata.JObj? && !Truthy(metadata.fields["groundingAttributions"]))) ==>
      Extract(result) == Ok(Reply(t, []))
    ensures GroundingSources(Candidate(result)).Err? ==>
      Extract(result) == Err(GroundingSources(Candidate(result)).fault)
  {
    if Cited(Candidate(result)) {
      SourcesFromMeaning(Attributions(Candidate(result)));
    }
  }

  /** Every successful extraction is either the fallback with no sources or the
      first candidate's answer; sources appear only beside a found answer and a
      non-empty attribution list, and are its cited entries in order. */
  lemma ReplyShape(result: Json)
    requires Extract(result).Ok?
    ensures var r := Extract(result).value;
      r == Fallback || AnswerIn(result, r.text)
    ensures var r := Extract(result).value;
      r.sources != [] ==>
        && AnswerIn(result, r.text)
        && Cited(Candidate(result))
        && r.sources == Map(SourceOf, Filter(HasWeb, Attributions(Candidate(result))))
        && |r.sources| <= |Attributions(Candidate(result))|
  {
    var r := Extract(result).value;
    if r.sources != [] {
      var c := Candidate(result);
      SourcesFromMeaning(Attributions(c));
    }
  }

  /** Every case in which no answer text is found ends in the fallback reply
      with no sources, without raising. */
  lemma FallbackCases(result: Json)
    ensures result.JObj? && "candidates" !in result.fields ==> Extract(result) == Ok(Fallback)
    ensures HasCandidate(result) && !Truthy(Candidate(result)) ==> Extract(result) == Ok(Fallback)
    ensures HasCandidate(result) && Candidate(result).JObj? && !HasContent(Candidate(result)) ==>
      Extract(result) == Ok(Fallback)
    ensures (&& HasCandidate(result) && HasContent(Candidate(result))
             && Candidate(result).fields["content"].JObj?
             && "parts" !in Candidate(result).fields["content"].fields) ==>
      Extract(result) == Ok(Fallback)
    ensures (&& HasCandidate(result) && HasParts(Candidate(result)) && Part(Candidate(result)).JObj?
             && ("text" !in Part(Candidate(result)).fields || !Truthy(Part(Candidate(result)).fields["text"]))) ==>
      Extract(result) == Ok(Fallback)
  {
  }

  /** The lookups that raise instead of falling back: a body that is not a
      dict, an empty `candidates` list, an empty `parts` list, a cited
      attribution whose `web` lacks `uri` or `title`, and a truthy attribution
      value that is not a list. No partial result survives any of them. */
  lemma RaisingCases(result: Json)
    ensures !result.JObj? ==> Extract(result) == Err(AttributeError)
    ensures result.JObj? && "candidates" in result.fields && result.fields["candidates"] == JArr([]) ==>
      Extract(result) == Err(IndexError)
    ensures (&& HasCandidate(result) && HasContent(Candidate(result))
             && Candidate(result).fields["content"].JObj?
             && "parts" in Candidate(result).fields["content"].fields
             && Candidate(result).fields["content"].fields["parts"] == JArr([])) ==>
      Extract(result) == Err(IndexError)
    ensures (&& (exists t :: AnswerIn(result, t)) && Cited(Candidate(result))
             && (exists k :: 0 <= k < |Attributions(Candidate(result))| && !AttrOk(Attributions(Candidate(result))[k]))) ==>
      Extract(result).Err?
    ensures (&& (exists t :: AnswerIn(result, t)) && "groundingMetadata" in Candidate(result).fields
             && var metadata := Candidate(result).fields["groundingMetadata"];
             && metadata.JObj? && "groundingAttributions" in metadata.fields
             && Truthy(metadata.fields["groundingAttributions"])
             && !metadata.fields["groundingAttributions"].JArr?) ==>
      Extract(result).Err?
  {
    if (exists t :: AnswerIn(result, t)) && Cited(Candidate(result)) {
      SourcesFromMeaning(Attributions(Candidate(result)));
    }
  }
}
