/** `suggestion.spec.py`: the variant of `analyze_image` that reads the
    session id with `.get("id")` and returns the "plants" entry as decoded,
    without a second `json.loads`.
 */
module SuggestionSpec {
  import opened PyJson
  import opened Metis
  import opened SessionFlow

  /** The `try` block of `analyze_image` (lines 67-105). */
  function Attempt(session: HttpOutcome, message: HttpOutcome, parse: string -> Option<Json>): Py<Analysis>
  {
    var sessionBody :- CheckedJson(session);
    var sessionId :- Get(sessionBody, "id", JNull);
    if !Truthy(sessionId) then Ok(Failure(MsgNoSession))
    else
      var verdict :- ReadReply(message, parse);
      match verdict
      case BadImage => Ok(Failure(MsgClearerImages))
      case NoPlants => Ok(Failure(MsgNoPlants))
      case HasPlants(p) => Ok(Analysis(JNull, p))
  }

  /** `analyze_image(image_url)`: never raises; a failure has no plants, and a
      success carries a truthy plants value. */
  function AnalyzeImage(session: HttpOutcome, message: HttpOutcome, parse: string -> Option<Json>): (r: Py<Analysis>)
    ensures r.Ok?
    ensures r.value.error == JNull || IsSessionFailureMessage(r.value.error)
    ensures r.value.error != JNull ==> r.value.plants == JArr([])
    ensures r.value.error == JNull ==> Truthy(r.value.plants)
  {
    Ok(Recover(Attempt(session, message, parse)))
  }

  lemma RetrieveIffRequestFailed(session: HttpOutcome, message: HttpOutcome, parse: string -> Option<Json>)
    ensures AnalyzeImage(session, message, parse).value == Failure(MsgRetrieve) <==>
      !Succeeds(session) || (SessionOpened(session) && !Succeeds(message))
  {
  }

  /** A missing "id" is read as `None`, so it is reported like a falsy one:
      there is no `KeyError` path. */
  lemma NoSessionIffMissingOrFalsyId(session: HttpOutcome, message: HttpOutcome, parse: string -> Option<Json>)
    ensures AnalyzeImage(session, message, parse).value == Failure(MsgNoSession) <==>
      && Succeeds(session)
      && session.body.value.JObj?
      && !("id" in session.body.value.fields && Truthy(session.body.value.fields["id"]))
  {
  }

  /** A session body that is not an object has no `.get`: `AttributeError`. */
  lemma NonObjectSessionIsUnexpected(session: HttpOutcome, message: HttpOutcome, parse: string -> Option<Json>)
    requires Succeeds(session) && !session.body.value.JObj?
    ensures AnalyzeImage(session, message, parse).value == Failure(MsgUnexpected)
  {
  }

  lemma UndecodableReplyIsUnexpected(session: HttpOutcome, message: HttpOutcome, parse: string -> Option<Json>)
    requires SessionOpened(session) && ReplyUndecodable(message, parse)
    ensures AnalyzeImage(session, message, parse).value == Failure(MsgUnexpected)
  {
    ReadReplyUndecodable(message, parse);
  }

  /** Once the reply decodes to `v`: a falsy value is "no plants"; a non-empty
      string or a "badImage" object asks for clearer images before "plants" is
      looked at; an object with truthy "plants" succeeds and hands that value
      back untouched, whatever its elements hold; other shapes are unexpected. */
  lemma ClassifyDecodedReply(session: HttpOutcome, message: HttpOutcome, parse: string -> Option<Json>, v: Json)
    requires SessionOpened(session) && ReplyDecodesTo(message, parse, v)
    ensures !Truthy(v) ==> AnalyzeImage(session, message, parse).value == Failure(MsgNoPlants)
    ensures AnalyzeImage(session, message, parse).value == Failure(MsgClearerImages) <==>
      Truthy(v) && (v.JStr? || FlagsBadImage(v))
    ensures AnalyzeImage(session, message, parse).value == Failure(MsgNoPlants) <==>
      !Truthy(v) || (v.JObj? && !FlagsBadImage(v) && !("plants" in v.fields && Truthy(v.fields["plants"])))
    ensures AnalyzeImage(session, message, parse).value.error == JNull <==>
      v.JObj? && !FlagsBadImage(v) && "plants" in v.fields && Truthy(v.fields["plants"])
    ensures AnalyzeImage(session, message, parse).value.error == JNull ==>
      AnalyzeImage(session, message, parse).value.plants == v.fields["plants"]
    ensures AnalyzeImage(session, message, parse).value == Failure(MsgUnexpected) <==>
      Truthy(v) && (v.JArr? || v.JNum? || v.JBool?)
  {
    ReadReplyDecoded(message, parse, v);
  }

  /** The plants list is not filtered: whatever the entries hold, including
      entries without "description", a non-empty list comes back exactly as
      the assistant sent it. */
  lemma IncompleteEntryPassesThrough(session: HttpOutcome, message: HttpOutcome, parse: string -> Option<Json>,
                                     items: seq<Json>)
    requires SessionOpened(session) && |items| > 0
    requires ReplyDecodesTo(message, parse, JObj(map["plants" := JArr(items)]))
    ensures AnalyzeImage(session, message, parse).value == Analysis(JNull, JArr(items))
  {
    ClassifyDecodedReply(session, message, parse, JObj(map["plants" := JArr(items)]));
  }
}
