/** The steps the two session-based analysers (`model.py` and
    `suggestion.spec.py`) share word for word: reading the assistant's reply
    out of the message response, decoding it, substituting the "noPlant"
    object for a falsy value, validating it, and the two `except` clauses.
 */
module SessionFlow {
  import opened PyJson
  import opened Metis

  /** How the validation of a decoded reply ends when it does not raise. */
  datatype Verdict = BadImage | NoPlants | HasPlants(plants: Json)

  /** `decoded or {'error': 'noPlant', 'plants': []}`. */
  function OrNoPlant(decoded: Json): (po: Json)
    ensures Truthy(po)
    ensures Truthy(decoded) ==> po == decoded
  {
    if Truthy(decoded) then decoded else NoPlantObject
  }

  /** The reply is an object whose "error" entry is the string "badImage". */
  predicate FlagsBadImage(po: Json) {
    po.JObj? && "error" in po.fields && IsText(po.fields["error"], "badImage")
  }

  /** `po['error'] == "badImage"`, evaluated once `'error' in po` held. */
  function ErrorIsBadImage(po: Json): Py<bool>
  {
    var e :- GetItem(po, "error");
    Ok(IsText(e, "badImage"))
  }

  /** The `if`/`elif` that validates the decoded reply:
      `isinstance(po, str) or 'error' in po and po['error'] == "badImage"`,
      then `not po.get('plants')`. */
  function Validate(po: Json): (r: Py<Verdict>)
    ensures r.Ok? <==> po.JStr? || po.JObj?
    ensures r == Ok(BadImage) <==> po.JStr? || FlagsBadImage(po)
    ensures r == Ok(NoPlants) <==>
      po.JObj? && !FlagsBadImage(po) && !("plants" in po.fields && Truthy(po.fields["plants"]))
    ensures r.Ok? && r.value.HasPlants? ==>
      po.JObj? && "plants" in po.fields && r.value.plants == po.fields["plants"] && Truthy(r.value.plants)
    // a list reaches po['error'] (TypeError) or po.get (AttributeError); a number or bool fails at `in`
    ensures po.JArr? ==> r == Raise(if JStr("error") in po.items then TypeError else AttributeError)
    ensures po.JNum? || po.JBool? || po.JNull? ==> r == Raise(TypeError)
  {
    if po.JStr? then Ok(BadImage)
    else
      var hasError :- Contains(po, "error");
      var isBad :- if hasError then ErrorIsBadImage(po) else Ok(false);
      if isBad then Ok(BadImage)
      else
        var plants :- Get(po, "plants", JNull);
        if !Truthy(plants) then Ok(NoPlants) else Ok(HasPlants(plants))
  }

  /** `response.raise_for_status()`, `response.json()['content']`, `json.loads`,
      the "noPlant" substitution and the validation, in that order. */
  function ReadReply(message: HttpOutcome, parse: string -> Option<Json>): (r: Py<Verdict>)
    ensures !Succeeds(message) ==> r.Raise? && r.exc.RequestException?
    ensures Succeeds(message) && r.Raise? ==> !r.exc.RequestException?
  {
    var body :- CheckedJson(message);
    var content :- GetItem(body, "content");
    var decoded :- Loads(parse, content);
    Validate(OrNoPlant(decoded))
  }

  /** The two `except` clauses: a `RequestException` means the service could
      not be reached, anything else is an unexpected error. */
  function Recover(attempt: Py<Analysis>): (a: Analysis)
    ensures attempt.Ok? ==> a == attempt.value
    ensures attempt.Raise? ==> IsSessionFailureMessage(a.error) && a.plants == JArr([])
    ensures attempt.Raise? ==> (a.error == JStr(MsgRetrieve) <==> attempt.exc.RequestException?)
    ensures attempt.Raise? ==> (a.error == JStr(MsgUnexpected) <==> !attempt.exc.RequestException?)
  {
    match attempt
    case Ok(result) => result
    case Raise(e) => Failure(if e.RequestException? then MsgRetrieve else MsgUnexpected)
  }

  /** The session call succeeded with an object body holding a truthy "id". */
  predicate SessionOpened(session: HttpOutcome) {
    && Succeeds(session)
    && session.body.value.JObj?
    && "id" in session.body.value.fields
    && Truthy(session.body.value.fields["id"])
  }

  /** The message response carries a "content" string that `parse` decodes to `v`. */
  predicate ReplyDecodesTo(message: HttpOutcome, parse: string -> Option<Json>, v: Json) {
    && Succeeds(message)
    && message.body.value.JObj?
    && "content" in message.body.value.fields
    && message.body.value.fields["content"].JStr?
    && parse(message.body.value.fields["content"].s) == Some(v)
  }

  /** The message response came back, but its "content" is missing, is not a
      string, or does not parse. */
  predicate ReplyUndecodable(message: HttpOutcome, parse: string -> Option<Json>) {
    && Succeeds(message)
    && !(&& message.body.value.JObj?
         && "content" in message.body.value.fields
         && message.body.value.fields["content"].JStr?
         && parse(message.body.value.fields["content"].s).Some?)
  }

  lemma ReadReplyDecoded(message: HttpOutcome, parse: string -> Option<Json>, v: Json)
    requires ReplyDecodesTo(message, parse, v)
    ensures ReadReply(message, parse) == Validate(OrNoPlant(v))
  {
  }

  lemma ReadReplyUndecodable(message: HttpOutcome, parse: string -> Option<Json>)
    requires ReplyUndecodable(message, parse)
    ensures ReadReply(message, parse).Raise?
    ensures !ReadReply(message, parse).exc.RequestException?
  {
  }
}
