/** `chat.spec.py`: the stateless variant of `analyze_image`, which posts
    once and reads `choices[0].message.content` without decoding it.
 */
module ChatSpec {
  import opened PyJson
  import opened Metis

  const EmptyObject := JObj(map[])

  /** `response_data.get('choices', [{}])[0].get('message', {}).get('content', {})`. */
  function ReadContent(data: Json): Py<Json>
  {
    var choices :- Get(data, "choices", JArr([EmptyObject]));
    var choice :- First(choices);
    var message :- Get(choice, "message", EmptyObject);
    Get(message, "content", EmptyObject)
  }

  /** `po.get('error') == "badImage"`. */
  function GetErrorIsBadImage(po: Json): Py<bool>
  {
    var e :- Get(po, "error", JNull);
    Ok(IsText(e, "badImage"))
  }

  /** The test as written: `'error' in po or po.get('error') == "badImage"`. */
  function BadImageAsWritten(po: Json): Py<bool>
  {
    var hasError :- Contains(po, "error");
    if hasError then Ok(true) else GetErrorIsBadImage(po)
  }

  /** The `try` block of `analyze_image` (lines 67-85), with the bad-image
      test as a parameter. Only status 200 is read; any other status returns
      at once. */
  function AttemptWith(response: HttpOutcome, badImage: Json -> Py<bool>): Py<Analysis>
  {
    match response
    case TransportFailure => Raise(RequestException(Transport))
    case Response(status, body) =>
      if status != 200 then Ok(Failure(MsgRetrieve))
      else
        var data :- match body
          case None => Raise(RequestException(InvalidJson))
          case Some(d) => Ok(d);
        var po :- ReadContent(data);
        var isBad :- badImage(po);
        if isBad then Ok(Failure(MsgClearerImages))
        else
          var plants :- Get(po, "plants", JNull);
          if !Truthy(plants) then Ok(Failure(MsgNoPlants))
          else
            var returned :- Get(po, "plants", JArr([]));
            // the success marker is the four-letter string "null", not None
            Ok(Analysis(JStr("null"), returned))
  }

  /** The single `except Exception` turns every exception into one message. */
  function Recover(attempt: Py<Analysis>): (a: Analysis)
    ensures attempt.Ok? ==> a == attempt.value
    ensures attempt.Raise? ==> a == Failure(MsgDueToError)
  {
    match attempt
    case Ok(a) => a
    case Raise(_) => Failure(MsgDueToError)
  }

  /** `analyze_image(image_url)` as written: never raises, and a failure has no plants. */
  function AnalyzeImage(response: HttpOutcome): (r: Py<Analysis>)
    ensures r.Ok?
    ensures r.value.error in
      {JStr("null"), JStr(MsgClearerImages), JStr(MsgNoPlants), JStr(MsgRetrieve), JStr(MsgDueToError)}
    ensures r.value.error != JStr("null") ==> r.value.plants == JArr([])
    ensures r.value.error == JStr("null") ==> Truthy(r.value.plants)
  {
    Ok(Recover(AttemptWith(response, BadImageAsWritten)))
  }

  /** `analyze_image` with the bad-image test the prompt implies: only an
      "error" entry equal to "badImage" asks for clearer images. */
  function AnalyzeImageCorrected(response: HttpOutcome): (r: Py<Analysis>)
    ensures r.Ok?
    ensures r.value.error in
      {JStr("null"), JStr(MsgClearerImages), JStr(MsgNoPlants), JStr(MsgRetrieve), JStr(MsgDueToError)}
    ensures r.value.error != JStr("null") ==> r.value.plants == JArr([])
    ensures r.value.error == JStr("null") ==> Truthy(r.value.plants)
  {
    Ok(Recover(AttemptWith(response, GetErrorIsBadImage)))
  }

  /** The 200 response carries `c` at `choices[0].message.content`. */
  predicate DeliversContent(response: HttpOutcome, c: Json) {
    && response.Response? && response.status == 200
    && response.body.Some? && response.body.value.JObj?
    && "choices" in response.body.value.fields
    && response.body.value.fields["choices"].JArr?
    && |response.body.value.fields["choices"].items| > 0
    && response.body.value.fields["choices"].items[0].JObj?
    && "message" in response.body.value.fields["choices"].items[0].fields
    && response.body.value.fields["choices"].items[0].fields["message"].JObj?
    && "content" in response.body.value.fields["choices"].items[0].fields["message"].fields
    && response.body.value.fields["choices"].items[0].fields["message"].fields["content"] == c
  }

  /** Any status but exactly 200, other 2xx included, and nothing else, is
      "unable to retrieve ... at this time". */
  lemma RetrieveIffNot200(response: HttpOutcome)
    ensures AnalyzeImage(response).value == Failure(MsgRetrieve) <==>
      response.Response? && response.status != 200
  {
  }

  /** Exceptions all end in the same message: a transport failure, a body that
      is not JSON, an empty "choices" list. */
  lemma ExceptionsGiveGenericError(response: HttpOutcome)
    requires
      || response.TransportFailure?
      || (response.Response? && response.status == 200 && response.body.None?)
      || (response.Response? && response.status == 200 && response.body.Some?
          && response.body.value.JObj? && "choices" in response.body.value.fields
          && response.body.value.fields["choices"] == JArr([]))
    ensures AnalyzeImage(response).value == Failure(MsgDueToError)
  {
  }

  /** A missing "choices", "message" or "content" falls back to `{}`, which
      has neither "error" nor "plants": "no suitable plants". */
  lemma MissingContentMeansNoPlants(response: HttpOutcome)
    requires response.Response? && response.status == 200
    requires response.body.Some? && response.body.value.JObj?
    requires var d := response.body.value.fields;
      || "choices" !in d
      || (d["choices"].JArr? && |d["choices"].items| > 0 && d["choices"].items[0].JObj?
          && "message" !in d["choices"].items[0].fields)
      || (d["choices"].JArr? && |d["choices"].items| > 0 && d["choices"].items[0].JObj?
          && "message" in d["choices"].items[0].fields
          && d["choices"].items[0].fields["message"].JObj?
          && "content" !in d["choices"].items[0].fields["message"].fields)
    ensures AnalyzeImage(response).value == Failure(MsgNoPlants)
  {
  }

  /** How the content is classified. For an object, any "error" key at all
      (even `null`) asks for clearer images, and success needs no "error" key
      and truthy "plants", returned unchanged. For a string, `'error' in` is a
      substring test; a string without "error" fails at `.get`. */
  lemma ClassifyContent(response: HttpOutcome, c: Json)
    requires DeliversContent(response, c)
    ensures c.JObj? ==>
      (AnalyzeImage(response).value == Failure(MsgClearerImages) <==> "error" in c.fields)
    ensures c.JObj? && "error" !in c.fields ==>
      (AnalyzeImage(response).value.error == JStr("null") <==> "plants" in c.fields && Truthy(c.fields["plants"]))
    ensures c.JObj? && "error" !in c.fields && !("plants" in c.fields && Truthy(c.fields["plants"])) ==>
      AnalyzeImage(response).value == Failure(MsgNoPlants)
    ensures AnalyzeImage(response).value.error == JStr("null") ==>
      c.JObj? && "plants" in c.fields && AnalyzeImage(response).value.plants == c.fields["plants"]
    ensures c.JStr? ==>
      AnalyzeImage(response).value ==
        Failure(if IsSubstring("error", c.s) then MsgClearerImages else MsgDueToError)
    ensures c.JArr? ==>
      AnalyzeImage(response).value ==
        Failure(if JStr("error") in c.items then MsgClearerImages else MsgDueToError)
    ensures c.JNull? || c.JNum? || c.JBool? ==>
      AnalyzeImage(response).value == Failure(MsgDueToError)
  {
  }

  /** The shape the prompt itself documents as success is classified as a bad
      image, because its "error" key is present (with value null). */
  lemma DocumentedSuccessIsBadImage(response: HttpOutcome, plants: seq<Json>)
    requires DeliversContent(response, JObj(map["plants" := JArr(plants), "error" := JNull]))
    ensures AnalyzeImage(response).value == Failure(MsgClearerImages)
  {
    ClassifyContent(response, JObj(map["plants" := JArr(plants), "error" := JNull]));
  }

  /** With the corrected test, an object's "error" entry asks for clearer
      images exactly when it is "badImage", and the documented success shape
      succeeds with its plants. */
  lemma CorrectedClassifiesContent(response: HttpOutcome, c: Json)
    requires DeliversContent(response, c) && c.JObj?
    ensures AnalyzeImageCorrected(response).value == Failure(MsgClearerImages) <==>
      "error" in c.fields && c.fields["error"] == JStr("badImage")
    ensures AnalyzeImageCorrected(response).value.error == JStr("null") <==>
      !("error" in c.fields && c.fields["error"] == JStr("badImage"))
      && "plants" in c.fields && Truthy(c.fields["plants"])
    ensures AnalyzeImageCorrected(response).value.error == JStr("null") ==>
      AnalyzeImageCorrected(response).value.plants == c.fields["plants"]
  {
  }

  lemma CorrectedAcceptsDocumentedSuccess(response: HttpOutcome, plants: seq<Json>)
    requires |plants| > 0
    requires DeliversContent(response, JObj(map["plants" := JArr(plants), "error" := JNull]))
    ensures AnalyzeImageCorrected(response).value == Analysis(JStr("null"), JArr(plants))
  {
    CorrectedClassifiesContent(response, JObj(map["plants" := JArr(plants), "error" := JNull]));
  }
}
