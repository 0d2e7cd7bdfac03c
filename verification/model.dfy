/** `model.py`: `MetisUploader.upload_file` and `MetisSuggestion.analyze_image`,
    the pair `main.py` uses. The network calls are inputs (`HttpOutcome`) and
    the JSON text grammar is the parameter `parse`.
 */
module Model {
  import opened PyJson
  import opened Metis
  import opened SessionFlow

  /** What `os.path.exists` and `open(path, "rb")` find at the upload path. */
  datatype FileState = Missing | Unopenable | Readable

  /** `response_data['files'][0]['url']`. */
  function FileUrl(data: Json): Py<Json>
  {
    var files :- GetItem(data, "files");
    var first :- First(files);
    GetItem(first, "url")
  }

  /** The response body has the shape `{"files": [{"url": ...}, ...], ...}`. */
  predicate HasFileUrl(data: Json) {
    && data.JObj? && "files" in data.fields
    && data.fields["files"].JArr? && |data.fields["files"].items| > 0
    && data.fields["files"].items[0].JObj?
    && "url" in data.fields["files"].items[0].fields
  }

  /** The "url" entry of the first uploaded file. */
  function UrlOf(data: Json): Json
    requires HasFileUrl(data)
  {
    data.fields["files"].items[0].fields["url"]
  }

  /** The upload request came back 200 with a JSON body. */
  predicate Accepted(transport: HttpOutcome) {
    transport.Response? && transport.status == 200 && transport.body.Some?
  }

  /** `upload_file(path)`: the uploaded file's URL, `""` on every failure the
      method catches, or the exception that escapes it. Only
      `RequestException` is caught, so a 200 reply of the wrong shape raises. */
  function UploadFile(file: FileState, transport: HttpOutcome): (r: Py<Json>)
    // the empty string for a missing file, a refused request or a transport failure
    ensures file.Missing? ==> r == Ok(JStr(""))
    ensures file.Readable? && !Accepted(transport) ==> r == Ok(JStr(""))
    // a truthy result is always the URL the storage service sent; nothing is made up
    ensures r.Ok? && Truthy(r.value) ==>
      file.Readable? && Accepted(transport) && HasFileUrl(transport.body.value)
      && r.value == UrlOf(transport.body.value)
    // a well-formed 200 reply yields its URL unchanged, or "" when that URL is falsy
    ensures file.Readable? && Accepted(transport) && HasFileUrl(transport.body.value) ==>
      r == Ok(if Truthy(UrlOf(transport.body.value)) then UrlOf(transport.body.value) else JStr(""))
    // a 200 reply without files[0].url raises, and nothing catches it
    ensures file.Readable? && Accepted(transport) && !HasFileUrl(transport.body.value) ==>
      r.Raise? && r.exc in {KeyError, IndexError, TypeError}
    // a falsy result is the empty string
    ensures r.Ok? && !Truthy(r.value) ==> r.value == JStr("")
    // only open() failing and a malformed 200 reply escape
    ensures r.Raise? ==> (file.Unopenable? && r.exc == OSError) || (file.Readable? && Accepted(transport))
  {
    if file.Missing? then Ok(JStr(""))
    else if file.Unopenable? then Raise(OSError)
    else
      match transport
      case TransportFailure => Ok(JStr(""))
      case Response(status, body) =>
        if status != 200 then Ok(JStr(""))
        else
          match body
          // requests.exceptions.JSONDecodeError is a RequestException, caught here
          case None => Ok(JStr(""))
          case Some(data) =>
            var url :- FileUrl(data);
            if Truthy(url) then Ok(url) else Ok(JStr(""))
  }

  /** The `try` block of `analyze_image` (lines 114-150), up to the first
      exception, with the treatment of a truthy "plants" entry as a parameter. */
  function AttemptWith(session: HttpOutcome, message: HttpOutcome, parse: string -> Option<Json>,
                       finishPlants: Json -> Py<Json>): Py<Analysis>
  {
    var sessionBody :- CheckedJson(session);
    var sessionId :- GetItem(sessionBody, "id");
    if !Truthy(sessionId) then Ok(Failure(MsgNoSession))
    else
      var verdict :- ReadReply(message, parse);
      match verdict
      case BadImage => Ok(Failure(MsgClearerImages))
      case NoPlants => Ok(Failure(MsgNoPlants))
      case HasPlants(p) =>
        var plants :- finishPlants(p);
        Ok(Analysis(JNull, plants))
  }

  /** `analyze_image(image_url)` as written: the "plants" entry is decoded a
      second time with `json.loads`. Never raises, and every failure has no plants. */
  function AnalyzeImage(session: HttpOutcome, message: HttpOutcome, parse: string -> Option<Json>): (r: Py<Analysis>)
    ensures r.Ok?
    ensures r.value.error == JNull || IsSessionFailureMessage(r.value.error)
    ensures r.value.error != JNull ==> r.value.plants == JArr([])
  {
    Ok(Recover(AttemptWith(session, message, parse, p => Loads(parse, p))))
  }

  /** `analyze_image` with the "plants" entry returned as decoded, which is
      what the prompt's reply format calls for. */
  function AnalyzeImageCorrected(session: HttpOutcome, message: HttpOutcome, parse: string -> Option<Json>): (r: Py<Analysis>)
    ensures r.Ok?
    ensures r.value.error == JNull || IsSessionFailureMessage(r.value.error)
    ensures r.value.error != JNull ==> r.value.plants == JArr([])
    ensures r.value.error == JNull ==> Truthy(r.value.plants)
  {
    Ok(Recover(AttemptWith(session, message, parse, p => Ok(p))))
  }

  lemma RetrieveIffRequestFailed(session: HttpOutcome, message: HttpOutcome, parse: string -> Option<Json>)
    ensures AnalyzeImage(session, message, parse).value == Failure(MsgRetrieve) <==>
      !Succeeds(session) || (SessionOpened(session) && !Succeeds(message))
  {
  }

  lemma NoSessionIffFalsyId(session: HttpOutcome, message: HttpOutcome, parse: string -> Option<Json>)
    ensures AnalyzeImage(session, message, parse).value == Failure(MsgNoSession) <==>
      && Succeeds(session)
      && session.body.value.JObj?
      && "id" in session.body.value.fields
      && !Truthy(session.body.value.fields["id"])
  {
  }

  /** `session_response.json()['id']` raises when there is no "id", and that
      `KeyError` (or `TypeError` for a non-object body) is an unexpected error. */
  lemma MissingIdIsUnexpected(session: HttpOutcome, message: HttpOutcome, parse: string -> Option<Json>)
    requires Succeeds(session)
    requires !(session.body.value.JObj? && "id" in session.body.value.fields)
    ensures AnalyzeImage(session, message, parse).value == Failure(MsgUnexpected)
  {
  }

  lemma UndecodableReplyIsUnexpected(session: HttpOutcome, message: HttpOutcome, parse: string -> Option<Json>)
    requires SessionOpened(session) && ReplyUndecodable(message, parse)
    ensures AnalyzeImage(session, message, parse).value == Failure(MsgUnexpected)
  {
    ReadReplyUndecodable(message, parse);
  }

  /** Once the reply decodes to `v`, the result is decided by `v` alone:
      a falsy value is "no plants"; a non-empty string or a "badImage" object
      asks for clearer images whatever its plants; success needs "plants" to be
      a string that decodes again; every other shape is an unexpected error. */
  lemma ClassifyDecodedReply(session: HttpOutcome, message: HttpOutcome, parse: string -> Option<Json>, v: Json)
    requires SessionOpened(session) && ReplyDecodesTo(message, parse, v)
    ensures !Truthy(v) ==> AnalyzeImage(session, message, parse).value == Failure(MsgNoPlants)
    ensures AnalyzeImage(session, message, parse).value == Failure(MsgClearerImages) <==>
      Truthy(v) && (v.JStr? || FlagsBadImage(v))
    ensures AnalyzeImage(session, message, parse).value == Failure(MsgNoPlants) <==>
      !Truthy(v) || (v.JObj? && !FlagsBadImage(v) && !("plants" in v.fields && Truthy(v.fields["plants"])))
    ensures AnalyzeImage(session, message, parse).value.error == JNull <==>
      && v.JObj? && !FlagsBadImage(v)
      && "plants" in v.fields && v.fields["plants"].JStr? && Truthy(v.fields["plants"])
      && parse(v.fields["plants"].s).Some?
    ensures AnalyzeImage(session, message, parse).value.error == JNull ==>
      AnalyzeImage(session, message, parse).value.plants == parse(v.fields["plants"].s).value
  {
    ReadReplyDecoded(message, parse, v);
  }

  /** A reply whose "plants" is a real JSON array, as the prompt asks for,
      makes `json.loads(list)` raise `TypeError`: an unexpected error. */
  lemma PlantsArrayIsUnexpected(session: HttpOutcome, message: HttpOutcome, parse: string -> Option<Json>, v: Json)
    requires SessionOpened(session) && ReplyDecodesTo(message, parse, v)
    requires v.JObj? && !FlagsBadImage(v) && "plants" in v.fields
    requires v.fields["plants"].JArr? && |v.fields["plants"].items| > 0
    ensures AnalyzeImage(session, message, parse).value == Failure(MsgUnexpected)
  {
    ReadReplyDecoded(message, parse, v);
  }

  /** Truthy lists, numbers and `true` are not objects: the validation raises. */
  lemma NonObjectReplyIsUnexpected(session: HttpOutcome, message: HttpOutcome, parse: string -> Option<Json>, v: Json)
    requires SessionOpened(session) && ReplyDecodesTo(message, parse, v)
    requires Truthy(v) && (v.JArr? || v.JNum? || v.JBool?)
    ensures AnalyzeImage(session, message, parse).value == Failure(MsgUnexpected)
  {
    ReadReplyDecoded(message, parse, v);
  }

  /** The corrected analyser accepts the reply format the prompt documents:
      an object with a truthy "plants" entry and no "badImage" flag succeeds
      with that entry unchanged; the failure cases are those of the original. */
  lemma CorrectedClassifiesDecodedReply(session: HttpOutcome, message: HttpOutcome, parse: string -> Option<Json>, v: Json)
    requires SessionOpened(session) && ReplyDecodesTo(message, parse, v)
    ensures AnalyzeImageCorrected(session, message, parse).value.error == JNull <==>
      v.JObj? && !FlagsBadImage(v) && "plants" in v.fields && Truthy(v.fields["plants"])
    ensures AnalyzeImageCorrected(session, message, parse).value.error == JNull ==>
      AnalyzeImageCorrected(session, message, parse).value.plants == v.fields["plants"]
    ensures AnalyzeImageCorrected(session, message, parse).value == Failure(MsgClearerImages) <==>
      AnalyzeImage(session, message, parse).value == Failure(MsgClearerImages)
    ensures AnalyzeImageCorrected(session, message, parse).value == Failure(MsgNoPlants) <==>
      AnalyzeImage(session, message, parse).value == Failure(MsgNoPlants)
  {
    ReadReplyDecoded(message, parse, v);
  }

  /** The reply format the prompt documents, a non-empty plants list with a
      null "error", succeeds with the corrected analyser and carries the list. */
  lemma CorrectedAcceptsDocumentedReply(session: HttpOutcome, message: HttpOutcome,
                                        parse: string -> Option<Json>, items: seq<Json>)
    requires SessionOpened(session) && |items| > 0
    requires ReplyDecodesTo(message, parse, JObj(map["plants" := JArr(items), "error" := JNull]))
    ensures AnalyzeImageCorrected(session, message, parse).value == Analysis(JNull, JArr(items))
  {
    var v := JObj(map["plants" := JArr(items), "error" := JNull]);
    assert !FlagsBadImage(v);
    CorrectedClassifiesDecodedReply(session, message, parse, v);
  }
}
