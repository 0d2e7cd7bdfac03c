/** `upload.spec.py`: a second `MetisUploader.upload_file` that posts to a
    different endpoint with different form fields but decides its result by
    the same branches as `model.py`, so its properties are stated of
    `Model.UploadFile`.
 */
module UploadSpec {
  import opened PyJson
  import opened Metis
  import opened Model

  /** A path that does not exist answers `""` whatever the network would have
      done: no request is made. */
  lemma MissingFileMakesNoRequest(t1: HttpOutcome, t2: HttpOutcome)
    ensures UploadFile(Missing, t1) == UploadFile(Missing, t2) == Ok(JStr(""))
  {
  }

  /** Only status 200 reads the body; 201, 204 and every other status give `""`
      even when the body names a URL. */
  lemma OnlyStatus200IsAccepted(status: int, body: Option<Json>)
    requires status != 200
    ensures UploadFile(Readable, Response(status, body)) == Ok(JStr(""))
  {
  }

  /** The exception a malformed 200 reply raises, and which escapes. */
  lemma MalformedReplyEscapes(data: Json)
    requires data.JObj?
    ensures "files" !in data.fields ==>
      UploadFile(Readable, Response(200, Some(data))) == Raise(KeyError)
    ensures "files" in data.fields && data.fields["files"] == JArr([]) ==>
      UploadFile(Readable, Response(200, Some(data))) == Raise(IndexError)
    ensures
      ("files" in data.fields && data.fields["files"].JArr? && |data.fields["files"].items| > 0
       && data.fields["files"].items[0].JObj? && "url" !in data.fields["files"].items[0].fields) ==>
      UploadFile(Readable, Response(200, Some(data))) == Raise(KeyError)
  {
  }

  /** A transport failure or a 200 body that is not JSON is a caught
      `RequestException`: `""`. */
  lemma RequestExceptionGivesEmpty()
    ensures UploadFile(Readable, TransportFailure) == Ok(JStr(""))
    ensures UploadFile(Readable, Response(200, None)) == Ok(JStr(""))
  {
  }
}
