/** `main.py`: the reply `FlowerBot.handle_photo` sends for a photo, given
    what `upload_file` and `analyze_image` return. Downloading the photo,
    Telegram's send calls and the temporary file are left out; whether
    `public/default.png` exists is an input, since it only chooses between
    sending the text as a photo caption or as a plain message.
 */
module Bot {
  import opened PyJson
  import opened PyText
  import opened Metis
  import Model
  import SessionFlow

  const UploadFailedText := "❌ متأسفانه در آپلود تصویر مشکلی پیش آمده\n🙏 لطفاً دوباره تلاش کنید"
  const ErrorText := "❌ متأسفانه خطایی رخ داده\n🙏 لطفاً دوباره تلاش کنید"

  /** `"\n\n" + "➖" * 20`, which every plant list starts with. */
  const Header := "\n\n" + Repeat("➖", 20)

  const CaptionTitle := "🪴 اطلاعات گیاه پیشنهادی:\n"
  const ScientificLabel := "📚 نام علمی: "
  const FarsiLabel := "🌿 نام فارسی: "
  const DescriptionLabel := "📝 توضیحات: "

  /** Python's `str(v)` inside an f-string. Strings, `None`, booleans and
      integers are written out; the text of a list or an object depends on
      key order, which `Json` does not keep, so it is the parameter `show`. */
  function Str(v: Json, show: Json -> string): string
  {
    match v
    case JStr(s) => s
    case JNull => "None"
    case JBool(b) => if b then "True" else "False"
    case JNum(n) => IntToString(n)
    case _ => show(v)
  }

  /** The caption of one plant entry: `item['scientificName']`,
      `item['persianCommonName']` and `item['description']` in that order,
      each of which raises when missing. */
  function Caption(item: Json, show: Json -> string): Py<string>
  {
    var scientific :- GetItem(item, "scientificName");
    var farsi :- GetItem(item, "persianCommonName");
    var description :- GetItem(item, "description");
    Ok(CaptionTitle + ScientificLabel + Str(scientific, show)
       + ("\n" + FarsiLabel + Str(farsi, show)
          + ("\n" + DescriptionLabel + Str(description, show))))
  }

  /** An entry holds all three keys the caption reads. */
  predicate IsCompleteEntry(item: Json) {
    item.JObj? && "scientificName" in item.fields && "persianCommonName" in item.fields
    && "description" in item.fields
  }

  /** The `for item in plants_info['plants']` loop over a list: one caption
      per entry, in list order, or the first entry's exception. */
  function CaptionsOfItems(items: seq<Json>, show: Json -> string): (r: Py<seq<string>>)
    ensures r.Ok? <==> forall i :: 0 <= i < |items| ==> IsCompleteEntry(items[i])
    ensures r.Ok? ==> |r.value| == |items|
    ensures r.Ok? ==> forall i :: 0 <= i < |items| ==> Caption(items[i], show) == Ok(r.value[i])
    decreases |items|
  {
    if |items| == 0 then Ok([])
    else
      var first :- Caption(items[0], show);
      var rest :- CaptionsOfItems(items[1..], show);
      Ok([first] + rest)
  }

  /** The same loop over whatever "plants" holds. Iterating an object yields
      its string keys and iterating a string its characters, and
      `key['scientificName']` raises `TypeError`; so only empty ones pass.
      `None`, booleans and numbers are not iterable. */
  function CaptionsOf(plants: Json, show: Json -> string): (r: Py<seq<string>>)
    ensures r.Ok? <==>
      || (plants.JArr? && forall i :: 0 <= i < |plants.items| ==> IsCompleteEntry(plants.items[i]))
      || plants == JObj(map[]) || plants == JStr("")
    ensures r.Ok? && !plants.JArr? ==> r.value == []
  {
    match plants
    case JArr(items) => CaptionsOfItems(items, show)
    case JObj(m) => if |m| == 0 then Ok([]) else Raise(TypeError)
    case JStr(s) => if |s| == 0 then Ok([]) else Raise(TypeError)
    case _ => Raise(TypeError)
  }

  /** `reply_photo(caption=...)` when `default.png` exists, else `reply_text(...)`. */
  datatype Reply = Text(text: string) | Photo(caption: string) {
    function Body(): string {
      match this
      case Text(t) => t
      case Photo(c) => c
    }
  }

  /** The reply sent, and whether `analyze_image` was called on the way. */
  datatype PhotoHandled = PhotoHandled(reply: Reply, analyzed: bool)

  /** `handle_photo`, from the upload's outcome on. The analysis result's
      "error" is never read: only its "plants" decide the reply. */
  function HandlePhoto(uploaded: Py<Json>, analyze: Json -> Analysis, defaultImageExists: bool,
                       show: Json -> string): (r: PhotoHandled)
    ensures r.analyzed <==> uploaded.Ok? && Truthy(uploaded.value)
    ensures uploaded.Raise? ==> r.reply == Text(ErrorText)
    ensures uploaded.Ok? && !Truthy(uploaded.value) ==> r.reply == Text(UploadFailedText)
    ensures r.analyzed ==>
      match CaptionsOf(analyze(uploaded.value).plants, show)
      case Raise(_) => r.reply == Text(ErrorText)
      case Ok(captions) =>
        && r.reply.Body() == Header + Join(captions, "\n\n")
        && r.reply.Photo? == defaultImageExists
  {
    match uploaded
    // upload_file's escaping exception lands in the same `except Exception`
    case Raise(_) => PhotoHandled(Text(ErrorText), false)
    case Ok(url) =>
      if !Truthy(url) then PhotoHandled(Text(UploadFailedText), false)
      else
        var info := analyze(url);
        match CaptionsOf(info.plants, show)
        case Raise(_) => PhotoHandled(Text(ErrorText), true)
        case Ok(captions) =>
          var body := Header + Join(captions, "\n\n");
          PhotoHandled(if defaultImageExists then Photo(body) else Text(body), true)
  }

  /** An empty upload result is answered with the upload-failure message and
      the analyser is never consulted: any two analysers give the same reply. */
  lemma UploadFailureShortCircuits(uploaded: Py<Json>, a1: Json -> Analysis, a2: Json -> Analysis,
                                   image: bool, show: Json -> string)
    requires uploaded.Ok? && !Truthy(uploaded.value)
    ensures HandlePhoto(uploaded, a1, image, show) == HandlePhoto(uploaded, a2, image, show)
    ensures HandlePhoto(uploaded, a1, image, show) == PhotoHandled(Text(UploadFailedText), false)
  {
  }

  /** An upload of a file that does not exist ends at the upload-failure
      message, whatever the network would have answered. */
  lemma MissingFileReply(transport: HttpOutcome, analyze: Json -> Analysis, image: bool, show: Json -> string)
    ensures HandlePhoto(Model.UploadFile(Model.Missing, transport), analyze, image, show) ==
      PhotoHandled(Text(UploadFailedText), false)
  {
  }

  /** The "error" entry is never read: analysers that agree on "plants" give
      the same reply. */
  lemma ErrorFieldIsIgnored(uploaded: Py<Json>, a1: Json -> Analysis, a2: Json -> Analysis,
                            image: bool, show: Json -> string)
    requires uploaded.Ok? ==> a1(uploaded.value).plants == a2(uploaded.value).plants
    ensures HandlePhoto(uploaded, a1, image, show) == HandlePhoto(uploaded, a2, image, show)
  {
  }

  /** Every failure of `model.py`'s analyser carries no plants, so the reply
      is the divider header alone. */
  lemma AnalysisFailureGivesBareHeader(url: Json, session: HttpOutcome, message: HttpOutcome,
                                       parse: string -> Option<Json>, image: bool, show: Json -> string)
    requires Truthy(url)
    requires Model.AnalyzeImage(session, message, parse).value.error != JNull
    ensures var analyze := (u: Json) => Model.AnalyzeImage(session, message, parse).value;
      HandlePhoto(Ok(url), analyze, image, show).reply.Body() == Header
  {
    var analyze := (u: Json) => Model.AnalyzeImage(session, message, parse).value;
    assert analyze(url).plants == JArr([]);
    assert CaptionsOf(analyze(url).plants, show) == Ok([]);
  }

  /** The photo and the text branch carry the same text. */
  lemma SameBodyEitherWay(uploaded: Py<Json>, analyze: Json -> Analysis, show: Json -> string)
    ensures HandlePhoto(uploaded, analyze, true, show).reply.Body() ==
      HandlePhoto(uploaded, analyze, false, show).reply.Body()
  {
  }

  /** A plant entry missing one of the three keys turns the whole reply into
      the generic error message. */
  lemma IncompleteEntryGivesError(url: Json, analyze: Json -> Analysis, image: bool, show: Json -> string, i: int)
    requires Truthy(url)
    requires analyze(url).plants.JArr?
    requires 0 <= i < |analyze(url).plants.items| && !IsCompleteEntry(analyze(url).plants.items[i])
    ensures HandlePhoto(Ok(url), analyze, image, show) == PhotoHandled(Text(ErrorText), true)
  {
  }

  /** In `c == p1 + s1 + (p2 + s2 + (p3 + s3))` each `s` occurs, and `c` ends with `s3`. */
  lemma FieldsEmbedded(c: string, p1: string, s1: string, p2: string, s2: string, p3: string, s3: string)
    requires c == p1 + s1 + (p2 + s2 + (p3 + s3))
    ensures IsSubstring(s1, c) && IsSubstring(s2, c) && IsSubstring(s3, c)
    ensures EndsWith(c, s3)
  {
    var tail := p3 + s3;
    var rest := p2 + s2 + tail;
    OccursAfter(p1, s1, rest);
    OccursAfter(p2, s2, tail);
    OccursShifted(p1 + s1, s2, rest, |p2|);
    assert OccursAt(s3, tail, |p3|);
    OccursShifted(p2 + s2, s3, tail, |p3|);
    OccursShifted(p1 + s1, s3, rest, |p2 + s2| + |p3|);
  }

  /** Each caption carries `str()` of the entry's three fields, in order,
      whatever JSON values they hold, and ends with the description. */
  lemma CaptionEmbedsFields(item: Json, show: Json -> string)
    requires IsCompleteEntry(item)
    ensures Caption(item, show).Ok?
    ensures var c := Caption(item, show).value;
      && IsSubstring(Str(item.fields["scientificName"], show), c)
      && IsSubstring(Str(item.fields["persianCommonName"], show), c)
      && IsSubstring(Str(item.fields["description"], show), c)
      && EndsWith(c, Str(item.fields["description"], show))
  {
    FieldsEmbedded(Caption(item, show).value,
                   CaptionTitle + ScientificLabel, Str(item.fields["scientificName"], show),
                   "\n" + FarsiLabel, Str(item.fields["persianCommonName"], show),
                   "\n" + DescriptionLabel, Str(item.fields["description"], show));
  }

  /** The first caption follows the dividers with no blank line, a single
      caption is the whole body, and each further caption is added after a
      blank line. */
  lemma BodyLayout(captions: seq<string>, next: string)
    requires |captions| > 0
    ensures StartsWith(Header + Join(captions, "\n\n"), Header + captions[0])
    ensures |captions| == 1 ==> Header + Join(captions, "\n\n") == Header + captions[0]
    ensures Header + Join(captions + [next], "\n\n") == Header + Join(captions, "\n\n") + "\n\n" + next
  {
    JoinAfter(Header, captions, next, "\n\n");
  }

  /** The reply format the prompt asks for, `{"plants": [...], "error": null}`
      with a non-empty list, ends as the bare divider with `model.py`'s
      analyser: the list reaches `json.loads` and the analysis fails. */
  lemma DocumentedReplyAsWritten(url: Json, session: HttpOutcome, message: HttpOutcome,
                                 parse: string -> Option<Json>, items: seq<Json>, image: bool, show: Json -> string)
    requires Truthy(url) && SessionFlow.SessionOpened(session) && |items| > 0
    requires SessionFlow.ReplyDecodesTo(message, parse, JObj(map["plants" := JArr(items), "error" := JNull]))
    ensures var analyze := (u: Json) => Model.AnalyzeImage(session, message, parse).value;
      HandlePhoto(Ok(url), analyze, image, show).reply.Body() == Header
  {
    Model.PlantsArrayIsUnexpected(session, message, parse, JObj(map["plants" := JArr(items), "error" := JNull]));
    AnalysisFailureGivesBareHeader(url, session, message, parse, image, show);
  }

  /** A list of complete entries is answered with one caption per entry, in
      list order, after the divider. */
  lemma CompleteListGivesCaptions(url: Json, analyze: Json -> Analysis, items: seq<Json>,
                                  image: bool, show: Json -> string)
    requires Truthy(url) && analyze(url).plants == JArr(items)
    requires forall i :: 0 <= i < |items| ==> IsCompleteEntry(items[i])
    ensures CaptionsOfItems(items, show).Ok?
    ensures HandlePhoto(Ok(url), analyze, image, show) ==
      var body := Header + Join(CaptionsOfItems(items, show).value, "\n\n");
      PhotoHandled(if image then Photo(body) else Text(body), true)
  {
    assert CaptionsOf(analyze(url).plants, show) == CaptionsOfItems(items, show);
  }

  /** With the corrected analyser the same reply yields one caption per plant,
      in list order, after the divider. */
  lemma DocumentedReplyCorrected(url: Json, session: HttpOutcome, message: HttpOutcome,
                                 parse: string -> Option<Json>, items: seq<Json>, image: bool, show: Json -> string)
    requires Truthy(url) && SessionFlow.SessionOpened(session) && |items| > 0
    requires forall i :: 0 <= i < |items| ==> IsCompleteEntry(items[i])
    requires SessionFlow.ReplyDecodesTo(message, parse, JObj(map["plants" := JArr(items), "error" := JNull]))
    ensures CaptionsOfItems(items, show).Ok?
    ensures var analyze := (u: Json) => Model.AnalyzeImageCorrected(session, message, parse).value;
      HandlePhoto(Ok(url), analyze, image, show) ==
        var body := Header + Join(CaptionsOfItems(items, show).value, "\n\n");
        PhotoHandled(if image then Photo(body) else Text(body), true)
  {
    Model.CorrectedAcceptsDocumentedReply(session, message, parse, items);
    var analyze := (u: Json) => Model.AnalyzeImageCorrected(session, message, parse).value;
    CompleteListGivesCaptions(url, analyze, items, image, show);
  }
}
