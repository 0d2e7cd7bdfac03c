# Smart Flora bot: the decision logic, in Dafny

The Smart Flora Telegram bot asks a user to pick an Iranian city and to send a
photo of a space. It uploads the photo to Metis storage and asks the Metis chat
service which indoor plants fit that space. Then it replies with one caption
per suggested plant. This project models the parts of the bot that make
decisions. Each is written as a pure Dafny function over explicit inputs:

- `MetisUploader.upload_file`, in `model.py` and in `upload.spec.py`. This is
  the choice between the uploaded file's URL, the empty string, and an
  exception that escapes.
- The three `analyze_image` variants, in `model.py`, `suggestion.spec.py` and
  `chat.spec.py`. Each one turns the service's answer into
  `{"error": ..., "plants": ...}`. The model keeps the exact Python semantics
  of truthiness, `in`, `[]` and `.get` on every JSON shape, and it keeps the
  exceptions that those operations raise, which the `except` clauses then
  map to messages.
- `city.py`: the 20-entry English/Farsi city table and its two lookups,
  `paginate`, the picker keyboards, and the routing of `select_city:` and
  `city_page:` callbacks.
- `main.py`'s `handle_photo`, from the upload result to the text that is sent.

Network calls are inputs. `HttpOutcome` is either a transport failure or a
status code with a body that did or did not decode as JSON. The JSON text
grammar is the parameter `parse: string -> Option<Json>`, which stands for
`json.loads` on a string. A Python exception is the `Raise` case of `Py<T>`.
The model follows requests 2.27 and later, where a `.json()` decode failure is
a `RequestException`. `raise_for_status` raises for statuses 400 to 599.

Modules: `PyJson` (JSON values and Python's operations on them), `PyText`
(`int()`, `str(int)`, `split`, `join`, slicing, string repetition), `Metis`
(HTTP outcomes and the analysis result), `SessionFlow` (the steps shared by the
two session-based analysers), `Model`, `SuggestionSpec`, `ChatSpec`,
`UploadSpec`, `City` and `Bot`.

### Behaviour of the code worth knowing

- A reply that decodes to a non-empty string is answered "Please provide
  clearer images of your space." and is never parsed again (model.py:142-146,
  suggestion.spec.py:97-101). An empty string is falsy, so the `or` at
  model.py:142 replaces it and the answer is "No suitable plants found...".
  `chat.spec.py` never decodes the content at all.
- Nothing filters the plants list. `handle_photo` indexes each entry
  (main.py:67-73), so one entry that lacks a field turns the whole reply into
  the generic error message (main.py:87-92).
- `handle_photo` never reads `"error"`. A failed analysis has an empty list,
  so the user receives only the divider line (main.py:63-85).
- The `chat.spec.py` analyser marks success with the four-letter string
  `"null"`, not with `None` (chat.spec.py:82).
- A 200 upload reply without `files[0].url` raises `KeyError`, `IndexError` or
  `TypeError` at model.py:52. Only `RequestException` is caught
  (model.py:62-64), so the exception escapes `upload_file`, and
  `handle_photo` sends its generic error message.

## Model

| member | source | states |
|---|---|---|
| PyJson.GetItem | model.py:116 | `v[key]` succeeds exactly on an object holding the key and returns its value; otherwise it raises `KeyError` or `TypeError` |
| PyJson.First | model.py:52 | `v[0]` succeeds exactly on a non-empty list or a non-empty string and yields its first element or first character; an empty list or string raises `IndexError`, an object `KeyError`, anything else `TypeError` |
| PyJson.Contains | model.py:145 | `key in v` is defined exactly for objects, lists and strings, and is true exactly for a key of the object, an element of the list, or a substring of the string; anything else raises `TypeError` |
| PyJson.Get | suggestion.spec.py:70 | `.get(key, default)` exists only on objects (otherwise `AttributeError`); it returns the bound value, or the default when the key is absent |
| PyJson.Loads | model.py:142 | `json.loads` succeeds exactly on a string that parses; a non-string raises `TypeError`, unparsable text raises `JSONDecodeError` |
| PyText.ParseInt | city.py:82 | `int(s)` succeeds exactly on an optionally signed run of ASCII digits; the result has the sign the text shows and the decimal value of its digits, leading zeros included (`"007"` is 7, `"-0"` is 0); otherwise `ValueError` |
| PyText.ParseIntRoundTrip | city.py:82 | the page number written into a `city_page:` callback by the f-string is read back by `int()` unchanged, negative numbers included |
| PyText.Split | city.py:82 | `split(":")` yields at least one part and no part contains the separator |
| PyText.JoinSplit | city.py:82 | joining the parts of a split with the separator gives back the original text |
| PyText.SplitAtFirst | city.py:96 | a separator-free head followed by the separator is the first part, and the rest splits on its own |
| PyText.SplitWithoutSeparator | city.py:96 | text without the separator splits into itself alone |
| PyText.Repeat | main.py:82 | `"➖" * 20` has twenty times the length of the string, and a non-positive count gives the empty string |
| PyText.Slice | city.py:55-58 | Python slicing with non-negative bounds clamps both bounds to the length |
| Metis.CheckedJson | model.py:114-116 | `raise_for_status()` then `.json()` succeed exactly when the call completed with a status outside 400-599 and a JSON body, and then yield that body; every failure is a `RequestException` |
| SessionFlow.OrNoPlant | model.py:142 | `x or {'error': 'noPlant', 'plants': []}` is always truthy and keeps a truthy value as it is |
| SessionFlow.Validate | model.py:145-148 | only a string or an object passes validation; a string or an object whose "error" is "badImage" asks for clearer images; an object without truthy "plants" means no plants; a success carries the truthy "plants" value; lists raise `TypeError` or `AttributeError`, and other scalars raise `TypeError` |
| SessionFlow.ReadReply | model.py:137-148 | a failed message call raises a `RequestException`; once the call succeeded, no later failure is a `RequestException` |
| SessionFlow.Recover | model.py:152-157 | an attempt that returns is passed on unchanged; an exception always becomes one of the failure messages with no plants, and the message is "Unable to retrieve plant recommendations at this time." exactly when the exception is a `RequestException` and "An unexpected error occurred during processing." exactly when it is not |
| Model.UploadFile | model.py:31-64 | a missing file gives `""`, and so does a readable file whose call did not come back 200 with JSON; a truthy result is always the first file's "url" from a 200 reply; a well-formed 200 reply gives its URL, or `""` when that URL is falsy; a 200 reply without `files[0].url` raises; only `open()` and malformed 200 replies let an exception escape |
| Model.AnalyzeImage | model.py:112-157 | never raises; the error is `None` or one of the five failure messages; every failure carries an empty plants list |
| Model.AnalyzeImageCorrected | model.py:150 | the same outcome set as the code, and a success always carries a truthy plants value |
| Model.RetrieveIffRequestFailed | model.py:152-154 | "unable to retrieve" happens exactly when the session call failed, or when the session opened and the message call failed |
| Model.NoSessionIffFalsyId | model.py:116-119 | "Unable to initiate Metis session." happens exactly when the session body is an object whose "id" is present and falsy |
| Model.MissingIdIsUnexpected | model.py:116 | a session body without "id" is an unexpected error, not "no session" |
| Model.UndecodableReplyIsUnexpected | model.py:139-142 | a reply whose "content" is missing, is not a string, or does not parse is an unexpected error |
| Model.ClassifyDecodedReply | model.py:142-150 | for a reply that decodes to `v`: clearer images iff `v` is a non-empty string or a "badImage" object; no plants iff `v` is falsy or an object without truthy "plants"; success iff "plants" is a string that parses again, and the plants returned are what it parses to |
| Model.PlantsArrayIsUnexpected | model.py:150 | a reply whose "plants" is a non-empty JSON array, which is the format the prompt asks for, is an unexpected error |
| Model.NonObjectReplyIsUnexpected | model.py:145-147 | a truthy list, number or `true` as the reply is an unexpected error |
| Model.CorrectedClassifiesDecodedReply | model.py:145-150 | with the plants returned as decoded, success happens iff the reply is an object without the "badImage" flag and with truthy "plants", which it returns unchanged; "clearer images" and "no plants" occur exactly as in the code |
| Model.CorrectedAcceptsDocumentedReply | model.py:145-150 | with the correction, `{"plants": [...], "error": null}` with a non-empty list succeeds with exactly that list |
| SuggestionSpec.AnalyzeImage | suggestion.spec.py:65-112 | never raises; the error is `None` or one of the five failure messages; failures carry no plants and a success carries a truthy plants value |
| SuggestionSpec.RetrieveIffRequestFailed | suggestion.spec.py:107-109 | "unable to retrieve" happens exactly when the session call failed, or when the session opened and the message call failed |
| SuggestionSpec.NoSessionIffMissingOrFalsyId | suggestion.spec.py:70-73 | "no session" happens exactly when the session body is an object whose "id" is absent or falsy |
| SuggestionSpec.NonObjectSessionIsUnexpected | suggestion.spec.py:70 | a session body that is not an object is an unexpected error |
| SuggestionSpec.UndecodableReplyIsUnexpected | suggestion.spec.py:94-97 | a reply whose "content" is missing, is not a string, or does not parse is an unexpected error |
| SuggestionSpec.ClassifyDecodedReply | suggestion.spec.py:97-105 | for a reply that decodes to `v`: clearer images iff `v` is a non-empty string or a "badImage" object; success iff `v` is an object without that flag and with truthy "plants", which are returned unchanged; unexpected iff `v` is a truthy list, number or boolean |
| SuggestionSpec.IncompleteEntryPassesThrough | suggestion.spec.py:105 | any non-empty plants list, whatever its entries hold (entries without "description" included), is returned exactly as received, not filtered |
| ChatSpec.AnalyzeImage | chat.spec.py:65-89 | never raises; the error is the string "null" or one of four failure messages; failures carry no plants and success carries truthy plants |
| ChatSpec.AnalyzeImageCorrected | chat.spec.py:76 | with only `get('error') == "badImage"` as the bad-image test: the same outcome set and the same guarantees |
| ChatSpec.RetrieveIffNot200 | chat.spec.py:70-85 | "unable to retrieve ... at this time" happens exactly when a response arrived with a status other than 200 (other 2xx included) |
| ChatSpec.ExceptionsGiveGenericError | chat.spec.py:87-89 | a transport failure, a body that is not JSON, or an empty "choices" list all give the generic error |
| ChatSpec.MissingContentMeansNoPlants | chat.spec.py:73-79 | a missing "choices", "message" or "content" falls back to `{}` and gives "no suitable plants" |
| ChatSpec.ClassifyContent | chat.spec.py:73-82 | for object content: clearer images iff any "error" key is present; otherwise success iff "plants" is truthy, and the plants are returned unchanged; string content is a substring test for "error" and otherwise fails at `.get`; list content is an element test; other scalars fail |
| ChatSpec.DocumentedSuccessIsBadImage | chat.spec.py:76-77 | content `{"plants": [...], "error": null}`, the shape the prompt asks for, is answered with "Please provide clearer images" |
| ChatSpec.CorrectedClassifiesContent | chat.spec.py:76-82 | with the corrected test, clearer images iff "error" is "badImage"; success iff it is not and "plants" is truthy, with the plants unchanged |
| ChatSpec.CorrectedAcceptsDocumentedSuccess | chat.spec.py:76-82 | with the corrected test, the documented shape with a non-empty list succeeds with exactly that list |
| UploadSpec.MissingFileMakesNoRequest | upload.spec.py:26-28 | a missing path gives `""` whatever the network would have answered |
| UploadSpec.OnlyStatus200IsAccepted | upload.spec.py:45-58 | every status other than 200 gives `""`, even with a body naming a URL |
| UploadSpec.MalformedReplyEscapes | upload.spec.py:46-62 | a 200 reply without "files" raises `KeyError`, one with an empty "files" raises `IndexError`, and a first file without "url" raises `KeyError`; none of these is caught |
| UploadSpec.RequestExceptionGivesEmpty | upload.spec.py:60-62 | a transport failure and a 200 body that is not JSON both give `""` |
| City.Lookup | city.py:38 | a dict built from pairs has the key iff some pair has it, and the value found is paired with the key in the input |
| City.LookupFindsLast | city.py:38 | the value a dict lookup finds comes from the last pair with that key |
| City.SwapReverses | city.py:38 | the reversed dict binds a Farsi name exactly when some row holds it, and binds it to the English name of the last such row |
| City.FarsiNames | city.py:64 | `list(city_names.values())` holds exactly the Farsi names of the table, one per row, in table order |
| City.GetFarsiName | city.py:43-47 | succeeds exactly on an English name of the table and returns its Farsi partner; otherwise raises `CityNotFoundError("City '<name>' not found.")` |
| City.GetEnName | city.py:37-41 | succeeds exactly on a Farsi name of the table and returns its English partner; otherwise raises `CityNotFoundError` with the Farsi "not found" text |
| City.LookupDistinct | city.py:38-41 | with distinct keys, the dict lookup finds the single binding of each pair |
| City.EnglishNamesDistinct | city.py:14-35 | the twenty English names are pairwise distinct |
| City.FarsiNamesDistinct | city.py:14-35 | the twenty Farsi names are pairwise distinct, so the reversed dict loses nothing |
| City.FarsiNamesHaveNoColon | city.py:14-35 | no Farsi name contains ':', so `split(":")[1]` recovers it from its callback |
| City.TableLookups | city.py:37-47 | every row of the table is found by both lookups |
| City.FarsiRoundTrip | city.py:37-47 | `get_farsi_name(get_en_name(f)) == f` for every Farsi name of the table |
| City.EnglishRoundTrip | city.py:37-47 | `get_en_name(get_farsi_name(e)) == e` for every English name of the table |
| City.Paginate | city.py:55-58 | there is a next page iff more than `(page+1)*n` items exist; for a non-negative page, the page holds at most `n` items, exactly the ones from `page*n` on |
| City.PagesThroughIsPrefix | city.py:55-58 | pages 0 to k, concatenated, are the first `(k+1)*n` items |
| City.PagesCoverItems | city.py:55-58 | following the pages up to the first one with no next page reads every item once, in order |
| City.CityPages | city.py:64-69 | the 20 cities make two pages: page 0 has a "Next" and page 1 does not, and together they list every city |
| City.StartKeyboard | city.py:62-69 | the first keyboard shows the first ten cities in table order, then "Next" to page 1 |
| City.PageKeyboard | city.py:84-90 | a page keyboard shows the page's cities, then "Next" iff more cities follow, then "Previous" iff the page is above 0 |
| City.StartCitySelection | city.py:62-72 | the start message's keyboard is the keyboard of page 0, beginning with the first ten cities |
| City.PrefixedHasSecondField | city.py:81-82 | data that starts with a colon-free prefix and ':' always has a second field, so `[1]` never raises `IndexError` |
| City.HandleCitySelection | city.py:76-102 | data with neither prefix changes nothing; only a `select_city:` callback changes the user data, and then the stored city is a city of the table; the only exception is `ValueError` from a `city_page:` callback whose number `int()` rejects |
| City.SecondFieldOfSelect | city.py:96 | the name after `select_city:` comes back whole when it holds no ':' |
| City.SecondFieldOfPage | city.py:82 | the number after `city_page:` comes back as written |
| City.SelectingTableCity | city.py:95-100 | choosing a city button stores that city's English name and asks for a photo |
| City.SelectingKnownName | city.py:95-100 | a colon-free Farsi name that the reverse lookup maps to `en` stores `en` and asks for a photo |
| City.SelectingUnknownCity | city.py:101-102 | a colon-free Farsi name outside the table leaves the selection unchanged and shows the lookup's error text |
| City.TurningToPage | city.py:81-93 | a "Next" or "Previous" callback shows that page's keyboard and leaves the selection unchanged |
| City.StartButtonsAreHandled | city.py:67-69 | every button on the first keyboard is handled without raising; the button in row i shows the i-th Farsi name and choosing it stores the i-th English name |
| Bot.CaptionsOfItems | main.py:66-74 | the caption loop over a list succeeds iff every entry has all three keys, gives one caption per entry, and the i-th caption is entry i's |
| Bot.CaptionsOf | main.py:67 | iterating "plants" succeeds only for a list of complete entries, an empty object or an empty string, and the last two give no captions |
| Bot.HandlePhoto | main.py:45-92 | the analyser runs iff the upload returned a truthy URL; an upload exception gives the error text and an empty URL the upload-failure text; after analysis a caption failure gives the error text; otherwise the body is the divider followed by the captions joined by blank lines, sent as a photo caption iff the default image exists |
| Bot.UploadFailureShortCircuits | main.py:58-60 | after a failed upload the reply is the upload-failure text whatever the analyser would say |
| Bot.MissingFileReply | main.py:56-60 | a photo whose file is missing gets the upload-failure text |
| Bot.ErrorFieldIsIgnored | main.py:63-67 | two analysers that agree on "plants" give the same reply, whatever their "error" |
| Bot.AnalysisFailureGivesBareHeader | main.py:82-85 | every failure of `model.py`'s analyser is answered with the divider line alone |
| Bot.SameBodyEitherWay | main.py:78-85 | the photo caption and the plain text reply carry the same text |
| Bot.IncompleteEntryGivesError | main.py:67-92 | one plant entry missing a key turns the whole reply into the generic error text |
| Bot.CaptionEmbedsFields | main.py:68-73 | for every entry holding the three keys, whatever values they hold, the caption contains `str()` of the scientific name, the Farsi name and the description, and ends with `str()` of the description |
| Bot.BodyLayout | main.py:82 | for every non-empty list of captions, the body starts with the divider followed directly by the first caption, a single caption is the whole body after the divider, and each further caption is added after a blank line |
| Bot.DocumentedReplyAsWritten | main.py:63-85 | with `model.py`'s analyser, a reply in the prompt's own format reaches the user as the bare divider |
| Bot.CompleteListGivesCaptions | main.py:66-85 | an analysis whose plants are a list of complete entries is answered with one caption per entry, in order, after the divider |
| Bot.DocumentedReplyCorrected | main.py:63-85 | with the corrected analyser, a reply in the prompt's format reaches the user as one caption per plant |

## Left out

- HTTP, the `.env` settings and logging are not modelled. Every call is an
  `HttpOutcome` input, and a missing API key only stops construction, which
  is outside the modelled methods.
- The prompt texts and request payloads are not modelled, because they do
  not influence any decision.
- The JSON text grammar is not modelled; it is the `parse` parameter.
  Floating-point JSON numbers are out too: `JNum` holds integers.
- Telegram is not modelled: downloading the photo, send failures (for
  example a caption over Telegram's length limit), async, temp-file cleanup,
  `start_command` and `error_handler`. Whether `public/default.png` exists is
  an input.
- Bot.HandlePhoto: `str()` of a list or an object inside a caption is the
  parameter `show`, because `Json` objects carry no key order.
- PyText.ParseInt: only an optionally signed run of ASCII digits is accepted;
  the surrounding whitespace, `_` between digits and non-ASCII digits that
  Python's `int()` also allows are not, so a callback like `city_page: 1` is a
  `ValueError` in the model but page 1 in Python. The bot never generates
  such data.
- PyText.Repeat: the contract states the length of the result, not its
  characters.
- Requests versions before 2.27 are not modelled. There, a `.json()` decode
  failure is a plain `ValueError`; `upload_file` would then let it escape
  and the analysers would report an unexpected error.
- `session.spec.py`, `image_scraper.py`, `image-converter.py`, `iran_time.py`
  and `location.py` are not part of this model. The first is an exploratory
  script; the others are not on the photo path.
- The `upload.spec.py` uploader differs from the `model.py` one only in
  its endpoint and its form fields. Both decide by the same branches, so its
  lemmas are stated of `Model.UploadFile`.

## Findings

| source | as written | input that shows it | evidently intended | confidence | as-written member | corrected member |
|---|---|---|---|---|---|---|
| model.py:150 | the "plants" entry of the decoded reply goes through `json.loads` a second time | a reply whose content is `{"plants": [{"scientificName": ..., "persianCommonName": ..., "description": ...}], "error": null}`, the format the prompt at model.py:89-98 asks for; `json.loads` of a list raises `TypeError`, the reply becomes "An unexpected error occurred during processing.", and the user sees only the divider | return the plants list as decoded, as suggestion.spec.py:105 does | high; not executed | Model.PlantsArrayIsUnexpected | Model.CorrectedAcceptsDocumentedReply |
| chat.spec.py:76 | `'error' in plant_object` makes the presence of any "error" key a bad image | content `{"plants": [ ... ], "error": null}`, the shape the prompt at chat.spec.py:33-43 asks for, is answered with "Please provide clearer images of your space." | ask for clearer images only when "error" is "badImage" | high; not executed | ChatSpec.DocumentedSuccessIsBadImage | ChatSpec.CorrectedAcceptsDocumentedSuccess |

The corrected `model.py` analyser is what `Bot.DocumentedReplyCorrected`
builds on. With it, the documented reply reaches the user as captions. With
the code as written, `Bot.DocumentedReplyAsWritten` shows that the same reply
reaches the user as the bare divider.
