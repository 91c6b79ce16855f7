# Voice XML builder — a Dafny model

This project models the voice-action builder of the Africa's Talking PHP SDK
(`src/Voice.php`). A `Voice` object collects call-control markup (Say, Play,
GetDigits, Dial, Record, Enqueue, Dequeue, Conference, Redirect, Reject) in one
buffer. Each chained call runs a renderer and stores its result there, and
`build()` reads the buffer back. The same object also routes three API
operations: placing a call, uploading a media file and fetching queued calls.

The model follows the code as it is written, defects included. Each
reproduced defect is marked with a comment where it is modelled:

- `stringBuilder` passes the whole argument list to the renderer.
- Failed results are stored in the buffer as well.
- Say's defaults are overwritten by the raw options.
- The play renderer is named `buildPay`. A chained `Play` is therefore an
  invalid method, and GetDigits' nested `buildPlay` call reaches `__call`
  under the name `buildPlay` and gets the invalid-method error for it.
- Dial's '+' test is inverted.
- Dial's ring-back check fails whenever the option is absent.
- Dial's callerId is always null.
- Dial writes no closing tag.
- Partial Record returns nothing.
- Enqueue's holdMusic attribute is always empty.

Modules:

- `Php` (php_values.dfy): PHP values and the built-ins the class relies on:
  `empty`, `isset`, array reads, string conversion, `is_numeric`, `strpos`,
  `explode`/`implode`, and the URL filter.
- `Dispatch` (dispatch.dfy): the closed set of renderer and operation names,
  and `__call`'s name resolution.
- `Renderers` (renderers.dfy): every `build*` renderer, `isValidURL`, and
  Dial's per-entry loop as a method.
- `Api` (api.dfy): the validation halves of `doCall`, `doUploadMediaFile` and
  `dofetchQueuedCalls`, and `apiCall`'s argument. Each ends in the request it
  would post.
- `VoiceBuilder` (voice.dfy): the `Voice` class with its `xmlString` buffer,
  `stringBuilder`, `build` and `__call`.
- `Scenarios` (scenarios.dfy): concrete scenarios of the model on fixed
  inputs.

The code is followed where the documented behaviour differs from it:

- The documented behaviour is that a failing action appends nothing. The code
  stores the failure: the error envelope itself when the buffer is empty, and
  its string form "Array" otherwise.
- Dial's markup has no closing `</Dial>` tag.
- Say's opening tag has a space before `>`.
- Chaining an action with an option map fails for every renderer that needs an
  option, because the renderer receives the argument list rather than the map.

## Model

| member | source | states |
|---|---|---|
| Php.Get | src/Voice.php:139-142 | an option read is non-null exactly when `isset` holds, and is then the stored value |
| Php.NatToDecimal | src/Voice.php:312 | integers print as non-empty decimal digit strings with no leading zero, one digit exactly below ten |
| Php.DecimalRoundTrip | src/Voice.php:312 | reading back a printed integer gives the integer |
| Php.Strpos | src/Voice.php:62 | `strpos` is false exactly when the character is absent, and otherwise is its first occurrence |
| Php.Explode | src/Voice.php:251 | `explode` gives at least one piece, no piece holds the separator, and joining the pieces gives the input back |
| Php.ExplodeImplode | src/Voice.php:251 | splitting numbers joined with the separator gives back exactly those numbers |
| Php.LeadingLetters | src/Voice.php:465 | the scheme prefix the URL filter looks at is the longest run of leading letters |
| Dispatch.Resolve | src/Voice.php:9-19 | a name resolves to the renderer of that name first, then to the operation of that name, and to nothing exactly when neither has that name |
| Dispatch.ResolveByName | src/Voice.php:12-15 | every renderer and every operation is reached by its own name |
| Dispatch.PlayIsUnresolved | src/Voice.php:161 | "Play" resolves to nothing, because the play renderer is named `buildPay` |
| Renderers.IsValidUrl | src/Voice.php:459-466 | only a string with URL syntax passes; empty values, numbers and arrays fail |
| Renderers.Attr | src/Voice.php:212-223 | an optional attribute is written exactly when its value is not empty |
| Renderers.SetAttr | src/Voice.php:413-416 | the `name` attribute is written exactly when the option is set |
| Renderers.AttrsAppend | src/Voice.php:298-314 | a run of attributes is written in list order |
| Renderers.AttrsEmpty | src/Voice.php:211-224 | a run of attributes writes nothing exactly when every value is empty |
| Renderers.AttrsSkipEmpty | src/Voice.php:299-313 | an empty option leaves no trace in the markup |
| Renderers.Response | src/Voice.php:317 | the Response wrapper yields markup that starts with a tag |
| Renderers.BuildSay | src/Voice.php:135-159 | Say fails exactly when `text` is missing, and otherwise writes voice, playBeep and text as given, with no defaults |
| Renderers.BuildPay | src/Voice.php:161-169 | Play succeeds exactly for a valid URL string and then writes `<Play url="…" />` |
| Renderers.BuildGetDigits | src/Voice.php:171-239 | errors in order (text, numDigits, timeout, callBackUrl); success exactly when all pass; attributes in order finishOnKey, timeout, numDigits, callBackUrl |
| Renderers.GetDigitsEndsWithCallback | src/Voice.php:202-224 | a successful GetDigits always ends its attributes with callBackUrl |
| Renderers.GetDigitsChildrenOfText | src/Voice.php:227-233 | with a string `text`, the Say child is an error envelope, and a `url` adds a second one |
| Renderers.CheckDialEntries | src/Voice.php:253-258 | the loop over the split numbers accepts exactly when every entry passes the per-entry test |
| Renderers.BuildDial | src/Voice.php:242-319 | errors in order (phoneNumbers, entry format, ringBackTone, maxDuration); success exactly when all pass; phoneNumbers then the optional attributes, inside Response |
| Renderers.DialRefusesLeadingPlus | src/Voice.php:253-256 | numbers that start with '+' are refused |
| Renderers.DialRefusesNumbersWithoutPlus | src/Voice.php:253-256 | numbers with no '+' at all are refused |
| Renderers.DialEntriesIndependent | src/Voice.php:251-258 | for comma-joined numbers, Dial's check passes exactly when each number passes on its own |
| Renderers.DialOmitsCallerId | src/Voice.php:284-288 | no callerId attribute is ever written |
| Renderers.BuildRecord | src/Voice.php:322-395 | empty options give the terminal Record; any other value never yields markup: an error for non-numeric maxLength or timeout or an invalid callBackUrl, otherwise null |
| Renderers.BuildEnqueue | src/Voice.php:397-421 | fails exactly when holdMusic is set but invalid; holdMusic is written with an empty value and name whenever set |
| Renderers.BuildDequeue | src/Voice.php:423-442 | fails exactly when phoneNumber is missing; otherwise writes phoneNumber, and name whenever set |
| Renderers.BuildRedirect | src/Voice.php:449-452 | Redirect never fails and writes its argument verbatim inside Response |
| Renderers.Render | src/Voice.php:444-457 | every result is an error, null or markup starting with a tag; Conference and Reject are constant |
| Php.StartsWithPlus | src/Voice.php:62-63 | the phone-number rule holds exactly when the value's first character is '+' |
| Api.DoCall | src/Voice.php:55-83 | missing to or from is refused first, then to, then from without a leading '+'; otherwise the request to "call" carries exactly username, to and from |
| Api.DoUploadMediaFile | src/Voice.php:85-111 | phoneNumber, then url must be set, then url must be valid; otherwise the request to "mediaUpload" carries exactly username, phoneNumber and url |
| Api.DoFetchQueuedCalls | src/Voice.php:113-133 | an empty number is refused, then one not starting with '+'; the request goes out exactly for a number with a leading '+' |
| Api.ApiArgument | src/Voice.php:34-40 | the operation gets the first argument, or '' when there is none |
| Api.NoArgumentIsRefused | src/Voice.php:34-40 | each operation called with no argument is refused as missing input |
| VoiceBuilder.StoredAppends | src/Voice.php:25-29 | storing a result, whether by replacing an empty buffer or by appending, keeps the old text followed by the result's |
| VoiceBuilder.Voice.constructor | src/Voice.php:7 | a new builder has a null buffer and no results |
| VoiceBuilder.Voice.StringBuilder | src/Voice.php:21-32 | the buffer text is every stored result in call order; the method returns the same object |
| VoiceBuilder.Voice.Build | src/Voice.php:47-53 | null exactly when nothing readable has been stored; otherwise the buffer itself, whose text is all results in call order |
| VoiceBuilder.Voice.Call | src/Voice.php:9-19 | a renderer name stores the renderer's result and chains; an operation name answers the operation and leaves the builder unchanged; any other name is the invalid-method error |
| Scenarios.SayWithOptions | src/Voice.php:156 | Say with text, voice and playBeep renders them in that order |
| Scenarios.SayIgnoresVoiceDefault | src/Voice.php:145-148 | a missing voice renders like an empty one, never as "man" |
| Scenarios.DialWithPlusNumbers | src/Voice.php:251-256 | well-formed '+' numbers are refused by Dial |
| Scenarios.DialWithoutPlus | src/Voice.php:251-256 | a number with no '+' is refused by Dial |
| Scenarios.CallWithNumbers | src/Voice.php:74-78 | a call with well-formed numbers becomes a request to "call" |
| Scenarios.ListArgumentFailures | src/Voice.php:23 | every renderer that needs an option fails on the argument list `stringBuilder` passes it |
| Scenarios.ListArgumentMarkup | src/Voice.php:23 | Record with no argument, Enqueue and Redirect render on the argument list |
| Scenarios.SayThenPlay | src/Voice.php:9-32 | a chained Say stores its error envelope, and a chained Play is an invalid method that leaves the buffer alone |
| Scenarios.ConferenceThenSay | src/Voice.php:25-29 | results are kept in call order, with an appended error reading "Array" |
| Scenarios.NothingChained | src/Voice.php:49-51 | with nothing chained, build() gives null |
| Scenarios.BuildTwice | src/Voice.php:47-53 | two build() calls in a row give the same value |

## Left out

- The HTTP post of the three operations (`client->post`) and their success
  wrapping are not modelled. Each operation stops at the request it would
  send: the endpoint and the form fields.
- The `Service` base class is not part of this model. `username` is a
  constructor parameter. `error()` is `Err(message)`, and its envelope is taken
  to be a PHP array, so it reads "Array" when concatenated.
- `filter_var(..., FILTER_VALIDATE_URL)` is cut down to its core syntax: a
  scheme of letters, "://", a non-empty remainder and no spaces.
- `is_numeric` accepts integers and strings made of an optional sign and
  decimal digits. Floats, exponents and surrounding whitespace are not
  modelled, and floats and objects are not modelled as values.
- The case-insensitivity of `method_exists` is not modelled. Dispatch matches
  names exactly against a closed set, and the empty name is not routed to
  `build` itself.
- Option reads on a string argument, which PHP treats as a character offset,
  are not modelled: a value that is not an associative array has no options.
- Only positional arguments are modelled: `__call`'s arguments are a list.
  PHP 8 named arguments, which arrive in `$args` under string keys and would
  hand a renderer an option map, are not modelled.
- PHP 8's TypeError when an array reaches `strpos` or `explode` is not
  modelled. The array is read as the string "Array".
