# Key service front ends, modelled in Dafny

The repository serves short-lived access keys that an extraction library
(`sigma_study_v4`) recovers from ad-gated link shorteners. Around that library sit
four thin programs, and this project models their decision logic:

- the **key service** (`app.py`, `GET /api/get-key`): reads the `target_url`,
  `ssl_bypass` and `debug` query flags, runs the five extraction stages in order
  (harvest headers, combine the payload, decode it with the UTF-8 bytes of the XOR
  secret, extract the base URL, fetch the key), stops with 400 when every payload
  chunk is empty, and maps the `(key, failed_url, error)` triple or an exception
  to a JSON answer;
- the **link API** (`api/index.py`, `POST /api`): checks that a `link` is given,
  that the library imported, and that the link names a supported provider
  (`nanolinks`, `arolinks`, `lksfy`, by substring, in that order), calls that
  provider's handler with certificate checks on and debugging off, and maps its
  triple to a JSON answer, always with status 200;
- the **webhook bot** (`api/telegram.py`): routes Telegram commands by exact text,
  allows one key request per user every 30 seconds from a global table of last
  request times, asks the key service for a key, recovers it from the answer
  (`key` field, else the `key=` token of `failed_url`, else the alphanumeric
  `key=` token of `error`) and reports it only when it matches
  `^[A-Za-z0-9]{8,20}$`;
- the **polling bot** (`telegram_bot.py`): the same recovery rule, but any truthy
  key is shown, with no format check.

The extraction stages and the provider handlers are parameters of the model
(function-typed values): nothing is assumed about what they return beyond its
Python type (see "## Left out"). Each
stage call is recorded with its arguments, so "decode is never called" or
"the handler is called with verify on" are statements about the model.

Modules, one concept each:

| module | file | content |
|---|---|---|
| `Text` | text.dfy | character classes of Python's `re`, `in` on strings, `lower()`, UTF-8 |
| `PyJson` | py_json.dfy | JSON values, Python truthiness, `in`, raised exceptions as values |
| `KeyScan` | key_scan.dfy | `re.search(r'key=(...+)')` and the key-format pattern |
| `KeyExtraction` | key_extraction.dfy | the `key` / `failed_url` / `error` priority rule shared by both bots |
| `ExtractionResult` | extraction_result.dfy | the triple and the failure objects built from it |
| `WebhookBot` | webhook_bot.dfy | rate limit, validation, routing, and the `KeyBot` class for the global state |
| `PollingBot` | polling_bot.dfy | `generate_key` |
| `LinkApi` | link_api.dfy | `do_POST` |
| `KeyService` | key_service.dfy | `get_key` |
| `EndToEnd` | end_to_end.dfy | what the bots make of each answer the key service can give |

Worth knowing about the code:

- the key service and the link API pass on any truthy key, and the polling bot
  shows it; only the webhook bot checks the format `^[A-Za-z0-9]{8,20}$`
  (`KeyService.KeyNotFormatChecked`, `PollingBot.UncheckedTokenShown`);
- the webhook bot's check uses `re.match` with `$`, which also accepts a key
  followed by one newline (`WebhookBot.TrailingNewlineAccepted`);
- the rate-limit table is a module-level `defaultdict(float)`, which reading
  inserts 0.0 into, modelled as the field `userLastRequest` of class
  `WebhookBot.KeyBot`;
- an unsupported link is answered, after the import check, with the message
  naming the three providers.

## Model

| member | source | states |
|---|---|---|
| `Text.IsAsciiAlnum` | api/telegram.py:94 | the class `[A-Za-z0-9]`: ASCII letters and digits |
| `Text.AsciiAlnumBounds` | api/telegram.py:94 | the class holds `0`-`9`, `A`-`Z`, `a`-`z`, none of the ASCII characters next to those ranges and nothing outside ASCII |
| `Text.IsPySpace` | api/telegram.py:91 | `\s` of a `str` pattern, the characters for which `str.isspace()` holds |
| `Text.PySpaceMembers` | telegram_bot.py:39 | `\s` holds the ASCII whitespace, U+001C to U+001F, U+0085, U+00A0, U+1680, U+2000 to U+200A, U+2028, U+2029, U+202F, U+205F and U+3000, and not U+200B, U+180E or U+FEFF |
| `Text.ContainsFrom` | api/telegram.py:93 | searching from an index finds `sub` iff it occurs at or after that index |
| `Text.Contains` | api/index.py:62 | Python's `sub in s` holds iff `sub` occurs in `s` at some index |
| `Text.LowerAll` | app.py:37-38 | ASCII `lower()` keeps the length and folds each character on its own |
| `Text.IsTrueTextSpelled` | app.py:37-38 | `s.lower() == 'true'` holds iff `s` is `true` in some mix of letter cases |
| `Text.Utf8Char` | app.py:65 | one character encodes to 1 to 4 bytes, the length fixed by the code point's range (1 below U+0080, 2 below U+0800, 3 below U+10000, else 4), so never overlong; the lead byte's range gives the length, and the bits of lead and continuation bytes add back up to the code point |
| `Text.Utf8Encode` | app.py:65 | `encode('utf-8')` gives bytes, at least one per character |
| `Text.CodePoints` | app.py:65 | the code point of each character, in order |
| `Text.Utf8Decode` | app.py:65 | the reference decoder, strict: each lead byte fixes the length of its sequence, and a bad lead byte, a cut-short sequence, a continuation byte outside `10xxxxxx`, an overlong form, a surrogate or a value past U+10FFFF decodes to -1 |
| `Text.Utf8CharDecodes` | app.py:65 | the bytes of one character decode to its code point, whatever bytes follow |
| `Text.Utf8RoundTrip` | app.py:65 | decoding the encoding of any string gives back exactly its code points |
| `Text.Utf8EncodeInjective` | app.py:65 | two strings with the same encoding are equal |
| `Text.SequenceBits` | app.py:65 | the bits a lead byte and its continuation bytes carry |
| `Text.DecodeSequence` | app.py:65 | a decoded code point is -1 or a Unicode scalar value at least the smallest one needing that many bytes |
| `Text.IllFormedRejected` | app.py:65 | overlong forms, a surrogate and a bad continuation byte decode to -1 |
| `Text.Utf8EncodeAscii` | app.py:65 | an ASCII secret encodes to its own code points, one byte each |
| `PyJson.Truthy` | api/telegram.py:98 | `if v:` is false exactly for `None`, `False`, `0`, the empty string and the empty list |
| `PyJson.OptStr` | app.py:78 | a `str` or `None` becomes a JSON string or `null`, never anything else |
| `PyJson.TypeName` | telegram_bot.py:73 | `type(v).__name__` for each kind of JSON value |
| `PyJson.NotIterableMessage` | api/telegram.py:93 | the TypeError text of `in` on a non-container |
| `PyJson.NotIterableTexts` | api/telegram.py:93 | for `None` the text is `argument of type 'NoneType' is not iterable`, for an int the same with `int` |
| `PyJson.NotAStringMessage` | telegram_bot.py:39 | the TypeError text of `re.search` on a non-string |
| `PyJson.NotAStringTexts` | telegram_bot.py:39 | for `None` the text is `expected string or bytes-like object, got 'NoneType'`, for a list the same with `list` |
| `PyJson.In` | api/telegram.py:93 | `x in v` is a substring test on a string, membership on a list, and raises TypeError on anything else |
| `KeyScan.RunEnd` | api/telegram.py:91 | the greedy `+` stops at the first character outside the class, or at the end |
| `KeyScan.FirstMatchFrom` | api/telegram.py:91 | the leftmost match at or after an index; none iff the pattern matches nowhere there |
| `KeyScan.FirstMatch` | api/telegram.py:94 | the leftmost index where `key=` is followed by a class character |
| `KeyScan.Search` | api/telegram.py:91-95 | `re.search(...).group(1)` is `None` iff the pattern matches nowhere, else the maximal class run after the leftmost match |
| `KeyScan.SearchFollowsMarker` | api/telegram.py:91 | a captured token appears in the text right after `key=` |
| `KeyScan.NoMarkerNoMatch` | api/telegram.py:93-94 | without `key=` in the text neither scan captures anything |
| `KeyScan.KeyPatternMatches` | api/telegram.py:98 | what `re.match(r'^[A-Za-z0-9]{8,20}$', s)` accepts, `$` before a final newline included |
| `KeyScan.KeyPatternShape` | api/telegram.py:98 | the key pattern accepts exactly an 8 to 20 character alphanumeric string, alone or followed by one newline |
| `KeyScan.TokenPatternIsStrict` | api/telegram.py:91-98 | for a token of either scan the key pattern means exactly the 8 to 20 alphanumeric format |
| `KeyScan.AlnumTokenFormat` | api/telegram.py:94-98 | a token of the `error` scan is a valid key iff its length is 8 to 20 |
| `KeyScan.MaximalRunUnique` | api/telegram.py:91 | the greedy capture starting at a given index is unique |
| `KeyScan.SearchIs` | api/telegram.py:91-95 | a match with none before it, followed by a maximal class run, makes that run the captured group |
| `KeyScan.MarkerInsideWord` | telegram_bot.py:39 | `monkey=abc` yields `abc`: the scan has no word boundary |
| `KeyExtraction.SearchValue` | api/telegram.py:91-95 | a non-string field makes the scan raise TypeError; on a string the result is exactly the token `Search` captures, or `None` when it captures none |
| `KeyExtraction.ExtractKey` | api/telegram.py:87-95 | `key` field first, then the `failed_url` scan; an `error` that is no string or list makes `'key=' in` raise TypeError, a list yields nothing unless it holds `key=`, in which case `re.search` raises; nothing when no field is there |
| `KeyExtraction.ScannedKeyShape` | telegram_bot.py:37-44 | a key recovered from `failed_url` or `error` is non-empty and free of `&` and whitespace, and alphanumeric when it came from `error`; it is the `Search` capture of the `failed_url` text, or else of the `error` text |
| `KeyExtraction.KeyFieldWins` | telegram_bot.py:35-36 | with a `key` field, `failed_url` and `error` make no difference |
| `KeyExtraction.FailedUrlWinsOverError` | api/telegram.py:90-92 | without `key`, a `failed_url` field makes `error` irrelevant |
| `KeyExtraction.ErrorTextScan` | api/telegram.py:93-95 | a string `error` alone gives exactly the alphanumeric scan's result: the `'key=' in` guard changes nothing, and `key=` without an alphanumeric after it gives no key |
| `WebhookBot.Trunc` | api/telegram.py:67 | `int()` of a float truncates toward zero |
| `WebhookBot.Admit` | api/telegram.py:63-67 | a request is refused iff less than 30 seconds passed since the recorded time; the wait is `30 - diff` truncated |
| `WebhookBot.WaitWithinLimit` | api/telegram.py:66-67 | with a clock that does not go back, the announced wait is 0 to 30, and 30 only for a repeat at the same instant |
| `WebhookBot.WaitCanBeZero` | api/telegram.py:66-69 | a refused user can be told to wait 0 seconds |
| `WebhookBot.LastSeen` | api/telegram.py:63 | the recorded time, 0.0 for a user never seen |
| `WebhookBot.Recorded` | api/telegram.py:16-76 | reading inserts the user (at 0.0 when unseen); an admitted request records `now`, a refused one keeps the old time; every other user's entry is unchanged |
| `WebhookBot.AdmittedTimes` | api/telegram.py:58-76 | the times at which one user's key requests of a request log are admitted, each run on the table the requests before it left |
| `WebhookBot.AdmittedTimesStep` | api/telegram.py:58-76 | a request adds its time to a user's admissions iff it is that user's and the bot answers it with the "generating" notice; the rest of the log runs on the table it left |
| `WebhookBot.AdmissionsSpaced` | api/telegram.py:58-76 | for any sequence of requests, one user's admitted requests are at least 30 seconds apart and 30 seconds after the initial recorded time |
| `WebhookBot.Validate` | api/telegram.py:98 | a candidate is a valid key iff it is a string the key pattern accepts; a truthy non-string makes `re.match` raise |
| `WebhookBot.ApiNotice` | api/telegram.py:81-128 | a key is reported iff the extracted candidate validates, and then that key; an invalid candidate gives "no valid key", a raising extraction or validation the unexpected-error message; a timeout and other request failures give their own messages |
| `WebhookBot.ReportedKeyIsWellFormed` | api/telegram.py:87-107 | every reported key matches the pattern, and one recovered by a scan has exactly the 8 to 20 alphanumeric format |
| `WebhookBot.TrailingNewlineAccepted` | api/telegram.py:88-98 | a `key` field `abcd1234\n` is reported, newline included |
| `WebhookBot.KeyGenerationMessages` | api/telegram.py:58-128 | a refused request sends only the wait message; an admitted one sends "generating" and then the API outcome, all to the requesting chat |
| `WebhookBot.Route` | api/telegram.py:155-165 | `/start`, `/help` and exactly `/generate` or `/key` select their command; any other text is not understood |
| `WebhookBot.TokenSet` | api/telegram.py:140 | `not BOT_TOKEN` is false exactly for a set, non-empty token |
| `WebhookBot.KeyErrorMessage` | api/telegram.py:148-149 | `str(e)` of the KeyError for a missing field |
| `WebhookBot.CommandAction` | api/telegram.py:156-165 | the handler each command runs |
| `WebhookBot.PlanWebhook` | api/telegram.py:137-171 | no token gives 500 before the update is read; an unreadable update gives 500 with its reason; a missing `chat`, `from` or `id` gives 500 with the KeyError text; an update without a message, or with one without text, gives `{ok: True}` and does nothing; otherwise `{ok: True}` and the routed command; a key request is made iff the update has chat id, sender id and a key command text |
| `WebhookBot.FaultReply` | api/telegram.py:171 | an exception in the webhook answers 500 with `{error: str(e)}` |
| `WebhookBot.CommandReplies` | api/telegram.py:155-165 | `/start` welcomes, `/help` sends the help, exactly `/generate` or `/key` request a key for the sender, any other text (a non-string included) is not understood, all in the message's chat |
| `WebhookBot.NoTextNoAction` | api/telegram.py:152-167 | a message without `text` sends nothing and is answered `ok` |
| `WebhookBot.KeyBot.constructor` | api/telegram.py:12-16 | the service starts with its token and an empty table |
| `WebhookBot.KeyBot.HandleKeyGeneration` | api/telegram.py:58-128 | the table and the messages after a key request, as `Recorded` and `KeyGenerationMessages` give them |
| `WebhookBot.KeyBot.Webhook` | api/telegram.py:137-171 | the answer is the plan's; only a key request changes the table |
| `PollingBot.GenerateKey` | telegram_bot.py:22-75 | "generating" first; a key is shown iff the extracted candidate is truthy; every request failure reads as a network error; a raising scan shows its message as the error text; "no key found" exactly when the answer was read, the scan returned, and its candidate is missing or falsy |
| `PollingBot.EmptyKeyIsNoKey` | telegram_bot.py:46-62 | an empty `key` field counts as no key |
| `PollingBot.UncheckedTokenShown` | telegram_bot.py:37-56 | a `failed_url` token `a%b=` is shown as a key |
| `ExtractionResult.StrShown` | api/index.py:94 | a `str` error is truthy iff non-empty and is its own `str` |
| `ExtractionResult.ErrorObject` | api/index.py:99-102 | an error answer has exactly `success: False` and the message |
| `ExtractionResult.FailureObject` | api/index.py:92-96 | a failure answer has `success: False`, `error` the `str` of a truthy error or else the default text, and `failed_url` as given, `null` included; the error text is empty only for a truthy error whose `str` is empty |
| `ExtractionResult.StrErrorNeverEmpty` | app.py:83 | with a `str` error or none, the answer's error text is never empty |
| `LinkApi.ImportErrorMessage` | api/index.py:56 | the import failure is reported as `Import error: ` followed by its text |
| `LinkApi.AnyDomainIn` | api/index.py:61-62 | `any(d in link ...)` is true iff some domain occurs in the link; it raises only when the link is not a string or list |
| `LinkApi.LinkOf` | api/index.py:45 | `data.get('link', '')` |
| `LinkApi.Dispatch` | api/index.py:75-85 | `nanolinks` wins over `arolinks`, which wins over `lksfy`, for a string link (by substring) and for a list link (by membership); a link that is neither raises the `in` TypeError; a chosen provider's fragment is in the link |
| `LinkApi.DispatchAfterCheck` | api/index.py:61-85 | after the supported-domain check passes, dispatch always chooses a provider |
| `LinkApi.HandlerObject` | api/index.py:87-102 | a truthy key gives exactly `{success: True, key}`; otherwise the failure object, or the error object when the handler raised |
| `LinkApi.DoPost` | api/index.py:31-102 | status is always 200; a handler is called only for a truthy link after a successful import, with verify on and debug off, on the provider `Dispatch` chooses by precedence; the answer is then that call's result mapped; without a call the answer is a failure: `str(e)` of an unreadable body, the missing-link message, the import error, the `in` TypeError of the domain check, or the provider list for an unsupported link; a link passing the domain check always reaches a handler |
| `LinkApi.CheckOrder` | api/index.py:45-58 | a missing link is reported before an import failure |
| `LinkApi.UnsupportedRefusedEarly` | api/index.py:61-69 | a string link naming no provider is refused with the provider list, whatever the other fields of the body and whatever the handlers would do |
| `LinkApi.HandlerSeenOnlyThroughCall` | api/index.py:75-97 | the handlers affect the answer only through the one recorded call |
| `LinkApi.FallbackNeverAnswered` | api/index.py:81-85 | the final "Unsupported domain" branch is unreachable |
| `KeyService.FlagOn` | app.py:37-38 | a flag is on iff given and `lower()` of it is `true` |
| `KeyService.AllEmpty` | app.py:57 | `all(not ch for ch in combined)`, true of the empty list |
| `KeyService.ParseFlags` | app.py:36-40 | the target defaults; a flag is on iff its text spells `true` in any case; `verify` is `not ssl_bypass` |
| `KeyService.FetchReply` | app.py:74-85 | a truthy key gives 200 with key and base URL, no format check; otherwise 500 with the failure object |
| `KeyService.ExceptionReply` | app.py:87-91 | any exception in `get_key` answers 500 with `{success: False, error: str(e)}` |
| `KeyService.GetKey` | app.py:33-91 | between one and five stage calls; status is 200, 400 or 500; 400 after exactly two calls; 200 after all five, exactly when the answer carries a non-empty key |
| `KeyService.StagesInOrder` | app.py:52-72 | the stages run harvest, combine, decode, extract, fetch, each on what the one before returned |
| `KeyService.StagesGetFlags` | app.py:36-72 | every call carries the request's flags, decode gets the UTF-8 bytes of the secret, fetch the default user agent |
| `KeyService.EmptyPayloadStopsEarly` | app.py:57-62 | an all-empty payload gives exactly the 400 answer `{success: False, error, missing_headers}` with the missing header names combine returned; decode, extract and fetch are never called |
| `KeyService.EarlierCallsReturned` | app.py:52-72 | every stage call but the last returned |
| `KeyService.RaisedStageAnswer` | app.py:87-91 | when the last stage raised, the answer is 500 `{success: False, error: str(e)}` |
| `KeyService.FetchedAnswer` | app.py:72-85 | when fetch returned, the answer is built from its triple and the extracted base URL |
| `KeyService.StoppedAfterCombine` | app.py:55-62 | a request whose last call returned and was not fetch stopped after combine on an all-empty payload, with the 400 answer carrying its missing header names |
| `KeyService.DefaultsWithoutParameters` | app.py:36-41 | without parameters the default target is harvested with verify on and debug off |
| `KeyService.SuccessMeansKey` | app.py:72-85 | status 200 iff fetch ran and returned a truthy key |
| `KeyService.KeyNotFormatChecked` | app.py:74-79 | a key `%` is answered as a success |
| `EndToEnd.ServiceKeyReachesBots` | api/telegram.py:83-107 | a key the service answers with is shown by the polling bot, and by the webhook bot iff it matches the pattern |
| `EndToEnd.NullFailedUrlRaisesInBots` | api/telegram.py:90-91 | a failure answer with `failed_url: null` makes both bots' scan raise |
| `EndToEnd.FailedUrlScanned` | app.py:80-85 | a failure answer's key is whatever the scan of its `failed_url` finds |
| `EndToEnd.UnmarkedErrorGivesNoKey` | api/telegram.py:93-112 | an answer with only an `error` that does not mention `key=` gives "no key" in both bots |
| `EndToEnd.EmptyPayloadAnswerShape` | app.py:57-62 | the 400 answer has no `key` and no `failed_url`, and its fixed error message |
| `EndToEnd.WebhookKeyImpliesPollingKey` | telegram_bot.py:46 | whenever the webhook bot reports a key, the polling bot shows the same key |
| `EndToEnd.PollingKeyNotImpliesWebhookKey` | api/telegram.py:98 | the converse fails: a `failed_url` token `a%b=` is shown by one bot and refused by the other |

## Left out

- The extraction library `sigma_study_v4` (harvesting, payload assembly, base64 and XOR decoding, base-URL extraction, the unlock flows, the provider handlers) is not part of this model: its stages and handlers are parameters with no assumed behaviour.
- All network I/O (`requests.get`/`post`, `requests.Session` and its User-Agent header, the Telegram Bot API) is left out; the API's outcome is an input, and `send_message` is modelled as the list of messages sent, its own failures ignored.
- Flask routing, `BaseHTTPRequestHandler` header and body writing, the CORS headers, `do_GET`, `do_OPTIONS`, the `home` and `health` routes are framework glue and left out.
- JSON (de)serialisation is left out: answers are maps from field names to values, and values are limited to `null`, booleans, integers, strings and lists of strings (no floats, no nested objects).
- Time is a real number of seconds given as input: floating-point rounding of `time.time()` is not modelled.
- `WebhookBot.AdmissionsSpaced`: the 30-second spacing holds for one process taking requests one at a time. The webhook runs as a serverless handler (`api/telegram.py:173-174`), where each instance has its own table, empty at every cold start, and a threaded server can interleave the read of line 63 and the write of line 76; neither is modelled.
- Exceptions are carried as their `str(e)`; only the messages the modelled code itself can raise are spelled out (TypeError of `in` and of `re` in the wording of Python 3.12, KeyError); the kinds of the `requests` exceptions become the outcomes `TimedOut` and `RequestFailed`. An unreadable answer body is counted as `RequestFailed`: this assumes requests 2.27 or later, where `response.json()` raises `requests.exceptions.JSONDecodeError`, a `RequestException`. Older versions raise a plain `ValueError`, which the bots' generic `except` would show as an error text instead.
- The stage results are given Python types: harvest returns a dict of `str` headers, combine a list of `str` chunks and a list of missing header names, decode a `str`, extract a `str` or `None`, and the triple's `key` and `failed_url` are `str` or `None`. This is an assumption about the extraction library, whose code is not part of this model. A result outside these types that `jsonify` could not serialise (`app.py:57-61`, `app.py:74-85`) would raise inside the `try` and give the 500 exception answer instead; that path is not modelled. The triple's `error` may be any object, seen through its truthiness and its `str`.
- Message texts, emoji and Markdown are modelled as message kinds.
- `telegram_bot.py`'s `main()` (handler registration, `run_polling`), its `start` and `help_command`, and `async`/`await` are left out; the reply and its edit are the two entries of `GenerateKey`'s result.
- `urllib3.disable_warnings`, the `sys.path` change and the import of the library are left out; an import failure is an input of `DoPost`.
- `Text.IsTrueTextSpelled`: `lower()` is modelled on ASCII letters only; this decides the comparison with `true`, since the only non-ASCII characters that lowercase into ASCII become `i` and `k`.
- `KeyService.GetKey`: the `resp` value that harvest returns beside the headers is unused by `get_key` and not modelled.
- `EndToEnd.UnmarkedErrorGivesNoKey`: that the empty-payload message holds no `key=` is a premise of this lemma, not proved about the text.
