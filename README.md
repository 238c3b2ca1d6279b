# telegram-number-checker, modelled in Dafny

The repository is a thin client for a third-party HTTP service that looks up whether phone
numbers belong to Telegram accounts. It holds two independent clients:

- `TelegramChecker` (telegram_checker.py). It holds a settable API key. It cleans a phone
  number leniently: surrounding whitespace is stripped, a leading `+` is kept, and every
  character that is not a digit is dropped. It then sends one GET with `api_key` and `phone`.
- `TgChecker` (Tgchecker/client.py). Its key is checked once at construction. It validates
  one number or a list of numbers strictly, joins the list with `,`, and sends
  `{key, numbers, target: "checker"}` on a blocking or a non-blocking path. It then
  normalises the JSON response into a `CheckResult`, using a default for each missing field.

The model covers the string logic (cleaner, validator, join/split), the key state, the
guards and request building of every call, and the response normaliser. The HTTP
transport is a function parameter from the request to what the transport delivers. Because
of that, "validation happens before any request" can be stated and proved, and so can "both
call paths send the same request and parse it the same way".

Modules:

- `Wrappers`: Option, Result, Outcome.
- `Text`: Python's `isdigit`, `strip`, `lstrip('+')`, the digit filter, `",".join` and
  `split(",")`, restricted to ASCII, with their shape lemmas and the split/join round trip.
- `Json`: decoded JSON values.
- `Checker`: telegram_checker.py. The class `TelegramChecker` has the mutable key field.
- `TgClient`: Tgchecker/client.py, written as pure functions. Its fields are assigned once,
  in the constructor.
- `Policies`: puts the strict validator and the lenient cleaner side by side. A number the
  validator accepts with at most one leading `+` is left unchanged by the cleaner. They differ
  on accepted numbers with repeated `+`, and on every rejected number that holds a digit. The
  cleaner returns an optional `+` and the digits, so it collapses repeated `+`, keeps a short
  number and drops other characters (`"12a45"` becomes `"1245"`). A number with no digit is
  refused by both.

The strict validator is easily read as allowing one optional leading `+`. The model
follows the code instead. The code calls `lstrip('+')`, which removes every leading `+`,
so `"++12345"` is accepted unchanged (`TgClient.RepeatedPlusAccepted`).

## Model

The library functions `Text.LStripPlus`, `Text.Digits`, `Text.Join`, `Text.Split` and
`Json.Get` (Python's `dict.get`) have no rows of their own. The lemma rows about them
(`LStripPlusShape`, `DigitsAppend`, `SplitJoin`, `ParseFieldLookup`, ...) state what they compute.
`Checker.CleanUnfold` is a proof helper that writes the cleaner out as one expression.

| member | source | states |
|---|---|---|
| `Text.Strip` | telegram_checker.py:156 | The stripped text is no longer than the input. When it is non-empty, its first and last characters are not whitespace. |
| `Text.StripSplit` | telegram_checker.py:156 | The input is leading whitespace, then the stripped text, then trailing whitespace. |
| `Text.StripEmptyIff` | telegram_checker.py:78 | Stripping gives the empty string exactly when the key is all whitespace. |
| `Text.LStripPlusShape` | Tgchecker/client.py:42 | `lstrip('+')` leaves the suffix that starts at the first character other than `+`. Everything removed is `+`. |
| `Text.LStripPlusStopsAt` | Tgchecker/client.py:42 | If a run of `+` is followed by a character other than `+`, `lstrip('+')` returns exactly what follows the run. |
| `Text.DigitsAppend` | telegram_checker.py:162 | The digit filter distributes over concatenation, so the digits keep their input order. |
| `Text.DigitsEmptyIff` | telegram_checker.py:162-165 | The filter is empty exactly when the text holds no digit. |
| `Text.DigitsOfStrip` | telegram_checker.py:156-162 | Stripping whitespace does not change the digits of a number. |
| `Text.SplitJoin` | Tgchecker/client.py:59-60 | Splitting a `,`-join recovers the list, for any non-empty list of comma-free pieces. |
| `Checker.CleanPhoneNumber` | telegram_checker.py:142-171 | The cleaned number is either empty, or an optional `+` followed by one or more digits. |
| `Checker.CleanEmptyIff` | telegram_checker.py:152-165 | Cleaning gives `""` exactly when the input holds no digit, and so for the empty input. |
| `Checker.CleanKeepsDigits` | telegram_checker.py:156-169 | A non-empty result is an optional `+` followed by exactly the input's digits, in order. Every other character is dropped. |
| `Checker.CleanPlusIff` | telegram_checker.py:156-169 | The result starts with `+` exactly when the stripped input does and holds a digit. |
| `Checker.CleanCanonical` | telegram_checker.py:156-171 | An optional `+` followed by digits is a fixed point of the cleaner. |
| `Checker.CleanIdempotent` | telegram_checker.py:156-171 | Cleaning a cleaned number changes nothing. |
| `Checker.TelegramChecker.constructor` | telegram_checker.py:53-61 | The key is stored exactly as given, without validation. |
| `Checker.TelegramChecker.IsConfigured` | telegram_checker.py:173-180 | Configured exactly when a key is stored and it is not the empty string (Python's `bool` of an optional string). This is the same test as the key guard of `check_number` (telegram_checker.py:104), as the `CheckNumber` row shows. |
| `Checker.TelegramChecker.ReprText` | telegram_checker.py:173-185 | The repr is `TelegramChecker(configured)` exactly when a non-empty key is stored. Otherwise it is `TelegramChecker(not configured)`. |
| `Checker.TelegramChecker.SetApiKey` | telegram_checker.py:68-80 | A missing, empty or all-whitespace key raises `APIKeyError` and keeps the stored key. Any other key is stored stripped; the checker is then configured and the key has no surrounding whitespace. |
| `Checker.TelegramChecker.CheckNumber` | telegram_checker.py:82-140 | An unset or empty key raises `APIKeyError` before the number is looked at. A number that cleans to `""` raises `ValueError`. Otherwise exactly one request is sent (the stored key and the cleaned number), and its outcome is returned or wrapped. |
| `Checker.CheckRequest` | telegram_checker.py:113-129 | The request has exactly the parameters `api_key` and `phone`, the fixed endpoint and the 30-second timeout. |
| `Checker.Deliver` | telegram_checker.py:129-140 | A UTF-8 body that decodes as JSON is returned as that value, and only then is there a result. An `HTTPError` becomes `APIRequestError` with its code and reason. A `URLError` becomes one with its reason. A `TimeoutError` becomes "timed out". A UTF-8 body that is not JSON becomes "failed to parse". Any other exception, such as the `UnicodeDecodeError` of a body that is not UTF-8, is passed on unwrapped. |
| `Checker.CheckTelegramNumber` | telegram_checker.py:189-205 | Behaves like a fresh unvalidated checker for the given key. A blank key passes the key guard and is sent unchanged. |
| `Checker.BlankKeyPolicies` | telegram_checker.py:61-80 | An example: the key `"  "` counts as configured through the constructor, and `set_api_key` refuses it. The general case is in the constructor row (any key is stored unvalidated) and the `SetApiKey` row (failure exactly for a missing or all-whitespace key). |
| `TgClient.NewClient` | Tgchecker/client.py:21-32 | Construction fails with `InvalidAPIKeyError` exactly when the key is not a string or is empty. Otherwise key and timeout are kept unchanged, and the client's key is non-empty. |
| `TgClient.NewClientDefault` | Tgchecker/client.py:21-32 | With the timeout argument left out, construction fails in the same cases as `NewClient`, and a constructed client has the 10-second default timeout. |
| `TgClient.PrepareNumbers` | Tgchecker/client.py:38-62 | Success exactly when the input is non-empty and every number is valid. The error kind follows the check order: "empty" for `''` and `[]`; "non-digit" when any number is not digits after its `+`; "too short" only when all are digits and one is shorter than 5. A single string is returned unchanged; a list is `,`-joined. |
| `TgClient.ValidNumberIffStrictFormat` | Tgchecker/client.py:42-54 | A number passes both tests exactly when it is some `+` signs followed by five or more digits. |
| `TgClient.RepeatedPlusAccepted` | Tgchecker/client.py:42-57 | `"++12345"` passes and is returned unchanged. |
| `TgClient.OnlyPlusNotDigits` | Tgchecker/client.py:42-43 | A number made only of `+` (such as `"+"`) fails the digit test, not the length test. |
| `TgClient.LetterNotDigits` | Tgchecker/client.py:42-43 | `"12a45"` fails the digit test. |
| `TgClient.ListDigitTestFirst` | Tgchecker/client.py:45-54 | An example of the check order: `["123", "12a45"]` fails as "non-digit", although its first number is too short. The general order is in the `PrepareNumbers` row. |
| `TgClient.ValidNumberHasNoComma` | Tgchecker/client.py:45 | No accepted number contains a comma. |
| `TgClient.PrepareManySplitsBack` | Tgchecker/client.py:45-60 | Splitting the joined form of an accepted list on `,` recovers the list. |
| `TgClient.SyncRequest` | Tgchecker/client.py:75-84 | The blocking request carries exactly `key`, `numbers` and `target: "checker"`, the base URL and the client's timeout. |
| `TgClient.AsyncRequest` | Tgchecker/client.py:101-111 | The non-blocking request carries the same three parameters, URL and timeout. |
| `TgClient.SameRequest` | Tgchecker/client.py:75-111 | Both paths build the identical request from the same client and numbers. |
| `TgClient.ParseResponse` | Tgchecker/client.py:121-140 | A status other than 200 raises `APIResponseError` carrying the status and the text. An undecodable body raises `APIResponseError`. A decoded body that is not an object raises `AttributeError`. Success happens exactly for a 200 response with an object body, so a missing key never raises. |
| `TgClient.ParseFieldLookup` | Tgchecker/client.py:132-138 | Each field is the body's value when present, and otherwise its default: `{}`, `0`, `0`, `"unknown"`. |
| `TgClient.ParseEmptyObject` | Tgchecker/client.py:133-137 | `{}` normalises to all four defaults without failing. |
| `TgClient.ParseIgnoresOtherKeys` | Tgchecker/client.py:133-137 | Keys other than the four that are read do not affect the result. |
| `TgClient.CheckSync` | Tgchecker/client.py:68-88 | Invalid numbers give the validator's `ValueError`, whatever the transport does. For valid numbers, a transport error becomes an `APIRequestError` and a response goes through the normaliser. A result is produced only for a non-empty input whose numbers are all valid. |
| `TgClient.CheckAsync` | Tgchecker/client.py:94-115 | The same three outcomes for the non-blocking path, with its own request. |
| `TgClient.ValidationBeforeRequest` | Tgchecker/client.py:75-88 | When validation fails, the result of either path is independent of the transport. |
| `TgClient.OnlyTheBuiltRequestMatters` | Tgchecker/client.py:75-115 | When validation passes, either path depends on the transport only through its answer to the one request it builds. |
| `TgClient.SyncAsyncAgree` | Tgchecker/client.py:68-115 | For every input and transport, the two paths give the same result. The only difference is the call path recorded in a request error. |
| `Policies.CleanOfStrictNumber` | telegram_checker.py:156-171 | On a strictly valid number, the cleaner gives one `+` (if there was any) followed by the digits. |
| `Policies.StrictNumberStripped` | telegram_checker.py:156 | A strictly valid number has no surrounding whitespace. |
| `Policies.StrictNumberDigits` | Tgchecker/client.py:42-48 | The digits of a strictly valid number are what is left after its `+` signs. |
| `Policies.StrictSingleAgrees` | Tgchecker/client.py:42-57 | A number the validator accepts, with at most one leading `+`, is also left unchanged by the cleaner. |
| `Policies.BothRefuseNoDigit` | telegram_checker.py:107-110 | A number with no digit is rejected by the validator, and the cleaner leaves `""` for it, so `check_number` raises `ValueError`. |
| `Policies.RejectedWithDigitIsCleaned` | telegram_checker.py:156-171 | A number the validator rejects but that holds a digit is cleaned to a non-empty number, which `check_number` sends. |
| `Policies.StrictKeepsRepeatedPlus` | Tgchecker/client.py:42-57 | The validator passes `"++12345"` through unchanged. |
| `Policies.CleanCollapsesRepeatedPlus` | telegram_checker.py:156-171 | The cleaner turns `"++12345"` into `"+12345"`. |
| `Policies.StrictRejectsShort` | Tgchecker/client.py:48-49 | The validator rejects `"123"` as too short. |
| `Policies.CleanKeepsShort` | telegram_checker.py:162-171 | The cleaner returns `"123"` unchanged. |
| `Policies.CleanRepairsLetter` | telegram_checker.py:156-171 | The cleaner turns `"12a45"`, which the validator rejects, into `"1245"`. |

## Left out

- HTTP transport: `urllib.request.urlopen`, `httpx.get` and `httpx.AsyncClient`. Each is a function parameter from the request to an abstract outcome. The request headers (User-Agent, Accept) and the `urlencode` of the URL are not modelled.
- The async/await mechanics of `check_async`: only its validation, request and parsing are modelled. An `APIRequest` error records which path raised it, in place of the two message prefixes.
- JSON decoding (`json.loads`, `response.json()`) and the UTF-8 decode of the body. In `Checker.Fetch`, `Body(None)` stands for a UTF-8 body that is not JSON. A body that is not UTF-8 is the case `RaisedOther`: its `UnicodeDecodeError` is not caught at telegram_checker.py:137. So are exceptions from `http.client` that urllib does not wrap in `URLError`. Such exceptions are carried only by name. Non-integer numbers keep only their literal text.
- `CheckResult.time_taken` formatting (`f"{time_taken} seconds"`, telegram_checker/models.py:8): this is Python float formatting. `TgClient.CheckResult.timeTaken` holds the raw value that was looked up.
- `__repr__` of `CheckResult` (telegram_checker/models.py:12-13): string formatting of a dict only.
- The `api_key` property getter (telegram_checker.py:63-66): it is the field `apiKey` itself.
- The exception classes (telegram_checker/exceptions.py, telegram_checker.py:22-34) are error datatypes. Exception messages are reduced to the data they carry.
- The final `raise` of `_prepare_numbers` (Tgchecker/client.py:62) cannot be reached in the model, because the argument is a string or a list by type.
- A list element that is not a string, which would make `lstrip` raise: numbers are strings by type.
- The `except KeyError` branch of `_parse_response` (Tgchecker/client.py:139-140) cannot be reached: `dict.get` never raises. The model has no such error.
- Unicode: `IsDigit` is ASCII `0`-`9`. Python's `str.isdigit` also accepts other Unicode digits, such as superscripts. `IsSpace` is the ASCII whitespace of `str.isspace`, not the wider Unicode set.
- Python's dynamic typing of the key: a non-string `api_key` for `TgChecker` is the single case `KeyNotText`.
- example.py: a demo script that prints results.
