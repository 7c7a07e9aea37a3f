# Chat relay with rotating API keys — Dafny model

This project models the one serverless handler of the BottingHill chat
front-end, `functions/api/chat.js`. The handler relays a user message to
Google's Gemini `generateContent` endpoint. It picks one of four API keys
(`GEMINI_API_KEY1` … `GEMINI_API_KEY4`) by the six-hour interval that the
current time falls in, counted from 2024-01-01T00:00:00Z. It then reshapes
the service's reply into `{response: text}` or an `{error: message}` with
status 500.

Everything in the handler is pure logic except the clock reading, the two
body reads, logging and the `fetch` call, all listed under "Left out". The
model is therefore made of datatypes, functions and lemmas:

- `wrappers.dfy` (`Wrappers`): `Option` for JavaScript's `undefined`/`null`
  and `Result` for a step that may throw (its value, or the thrown message).
- `js_semantics.dfy` (`JsSemantics`): the JavaScript semantics the handler
  relies on, written out over unbounded integers and stated by contracts:
  - `Math.floor(a / b)` as `FloorDiv`;
  - the truncating remainder `%` as `TruncRem`, whose sign follows the dividend;
  - `${n}` for integers of magnitude below 10^21 as `NumberToString`, with an
    inverse `ParseInteger` and a round-trip lemma;
  - string truthiness and `||`;
  - the V8 wording of the `TypeError` raised by reading a property of `undefined`.
- `key_rotation.dfy` (`KeyRotation`): `getRotatingApiKey`, with the clock
  reading `now` passed in as a parameter, plus its time-bucket properties.
- `chat_handler.dfy` (`ChatHandler`): `onRequestPost` as one function from
  four inputs to a `Handled` record. The inputs are the environment, `now`,
  the parsed body (or the message thrown while parsing it) and the
  service's reply. The `Handled` record holds the response, whether the
  body was read, and the outbound call made, if any.

Behaviour of the code that a reader might not expect:

- The slot index lies in `[0, 4)` only from the epoch on. Before it, JavaScript's
  `%` gives indices in `(-4, 0]`. The names are then `GEMINI_API_KEY0`,
  `GEMINI_API_KEY-1` and `GEMINI_API_KEY-2`, or `GEMINI_API_KEY1` when
  the interval number is a multiple of four. The four-interval period also
  breaks across the epoch (`PeriodBreaksAcrossEpoch`).
- A reply missing `candidates`, `candidates[0]`, `content`, `parts` or
  `parts[0]` does not get a fallback text. The property read throws a
  `TypeError`, and the handler answers status 500 with that message.
- A reply whose `parts[0]` has no `text` does not throw. The handler answers
  status 200, and `JSON.stringify` drops the `response` field, so the body is `{}`.
  This is `ReplyJson(None)`.
- This handler has no method check, no `OPTIONS` branch and no CORS headers.
  As an `onRequestPost` export it is only invoked for POST requests.

## Model

| member | source | states |
|---|---|---|
| JsSemantics.FloorDiv | functions/api/chat.js:12 | `Math.floor(a / b)` for `b > 0` is the `q` with `q*b <= a < q*b + b` |
| JsSemantics.FloorDivUnique | functions/api/chat.js:12 | only one integer satisfies that characterisation, so the interval number is determined by the interval bounds |
| JsSemantics.TruncRem | functions/api/chat.js:13 | JavaScript `%`: the result is congruent to the dividend, takes the dividend's sign and is smaller in magnitude than the divisor |
| JsSemantics.Truthy | functions/api/chat.js:17 | the falsy test of `!selectedKey` and `!rotatingApiKey` (line 29): a string or `undefined` is truthy exactly when it is defined and non-empty |
| JsSemantics.Or | functions/api/chat.js:65 | `a \|\| b` on strings yields `a` exactly when `a` is defined and non-empty, otherwise `b` |
| JsSemantics.DecimalDigits | functions/api/chat.js:14 | the decimal numeral of a natural number is non-empty, made of digits, a single digit below ten and without a leading zero |
| JsSemantics.NumberToString | functions/api/chat.js:14 | `${n}` starts with `-` exactly for negative `n` and with a digit otherwise |
| JsSemantics.DecimalDigitsRoundTrip | functions/api/chat.js:14 | reading back the digits of `n` gives `n` |
| JsSemantics.NumberToStringRoundTrip | functions/api/chat.js:14 | `ParseInteger(NumberToString(n)) == n` for every integer, negative ones included (the numeral `${n}` gives for magnitudes below 10^21) |
| JsSemantics.NumberToStringInjective | functions/api/chat.js:14 | distinct integers have distinct string forms |
| JsSemantics.PropertyReadError | functions/api/chat.js:71 | the `TypeError` message for reading a property of `undefined`/`null` is never empty |
| KeyRotation.IntervalNumber | functions/api/chat.js:10-12 | `now` lies in the interval `[EPOCH + k*6h, EPOCH + (k+1)*6h)` of the returned `k` |
| KeyRotation.KeyIndex | functions/api/chat.js:13 | index in `[0, 4)` from the epoch on, in `(-4, 0]` before it, and congruent to the interval number modulo 4 |
| KeyRotation.SlotName | functions/api/chat.js:14 | the variable name is `GEMINI_API_KEY` followed by the string form of the suffix |
| KeyRotation.KeyName | functions/api/chat.js:14 | `key_name` is `GEMINI_API_KEY` followed by a numeral that reads back as `key_index + 1` |
| KeyRotation.GetRotatingApiKey | functions/api/chat.js:9-22 | returns a key exactly when the computed variable is set and non-empty, and then returns that variable's value; otherwise `null` |
| KeyRotation.SlotNameInjective | functions/api/chat.js:14 | distinct suffixes name distinct variables |
| KeyRotation.KeyNameDeterminesIndex | functions/api/chat.js:13-14 | two instants use the same variable name if and only if they have the same slot index |
| KeyRotation.KeyNameInPool | functions/api/chat.js:12-14 | from the epoch on, the name is the prefix plus a single digit from `1` to `4` (index + 1) |
| KeyRotation.IntervalNumberOfBucket | functions/api/chat.js:10-12 | every instant of the k-th six-hour interval has interval number `k` |
| KeyRotation.SameBucketSameKey | functions/api/chat.js:10-14 | two instants in the same interval use the same key name, so the key changes only at interval boundaries |
| KeyRotation.NextIntervalNumber | functions/api/chat.js:12 | six hours later the interval number is one larger |
| KeyRotation.KeyIndexIsIntervalModulo | functions/api/chat.js:12-13 | from the epoch on, the index equals `floor((now - epoch) / 6h) mod 4` |
| KeyRotation.NextIntervalAdvancesIndex | functions/api/chat.js:12-13 | from the epoch on, the next interval's index is the current one plus one, modulo 4 |
| KeyRotation.IndexPeriod | functions/api/chat.js:13 | `(k + 4) % 4 == k % 4` in JavaScript exactly when `k` is not -3, -2 or -1 |
| KeyRotation.PeriodOfFourIntervals | functions/api/chat.js:12-14 | `now` and `now + 24h` use the same key name if and only if `now` is not in the three intervals just before the epoch |
| KeyRotation.PeriodBreaksAcrossEpoch | functions/api/chat.js:12-14 | the interval before the epoch reads `GEMINI_API_KEY0`, four intervals later `GEMINI_API_KEY4` |
| KeyRotation.PreEpochKeyNames | functions/api/chat.js:12-14 | before the epoch the suffixes are `0`, `-1`, `-2` and `1` for intervals -1 to -4 |
| KeyRotation.OnlySelectedSlotConsulted | functions/api/chat.js:15-21 | the result depends only on the computed variable, so no other slot is tried |
| KeyRotation.RotatedKeyFromPool | functions/api/chat.js:13-21 | from the epoch on, a returned key is the value of one of the four pool slots |
| ChatHandler.BuildGenerateRequest | functions/api/chat.js:37-49 | fails with a non-empty `TypeError` exactly when `character_config` is missing or null; otherwise one `user` turn whose only part is the message, system instruction = `system_prompt`, temperature 0.9, model `gemini-2.5-flash` |
| ChatHandler.UpstreamErrorMessage | functions/api/chat.js:62-66 | for a non-ok reply: `"Google API Error: " + (error.message \|\| statusText)`, a non-empty `TypeError` when `error` is missing, or the parse error's message |
| ChatHandler.ExtractBotResponse | functions/api/chat.js:68-71 | succeeds exactly when the path up to `parts[0]` exists and then yields its `text` (possibly undefined); otherwise a non-empty `TypeError` message |
| ChatHandler.ErrorResponse | functions/api/chat.js:78-84 | status 500, JSON, error = the thrown message, or "An unknown error occurred." when it is empty; never empty |
| ChatHandler.ReplyResponse | functions/api/chat.js:62-84 | a rejected fetch, an unparsable body, a non-ok reply or a broken `candidates` path becomes the `catch` response for that throw's message; status 200 if and only if the ok body parses and the path up to `parts[0]` exists, and then `response` is its `text` |
| ChatHandler.OnRequestPost | functions/api/chat.js:25-85 | exactly one JSON response, status 200 or 500; 200 iff a `response` body; errors never empty; the service is called only after the body is read; 200 only after a call; a body that cannot be parsed gives the `catch` response for its message; once the call is made, the response is the reply's |
| ChatHandler.MissingKeyShortCircuits | functions/api/chat.js:27-35 | with no usable key: 500 "API Key is missing or invalid.", body not read, no call, whatever the body and reply |
| ChatHandler.OutboundCallShape | functions/api/chat.js:37-60 | with a key and a `character_config`: one POST to the fixed endpoint with `Bearer <env value of the rotated slot>` and a single user turn carrying the message, the prompt and temperature 0.9 |
| ChatHandler.MissingCharacterConfig | functions/api/chat.js:37-46 | a missing or null `character_config` gives 500 with the `TypeError` message and no call |
| ChatHandler.ReplyIrrelevantWithoutCall | functions/api/chat.js:27-60 | when no call is made, the service's reply does not affect the outcome |
| ChatHandler.UpstreamNotOkResponse | functions/api/chat.js:62-66 | a non-ok reply with an error object gives 500 with "Google API Error: " + message, or + status text when the message is missing or empty |
| ChatHandler.OkReplyResponse | functions/api/chat.js:68-76 | an ok reply with the full path gives 200 with `response` = `candidates[0].content.parts[0].text`; a missing step before `text` gives 500, not a fallback |
| ChatHandler.RequestBodyFailureResponse | functions/api/chat.js:37 | with a usable key, any message `m` thrown while reading the body gives 500 with `m \|\| "An unknown error occurred."`, body read, no call |
| ChatHandler.EmptyThrownMessageFallsBack | functions/api/chat.js:78-84 | a rejected fetch or an unparsable ok or non-ok body whose error message is empty is answered with "An unknown error occurred." |
| ChatHandler.SecondIntervalScenario | functions/api/chat.js:9-76 | in the second interval after the epoch, slot 2's key is the bearer token, one turn is sent, and the reply text comes back with 200 |

## Left out

- The `fetch` call itself, HTTPS and the Response object (functions/api/chat.js:52-60, 73-76): network I/O. The reply is an input (`UpstreamReply`). The call the handler would make is returned as an `OutboundCall` value.
- `Date.now()`: the clock reading is the parameter `now`.
- `request.json()`, `apiResponse.json()` and `JSON.stringify`: JSON plumbing. Bodies are records with `Option` fields. A parse or destructuring failure is a `Failure` carrying the thrown message.
- `console.error` logging (lines 18 and 79): it has no effect on the result.
- `async`/`await`: each invocation is straight-line, with no concurrency.
- Floating point: the temperature 0.9 is passed through as the real literal `0.9`. `(now - epoch) / ROTATION_INTERVAL_MS` is taken as exact division. For millisecond timestamps of realistic size, double rounding cannot move the floor.
- JavaScript's `-0`: `-4 % 4` is `-0` in JavaScript, and `-0 + 1` prints as `1`, which is the same name as the model's `0 + 1`.
- Values of other types: environment entries are strings only (no non-string bindings). `user_message`, `system_prompt`, `message` and `text` are strings or missing. Fields of the service's reply are missing, never JSON `null`. A non-object `character_config` acts like an object without `system_prompt`.
- NumberToString: models `${n}` only for magnitudes below 10^21. Beyond that JavaScript writes exponent notation such as `1e+21`. The handler formats only the suffixes -2 to 4.
- The exact wording of `TypeError` messages is the V8 engine's. The model relies only on their being non-empty.
