# botpress-twilio: a Dafny model of the SMS channel adapter

This project models the message-shaping and decision logic of the Botpress Twilio
connector. It covers both directions. Outgoing, a bot instruction becomes a Twilio event
with a completion handle, the send stage turns that event into a carrier payload, and the
handle is resolved once the send succeeds. Incoming, the webhook checks the request's
signature, acknowledges it, resolves or creates the sender's user record, extracts the
attachments and dispatches the canonical incoming message.

Files and modules:

- `js_values.dfy`, module `JsValues`. JavaScript values as the adapter sees them: plain
  objects are maps from property names to values, and a missing property reads as
  `undefined`. It also defines lodash's `_.isNil`, truthiness, the string conversion a
  template literal performs, and `parseInt(v, 10)` as a prefix parser over decimal
  digits.
- `umm.dfy`, module `Umm` (src/umm.js). The completion handle (`Completion`) and the bus
  event that carries it (`Event`), both classes because the source mutates them in
  place. `PromisifyEvent`. The option-stripping loop over a shallow copy of the
  instruction. The pure translation `Translate` and the method `ProcessOutgoing` that
  uses it. The guarded connector registration.
- `twilio.dfy`, module `Twilio` (src/index.js). The carrier payload and the outgoing
  stage, as `SmsChannel.HandleOutgoing` and the specification `OutgoingEffects`. The
  user store as a class with a map, `UserStore.GetOrCreateUser`, and its specification
  `GetOrCreate`. Media extraction. The webhook handler, as `HandleWebhook` with the
  specification `Webhook`, where each request gives an ordered list of effects.

External pieces appear as inputs:

- The signature check (`twilio.validateExpressRequest`) is the `valid` argument.
- The outcome of `client.messages.create` is the `sendOk` argument.
- `extractNumber` (from `./util`) and `util.inspect` are function-typed arguments.
- The user store is a `map<string, Props>`. `bp.db.saveUser` is not part of this model,
  so its behaviour is an assumption here: `UserStore.SaveUser` files the record under
  `platform + ":" + id` and stores it exactly as passed (see "## Left out").

Behaviour of the code that the model keeps:

- A failed send leaves the completion handle pending. The handle is never rejected.
- An invalid signature makes the handler call `res.sendStatus(403)`, recorded as
  `SendStatus(403)`. The body Express writes with it is not modelled.
- When there are no attachments, the dispatched message's `media` property holds
  `undefined`; the key itself is present. The model writes this as `None`.
- `NumMedia` is parsed as a decimal prefix, so `"2abc"` counts as 2.
- A count above 4294967295 makes `Array(n)` throw a RangeError. When that happens the
  user has already been resolved (and created if new), and nothing is dispatched.
- The options-stripped copy of the instruction (src/umm.js:19-31) is never read again,
  so stripping has no effect on the result. Fields other than `text` and `typing` are
  absent from the result only because the result is built from those two alone.
- A missing `From` field gives the lookup key `twilio:undefined`, exactly like the
  template literal in the code.

## Model

| member | source | states |
|---|---|---|
| `JsValues.ParseDecimal` | src/index.js:145 | `parseInt(s, 10)` on a string: leading white space, an optional sign, then the longest digit run, NaN without a digit; specified by `JsValues.ParseDecimalPrefix`, `JsValues.ParseDecimalNoDigit` and `JsValues.ParseDecimalOfDecimal` |
| `JsValues.ParseDecimalPrefix` | src/index.js:145 | after any white space and one optional `+` or `-`, the longest run of digits is read and whatever follows it is ignored; a `-` negates the value |
| `JsValues.ParseDecimalNoDigit` | src/index.js:145 | when no digit follows the white space and the optional sign, the result is NaN (`None`) |
| `JsValues.ParseDecimalTrailingText` | src/index.js:145 | `"2abc"` reads as 2 |
| `JsValues.ParseDecimalSpaceAndSign` | src/index.js:145 | `" -7x"` reads as -7 |
| `JsValues.ParseDecimalNaN` | src/index.js:145 | `"abc"` and `""` read as NaN |
| `JsValues.ParseInt` | src/index.js:145 | `parseInt(v, 10)`: the value is converted to a string first; specified by `JsValues.ParseIntOfNum` and `JsValues.ParseIntOfNil` |
| `JsValues.ParseDecimalOfDecimal` | src/index.js:145 | `parseInt` of the decimal rendering of any integer gives back that integer |
| `JsValues.ParseIntOfNum` | src/index.js:145 | `parseInt` of any integer number, or of its decimal string, is that integer |
| `JsValues.ParseIntOfNil` | src/index.js:145 | `parseInt` of `undefined` or `null` is NaN (`None`), so a missing count means no media |
| `Umm.Completion.Resolve` | src/index.js:58-59 | resolving settles a pending handle as resolved; a handle already settled stays as it was |
| `Umm.PromisifyEvent` | src/umm.js:7-16 | an event with no `_promise` gets one fresh pending handle, shared by `_promise`, `_resolve` and `_reject`; an event that already has a `_promise` is returned entirely unchanged (so a second call changes nothing); the result always has `_promise` |
| `Umm.StripOptions` | src/umm.js:19-31 | the copy equals the instruction minus `typing`; the caller's object is not modified (no `modifies` clause) |
| `Umm.PickOptions` | src/umm.js:25-27 | the options picked are exactly the instruction's `typing` key, if present, with its value |
| `Umm.Translate` | src/umm.js:37-60 | success exactly when `text` is not nil, so an empty string is accepted; the event has the five keys `platform`, `type`, `user`, `raw`, `text`, with `platform 'twilio'`, `type 'text'`, `text` taken from the instruction and `user = {id: number, number: number}`; `raw` has the keys `to` and `message`, plus `typing` only when the instruction has it, and `raw.to` is the same number; the failure message is the bloc-naming error text |
| `Umm.ProcessOutgoing` | src/umm.js:18-61 | the outcome matches `Translate` applied to `extractNumber(event)`; on success the returned event is fresh, carries `Translate`'s properties and has a fresh pending handle; neither the event nor the instruction is modified |
| `Umm.TranslateIgnoresOtherFields` | src/umm.js:25-46 | changing any instruction field other than `text` and `typing` leaves a successful translation unchanged |
| `Umm.UnrecognizedNamesBloc` | src/umm.js:59-60 | with a nil `text` the call fails even when `typing` is present; the message contains the bloc name and the rendering of the instruction |
| `Umm.RegisterConnector` | src/umm.js:63-70 | registration happens exactly when `bp.umm` is truthy and `bp.umm.registerConnector` is a function, with `platform 'twilio'` and empty `templates`; a truthy non-function throws a TypeError; otherwise nothing happens |
| `Twilio.CarrierPayload` | src/index.js:45-54 | the payload carries `to` and `body`, plus `messagingServiceSid` when that setting is not nil, or else `from` (kept even when the sender number is `undefined`) |
| `Twilio.RoutingExclusive` | src/index.js:50-54 | a payload carries exactly one of `from` and `messagingServiceSid`, and carries `messagingServiceSid` exactly when it is configured |
| `Twilio.OutgoingEffects` | src/index.js:39-62 | a non-Twilio event gives exactly one `next()` and no send; a Twilio event gives one send of the built payload (`to = extractNumber(event)`, `body = event.text`) and no `next()`; a resolution happens exactly when the event is Twilio's, the send succeeds and the event has both `_promise` and `_resolve` |
| `Twilio.CompletionAfterSend` | src/index.js:56-61 | any resolution immediately follows the send and happens only once |
| `Twilio.SmsChannel.HandleOutgoing` | src/index.js:39-62 | the log grows by `OutgoingEffects`; the event's handle is resolved when that list contains a resolution, and is left untouched otherwise |
| `Twilio.UserKey` | src/index.js:76 | the lookup key `twilio:${fromNumber}`; `Twilio.NewUserFoundAgain` states that a saved placeholder is filed under it |
| `Twilio.NewUser` | src/index.js:86-93 | the placeholder record; its six fields are stated by `Twilio.GetOrCreateCreates` |
| `Twilio.GetOrCreate` | src/index.js:75-98 | `getOrCreateUser` on the store's records; specified by `Twilio.GetOrCreateFound`, `Twilio.GetOrCreateCreates`, `Twilio.GetOrCreateIdIsNumber`, `Twilio.GetOrCreateIdempotent` and `Twilio.GetOrCreateKeepsOthers`, and implemented by `Twilio.UserStore.GetOrCreateUser` |
| `Twilio.NewUserFoundAgain` | src/index.js:76-95 | a saved placeholder user is filed under the key the lookup reads (`twilio:` + number) |
| `Twilio.GetOrCreateFound` | src/index.js:76-83 | a found record is returned with `id` set to the bare number and every other field as stored; the store is not changed |
| `Twilio.GetOrCreateCreates` | src/index.js:85-97 | for an unknown number exactly one record is added, and it is the returned user: first and last name `'Unknown'`, `profile_pic` null, `platform 'twilio'`, `id` and `number` both the number |
| `Twilio.GetOrCreateIdempotent` | src/index.js:75-98 | resolving the same number twice in a row returns the same user and creates at most one record |
| `Twilio.GetOrCreateIdIsNumber` | src/index.js:82-90 | whatever record the store holds, the returned user's `id` is the bare number |
| `Twilio.GetOrCreateKeepsOthers` | src/index.js:75-98 | records under other keys are never altered or removed |
| `Twilio.UserStore.Find` | src/index.js:77-79 | the lookup finds the record stored under the key, or nothing |
| `Twilio.UserStore.SaveUser` | src/index.js:95 | saving stores the record under `platform:id` and changes nothing else |
| `Twilio.UserStore.GetOrCreateUser` | src/index.js:75-98 | the returned user and the new store are those of `GetOrCreate` on the old store |
| `Twilio.ExtractMedia` | src/index.js:144-152 | the attachments of a webhook body, or the RangeError `Array(n)` throws; specified by `Twilio.ExtractMediaSpec`, `Twilio.MediaAbsentWithoutCount` and `Twilio.MediaInIndexOrder` |
| `Twilio.ExtractMediaSpec` | src/index.js:144-152 | `media` is left undefined exactly when the parsed count is NaN or not positive (never an empty list); a count above 4294967295 throws; otherwise there are `n` attachments, the i-th made of `MediaContentType{i}` and `MediaUrl{i}`, in index order |
| `Twilio.MediaAbsentWithoutCount` | src/index.js:144-152 | when `NumMedia` is missing or `"0"` there is no media |
| `Twilio.MediaInIndexOrder` | src/index.js:145-151 | `NumMedia=2` with two content-type/URL pairs gives exactly those two attachments, in order |
| `Twilio.Incoming` | src/index.js:154-161 | the message handed to `sendIncoming`; every field, including each field of `raw`, is stated by `Twilio.WebhookDispatch` |
| `Twilio.Webhook` | src/index.js:114-164 | the effects of one request and the store afterwards; specified by `Twilio.WebhookRejectsForged`, `Twilio.WebhookAcknowledgesFirst`, `Twilio.WebhookDispatch` and `Twilio.WebhookNoDispatch`, and implemented by `Twilio.HandleWebhook` |
| `Twilio.WebhookRejectsForged` | src/index.js:117-122 | an invalid signature gives only a 403: no user lookup, no creation, no dispatch, and the store is unchanged |
| `Twilio.WebhookAcknowledgesFirst` | src/index.js:124-142 | a valid request first writes 200 `text/xml`, then resolves the sender; after that at most one dispatch follows; the store becomes that of `GetOrCreate` |
| `Twilio.WebhookDispatch` | src/index.js:142-161 | when media extraction succeeds, the third and last effect dispatches a message with `platform 'twilio'`, `type 'message'`, `text = Body`, the resolved user, and the extracted media in both `media` and `raw.media`; `raw` holds `Body`, the media, `From`, `FromCountry`, `FromCity`, `FromState`, `SmsSid` and `SmsMessageSid` |
| `Twilio.WebhookNoDispatch` | src/index.js:117-152 | when the signature is invalid or media extraction throws, nothing is dispatched |
| `Twilio.HandleWebhook` | src/index.js:114-164 | the effects performed and the new store are those of `Webhook` on the old store |

## Left out

- The HMAC signature check (`twilio.validateExpressRequest`) is a foreign library call. Its verdict is the `valid` input.
- The Twilio client and the network send are modelled only as the outcome of the send (`sendOk`). The code does no retries and handles no rejections.
- `extractNumber` comes from `./util`, which is not part of this model. It is an arbitrary function of the event's properties.
- `util.inspect` is an arbitrary function of the instruction. Only its place in the error message is modelled, not its formatting.
- `bp.db` is a map held by `UserStore`. A store failure cannot happen in the model, and the knex query is a map lookup.
- Concurrency and asynchrony are not modelled. Each handler's awaited steps run in order, so the race between two first contacts from the same number is not captured.
- The promise machinery is reduced to a pending, resolved or rejected state. The code never calls `_reject`.
- These parts are plumbing with no decisions in them: the Express router and body-parser setup, loading the configuration, building the TwiML document, debug logging, and the middleware's registration metadata (name, order 100, description).
- Numbers are integers, and `ToStr` always writes them in plain decimal. JavaScript writes magnitudes of 1e21 and above in exponent form (`String(1e21)` is `"1e+21"`). The adapter never converts such a number: webhook fields are strings, and media indices stay below 2^32. `parseInt` is exact, whereas JavaScript rounds results beyond 2^53; such values exceed the array-length bound anyway. White space is limited to the ASCII spaces, the no-break space, U+2028, U+2029 and U+FEFF.
- Property order of objects is not modelled, because maps are unordered.
- Property reads on values that are not plain objects (strings, functions) give `undefined` here.
- `Umm.RegisterConnector` does not hold the connector's `processOutgoing` closure, which adds `bp` to its arguments. The closure's behaviour is `Umm.ProcessOutgoing`.
- The return value of `next()` is not modelled.
- Twilio.UserStore.SaveUser: `bp.db.saveUser` is not part of this model. Two things are assumed about it: it files the record under `platform + ":" + id`, and it stores the object exactly as passed. `Twilio.NewUserFoundAgain` and the "same user" half of `Twilio.GetOrCreateIdempotent` rest on both. A store that wrote a row of another shape would make the second call return that row, with `id` rewritten, instead of the placeholder. What holds for any store is `Twilio.GetOrCreateIdIsNumber`.
- `blocName` is a string here, but `${blocName}` renders any value.
- The instruction is always an object. A `null` or `undefined` instruction, which throws a TypeError at `instruction.text` in the code, is not modelled.
- An event whose plain properties include `_promise`, `_resolve` or `_reject` is not represented. `Umm.Event` keeps those three apart from its properties, and the send stage reads only the separate fields.
