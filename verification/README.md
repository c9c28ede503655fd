# Push relay core, modelled in Dafny

The relay is a small HTTP service in front of a push-notification provider. It has two POST routes:

- `/send` delivers one notification to one device token.
- `/send_admins` broadcasts an admin-chat notification to every admin device except the sender's.

Both routes are gated by a shared API key. It may arrive in one of three headers or two query parameters. It is compared by exact equality with the configured `API_KEY`.

This project models the decisions these routes make. Each handler is a pure function from a request to a response, together with the gateway calls it makes, in order. The configured key, the admin token records read from the store, and the push gateway are parameters:

- the gateway's single-device `send` is a function `Message -> string` returning the message id;
- its multicast send is a function `(seq<string>, Payload) -> Counts`.

Modules, leaf to root:

- `Wrappers` (`wrappers.dfy`): `Option` and `Result`.
- `Seqs` (`seqs.dfy`): `Min`, `Flatten`, `TotalLength`.
- `JsValue` (`js_value.dfy`): the JSON values a body can carry, JavaScript truthiness, `x || d`, and `String(x)`.
- `Http` (`http.dfy`): request, reply envelope, response, and body-field access (`req.body || {}`).
- `Auth` (`auth.dfy`): `getApiKey` and the 500/401 prologue of both routes.
- `Batching` (`batching.dfy`): `sendToMany`, which cuts the token list into slices of at most 500, makes one multicast call per slice, and sums the counts.
- `AdminFilter` (`admin_filter.dfy`): the admin recipient filter.
- `Server` (`server.dfy`): body validation, message defaults, the 120-character preview, and both handlers.

Five behaviours of `server.js` are worth stating plainly, because they are easy to assume otherwise:

- The admin broadcast excludes the sender by exact, case-sensitive equality of the record's `email` with the body's `senderEmail`. It does not use an owner id or a case-insensitive match.
- The recipient list is not deduplicated. Two records with the same token give two entries.
- The sender check `email === senderEmail` is strict: a record's email string matches only a `senderEmail` that is the same string, never a number or other value.
- An empty recipient list is a 200 `{ok:true, sent:0, note:"No admin tokens"}` with no gateway call.
- `/send` checks only `to`. `title`, `body` and `data` get defaults.

## Model

| member | source | states |
|---|---|---|
| Batching.Chunks | server.js:51-54 | there are ceil(n/500) slices; there are none exactly when there are no tokens; every slice is non-empty and has at most 500 tokens; every slice but the last has exactly 500 |
| Batching.ChunksFlatten | server.js:51-54 | concatenating the slices gives back the token list, in order |
| Batching.TallyAppend | server.js:56-67 | summing the per-call counts over two runs of slices adds the two runs' sums, both for success and for failure |
| Batching.Tally | server.js:56-67 | the running totals start at zero for no slices, equal the single response for one slice, and include (are bounded below by) each slice's reported successes and failures; with `TallyAppend` this fixes them as the sum |
| Batching.SendToMany | server.js:49-70 | the slices handed to the gateway concatenate to the token list; one call per slice, ceil(n/500) calls; each slice has 1 to 500 tokens and all but the last exactly 500; an empty list makes no call and returns success 0 and failure 0 |
| Batching.SendToManyAccounts | server.js:59-69 | if every response's success plus failure equals its slice size, the returned success plus failure equals the token count |
| Batching.SendToManyBounded | server.js:59-69 | if no response reports more successes or failures than its slice has tokens, neither total exceeds the token count |
| Batching.SendToManyLoop | server.js:49-70 | the two loops (slice with `i += 500` and clamped `slice`, then add each response's counts) give the same calls and totals as the functional model |
| AdminFilter.AdminTokens | server.js:141-151 | the recipient list is no longer than the record list; every entry is a non-empty token; it is empty exactly when no record is kept (a kept record has a non-empty token and no truthy email equal to the sender's) |
| AdminFilter.KeptIndicesSound | server.js:141-151 | the recipient list has one entry per listed kept position, and entry k is the token of the record at the k-th position, which is a kept record |
| AdminFilter.KeptIndicesIncreasing | server.js:142-150 | the kept positions are strictly increasing, so recipients come out in record order |
| AdminFilter.KeptIndicesComplete | server.js:141-151 | every kept record's position is listed, so each kept record contributes an entry and a repeated token is not removed |
| AdminFilter.AdminTokensMembership | server.js:141-151 | a token is a recipient if and only if some kept record carries it |
| AdminFilter.AdminTokensAppend | server.js:142-151 | filtering two runs of records in sequence gives the two runs' recipient lists concatenated |
| Http.Field | server.js:92 | reading a field of `req.body \|\| {}` (also at line 127): a missing body, a non-object body or a missing key reads as undefined; otherwise the stored value |
| JsValue.ToJsString | server.js:157-166 | `String(x)`: a string is returned unchanged; the result is empty only for the empty string; a number prints as canonical decimal digits (no leading zero unless it is 0, a leading `-` when negative) that read back as its magnitude; booleans give "true"/"false", objects "[object Object]", undefined and null "undefined"/"null" |
| JsValue.NatToDecimalRoundTrip | server.js:157-166 | reading back the decimal digits printed for a natural number gives that number |
| Auth.FirstPresent | server.js:19-25 | the `a \|\| b \|\| ...` chain gives nothing exactly when every candidate is missing or empty; otherwise it gives a non-empty candidate that only missing or empty candidates precede |
| Auth.FirstPresentAt | server.js:19-25 | a non-empty candidate preceded only by missing or empty ones is the one chosen |
| Auth.GetApiKey | server.js:17-26 | the key, when there is one, is non-empty and is the value of one of the five sources; there is no key exactly when all five sources are missing or empty |
| Auth.GetApiKeyPriority | server.js:17-26 | the sources win in the order `x-api-key`, `api_key`, `key` headers, then `api_key`, `key` query parameters |
| Auth.Gate | server.js:84-88 | an unset or empty `API_KEY` gives 500 "Missing env: API_KEY"; otherwise the request proceeds exactly when the selected key equals `API_KEY`, and is refused with 401 "Unauthorized" when the key is missing or different |
| Auth.GateExactMatch | server.js:119-123 | with `API_KEY` configured, a request passes if and only if the first non-empty key source holds exactly the configured value |
| Auth.GateIgnoresBody | server.js:119-123 | the gate's outcome depends only on headers and query, never on the body |
| Server.ParseSendBody | server.js:92-95 | `/send` accepts a body exactly when its `to` field is a non-empty string; then it reads `to`, `title`, `body` and `data`; otherwise it rejects with "Missing 'to' token" |
| Server.MessageFor | server.js:97-105 | the message goes to `to` with high Android priority; a truthy title, body or data is kept unchanged; a falsy one becomes "Notification", "" or `{}` |
| Server.MessageDefaultsIdempotent | server.js:100-103 | applying the defaults to an already defaulted message changes nothing |
| Server.HandleSend | server.js:82-112 | a gate refusal is returned with no gateway call; an invalid body gives 400 with no call; the reply is 200 exactly when the request passes the gate and the body is valid, and then the one gateway call sends the defaulted message and the reply carries its id |
| Server.ParseAdminBody | server.js:127-132 | `/send_admins` accepts a body exactly when `senderEmail` and `text` are both truthy; otherwise it rejects with "Missing senderEmail/text" |
| Server.Preview | server.js:157 | the preview is the prefix of the text of length min(length, 120) |
| Server.PreviewStable | server.js:157 | the preview of a preview is the same preview; a text of at most 120 characters passes through whole |
| Server.AdminPayload | server.js:157-169 | the admin chat payload has the fixed title, high Android priority, a body that is the prefix of `String(text)` of length min(length, 120), and data with exactly the keys `type` = "admin_chat" and `senderEmail` = `String(senderEmail)` |
| Server.HandleSendAdmins | server.js:117-176 | a gate refusal or an invalid body (400) makes no gateway call; 200 exactly when the gate passes and the body is valid; then an empty recipient list gives "No admin tokens" with no call; otherwise total is the recipient count, success and failure come from `sendToMany`, and there is one multicast per slice of the recipient list |
| Server.NoDeliveryUnlessAccepted | server.js:82-155 | neither route calls the gateway unless it answers 200 |
| Server.RefusalIgnoresBody | server.js:119-132 | an unauthorised request gets the same reply and makes the same (no) gateway calls whatever its body: authorisation precedes validation |
| Server.CalledTokensOfMulticasts | server.js:59-63 | the tokens handed to the successive multicast calls, concatenated, are the slices concatenated |
| Server.AdminBroadcastRecipients | server.js:141-171 | a valid authorised broadcast sends to exactly the filtered recipient list, in order; every call is a multicast of 1 to 500 tokens |
| Server.AdminBroadcastContent | server.js:157-171 | every call of a valid authorised broadcast carries the admin chat title, high Android priority, the data `{type: "admin_chat", senderEmail: String(senderEmail)}` and a body that is a prefix of `String(text)` of at most 120 characters |
| Server.AdminBroadcastAccounts | server.js:171-172 | if every multicast response accounts for each token of its slice once, the broadcast's success plus failure equals its total |

## Left out

- Express, CORS, JSON body parsing, the port and `app.listen`: transport plumbing. A request arrives here with its body already parsed.
- `initFirebaseOnce`, its once-only flag, the Firebase credentials and the service-account JSON parsing: environment and SDK I/O. The model assumes the SDK starts successfully. `mustEnv("API_KEY")` is kept: the configured key is a parameter, and `""` stands for unset.
- The Firestore query itself. The admin records are a parameter, in store order. Their `token` and `email` fields are optional strings; non-string field values are not modelled.
- The 500 envelopes for exceptions thrown by the store or the gateway: the gateway functions are total, so no call in the model throws.
- `GET /`: its reply depends on the wall clock.
- Header-name case folding: header names are assumed already lower-case. Query parameters that repeat (and so arrive as arrays) are not modelled; every query value is a single string.
- JavaScript values: numbers are integers, so fractions and NaN are not modelled, and arrays are not modelled. String lengths count characters, not UTF-16 code units.
- JsValue.ToJsString: prints every integer in full decimal. JavaScript's `String` switches to exponent notation from 10^21 on, and `JSON.parse` rounds integers beyond 2^53 before `String` sees them; neither is modelled.
- JsValue.ToJsString: gives "[object Object]" for every object. An object with its own `toString` key that is not callable makes `String(text)` or `String(senderEmail)` throw, which the route answers with 500; the model instead answers 200, with the preview or `data.senderEmail` "[object Object]".
- Task-event classification, username-list delivery, owner-id lookups and the in-app notification log: these features are not in `server.js`, so there is no code to model.
