# express-github-webhook: the request pipeline, in Dafny

A model of the Express middleware of `index.js`: the `GithubWebhook(options)`
constructor, its `signData` and `verifySignature` helpers, and the handler
it returns. For each request the handler runs a short-circuiting sequence
of checks, and the request ends in one of four ways:

- **PassThrough**: the method is not `POST`, or the URL up to its first `?` is not the configured path. `next()` is called.
- **Rejected(message)**: `reportError`. A 400 reply `{error: message}` is sent, then one `'error'` emission carries `new Error(message)`, the request and the response.
- **Accepted(event, repo, payload)**: three emissions, then a 200 reply `{success: true}`. The emissions are `'*'` with (event, repo, payload), then `event` with (repo, payload), then `repo` with (event, payload).
- **Uncaught**: every check passed, but `payload.repository.name` throws a TypeError, because the payload is not an object, or its `repository` is missing, null or undefined. (A `repository` that is a string, number, boolean or array does not throw: its `name` is `undefined`, which becomes the key of the third emission.) Nothing more is emitted or sent.

Layout:

- `wrappers.dfy`: `Option` and `Result`.
- `js.dfy`: JavaScript values (`Value`), `Truthy`, `typeof`, reading a property, and `Runtime`. `Runtime` holds the host services as function-typed fields: HMAC-SHA1, `new Buffer(string)`, `Buffer.toString()`, the form `payload` field and `JSON.parse`.
- `verifier.dfy`: the lower-case hex form of a digest, `SignData`, `BufferEq` and `VerifySignature`, with their lemmas.
- `webhook.dfy`: `Configure`, the request view, the pure decision `Decide`, and two classes. `Handler` holds the configuration and the emission log; `Handle` runs the checks step by step. `ServerResponse` records what is sent. `Handle`'s postcondition ties both logs to `Decide`.
- `properties.dfy`: lemmas about `Decide` and `Configure`, plus a replay client (module `Replay`).

What this `index.js` does, and so what the model does:

- The header names are fixed (`x-github-delivery`, `x-github-event`, `x-hub-signature`).
- The signing function cannot be configured.
- The body is always read from the stream. There is no pre-parsed-body variant and no "Make sure body-parser is used" error.
- The wildcard emission carries (event, repo, payload), not (event, payload).
- A `repo`-keyed emission always happens.

The emission log records the raw `emit` arguments. An event type `"error"` or `"*"`, or a repository named that way, therefore shows up under that key exactly as `emit` would receive it.

## Model

| member | source | states |
|---|---|---|
| Verifier.Hex | index.js:16 | `digest('hex')` is two lower-case hex digits per digest byte |
| Verifier.UnHexHex | index.js:16 | the hex text of a digest reads back to the same digest bytes |
| Verifier.HexInjective | index.js:16 | two digests have the same hex text iff they are equal |
| Verifier.SignData | index.js:15-17 | the signature is 45 characters: `sha1=` then the 40-digit lower-case hex of the HMAC digest of the secret and data |
| Verifier.BufferEq | index.js:20 | buffers compare equal iff they hold the same bytes; lengths that differ give false |
| Verifier.VerifySignature | index.js:19-21 | true iff the bytes of the claimed signature equal the bytes of `signData(secret, data)` |
| Verifier.SignatureRoundTrip | index.js:15-21 | `verifySignature(s, d, signData(s, d))` holds for every secret and body |
| Verifier.LengthMismatchRejected | index.js:20 | a claimed signature whose encoding differs in length from the expected one is rejected |
| Verifier.VerifyIffExpected | index.js:15-21 | under an injective string encoding, verification succeeds iff the claimed signature is exactly `sha1=` + hex(HMAC) |
| Verifier.OtherBodyNeedsCollision | index.js:15-21 | a signature made over one body verifies another body iff their HMAC digests coincide |
| Webhook.DefaultSecret | index.js:32 | `options.secret \|\| ''` keeps a truthy secret; a missing or falsy secret gives the empty string |
| Webhook.WithDefaultSecret | index.js:32 | after the assignment the options object's `secret` is `options.secret \|\| ''`, the key set gains `secret`, and every other property is unchanged |
| Webhook.Configure | index.js:23-32 | a non-object throws TypeError `must provide an options object`; null throws when `path` is read; an object without a string `path` throws `must provide a 'path' option`; otherwise the path is kept and the secret is either truthy or `''` |
| Webhook.BeforeFirst | index.js:41 | `url.split('?').shift()` is the longest prefix of the URL without `?` |
| Webhook.RepositoryName | index.js:95 | `payload.repository.name` throws exactly when the payload is not an object, or its `repository` is missing, null or undefined; otherwise it gives the `name` property of an object `repository`, and `undefined` for any other `repository` |
| Js.Truthy | index.js:32 | a value is falsy exactly when it is `undefined`, `null`, `false`, `0` or `''` (JavaScript's ToBoolean, as used by `\|\|` and `&&`) |
| Js.TypeOf | index.js:24 | `typeof` is `"object"` exactly for null, arrays and objects, and `"undefined"` exactly for `undefined` |
| Js.GetProperty | index.js:28 | reading a property throws exactly on `undefined` and null; otherwise it gives the own property of an object, or `undefined` |
| Webhook.Header | index.js:56 | a header lookup gives the header's value when it was sent, and `undefined` otherwise |
| Webhook.Present | index.js:57 | a header passes `if (!value)` exactly when the value, as a JavaScript value, is truthy: sent and non-empty |
| Webhook.BeforeFirstIs | index.js:41 | `split('?').shift()` equals `p` iff `p` has no `?`, is a prefix of the URL, and ends at the URL's end or at a `?` |
| Webhook.RouteMatches | index.js:41 | the route matches iff the method is POST and the URL is the path (which has no `?`), alone or followed by `?` |
| Webhook.FieldText | index.js:86-90 | a missing form `payload` field reaches JSON.parse as the text `"undefined"`; a present one reaches it as its text |
| Webhook.PayloadText | index.js:83-87 | JSON.parse gets the form's `payload` field when the content type is exactly `application/x-www-form-urlencoded`, and the whole decoded body otherwise |
| Webhook.Decide | index.js:40-104 | pass-through iff the route does not match; a missing id is rejected first; acceptance or the uncaught TypeError happen only with both headers present, the body read and, with a secret, a verified signature; an accepted event carries the event header, the parsed payload and its `repository.name` |
| Webhook.ServerResponse.Send | index.js:47-49 | `res.status(s).send(b)` appends exactly one reply `(s, b)` |
| Webhook.Handler.constructor | index.js:35-38 | a new handler has the given configuration and an empty emission log |
| Webhook.Handler.Create | index.js:23-38 | the constructor fails with `Configure`'s error, or returns a fresh handler with `Configure`'s configuration and no emissions |
| Webhook.Handler.Emit | index.js:52 | `emit(key, ...args)` appends exactly that record to the log |
| Webhook.Handler.ReportError | index.js:45-53 | exactly one 400 reply `{error: message}` and exactly one `'error'` emission with `Error(message)`, the request and the response |
| Webhook.Handler.Handle | index.js:40-107 | `next()` is called iff the outcome is PassThrough. PassThrough and Uncaught change neither log. A rejection adds one 400 reply and one `'error'` emission with its message. An acceptance adds the `'*'`, event and repo emissions in that order, and then one 200 reply `{success: true}` |
| WebhookProperties.RoutePassThrough | index.js:41-43 | the request passes through iff the method is not POST or the pre-`?` URL differs from the path |
| WebhookProperties.BeforeFirstOfJoin | index.js:41 | the URL part before the first `?` of `p?q` is `p` when `p` has no `?` |
| WebhookProperties.QueryIgnored | index.js:41 | appending a query string to a query-free URL leaves the outcome unchanged |
| WebhookProperties.NoIdRejectedFirst | index.js:56-59 | on the route, a missing or empty delivery id is rejected with `No id found in the request`, whatever else the request holds |
| WebhookProperties.NoEventRejectedSecond | index.js:61-64 | with an id, a missing or empty event type is rejected with `No event found in the request` |
| WebhookProperties.NoSignatureRejectedThird | index.js:66-69 | with id and event, a truthy secret and a missing or empty signature is rejected with `No signature found in the request` |
| WebhookProperties.HeaderChecksPrecedeBody | index.js:56-72 | the three header rejections do not depend on the body or on any host service |
| WebhookProperties.FalsySecretIgnoresSignature | index.js:66-67 | with a falsy secret, the outcome is independent of the signature header and of the HMAC and encoding services (`verifySignature` is never relied on) |
| WebhookProperties.DefaultSecretDisablesSignatures | index.js:32 | options without a truthy secret get the empty secret, which is falsy |
| WebhookProperties.DefaultingIsIdempotent | index.js:28-32 | defaulting the secret twice changes nothing, and constructing from the defaulted options gives the same configuration |
| WebhookProperties.StreamErrorRejected | index.js:72-75 | after the header checks, a stream error is rejected with the error's own message |
| WebhookProperties.BadSignatureRejected | index.js:77-80 | with a secret, a signature that fails over the raw body bytes is rejected with `Failed to verify signature`, whatever the content type |
| WebhookProperties.ParseFailureRejected | index.js:83-93 | a payload text that the JSON parser refuses is rejected with the parser's message |
| WebhookProperties.AcceptedIff | index.js:40-104 | accepted with (event, repo, payload) iff all hold: the route matches; the id is present; the event header is `event` and non-empty; the body was read; with a secret, the signature is present and verifies over the raw bytes; JSON parses to `payload` (from the form `payload` field when the content type is exactly `application/x-www-form-urlencoded`, else from the whole body text); and `repository.name` is `repo` |
| WebhookProperties.UncaughtOnlyAfterChecks | index.js:95 | the uncaught TypeError happens only after every check and a successful parse, for a payload without a readable repository |
| WebhookProperties.PushDelivery | index.js:95 | an unsigned `push` delivery of `{"repository":{"name":"demo"}}` is accepted with repository `"demo"`; `Handle` then emits under `*`, `push` and `demo` in that order |
| Replay.HandleTwice | index.js:40-107 | handling an accepted request twice adds two full emission sets and one 200 reply on each response: nothing is deduplicated by delivery id |

## Left out

- HMAC-SHA1 (`crypto.createHmac`) is the `Runtime.hmacSha1` parameter. It is total and returns 20 bytes. The TypeError that createHmac throws for key types it does not accept, such as a truthy number secret, is not modelled.
- The constant-time behaviour of `buffer-equal-constant-time` is not modelled, because timing cannot be expressed here. `BufferEq` is equality of byte sequences with a length check first.
- `new Buffer(string)`, `Buffer.toString()`, `querystring.parse(...).payload` and `JSON.parse` are foreign code, given as `Runtime` parameters. A form with several `payload` fields is part of `formPayload`'s result, as the string JSON.parse receives. A missing field becomes the text `"undefined"`, as `String(undefined)` does.
- Reading the body through `req.pipe(bl(...))` is I/O and asynchronous. The body is an input: the bytes, or the stream error's message.
- Other requests' emissions can interleave between a request's header checks and its body callback; the model does not capture this. `Handle` runs the whole request at once.
- Express's `next` is represented by `Handle`'s boolean result. What `next()` returns is not modelled.
- The model does not record the order of the reply relative to the emissions, because the reply and the emissions go to two separate logs. The order within each log is modelled.
- Wiring the handler in as an EventEmitter and running listeners is runtime plumbing, so only the `emit` calls are recorded. Not modelled: listener exceptions, and Node throwing on an `'error'` emission that has no listener. EventEmitter turns a non-string key into a property key; the log keeps the raw key.
- Express's `res.status().send()` mechanics are reduced to recording the status and body.
- The handler reads `options` on every request. The model fixes `Config` at construction. Later mutation of the options object by the caller, and aliasing of that object, are not modelled. `WithDefaultSecret` gives the mutated options as a new value.
- `Configure`: covers only options that are JSON-like values or `undefined`. Functions, host objects, getters and inherited properties are not modelled. The TypeError message that the engine gives for `null` options is not modelled.
- Header values are single strings; Node's joining of repeated headers is not modelled. NaN is not a value of the model.
- The uncaught TypeError at `payload.repository.name` is the outcome `Uncaught`, with no effects. The model invents no handling for it.
