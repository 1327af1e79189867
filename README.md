# so-fetch: a verified model of the HTTP client pipeline

so-fetch wraps a `fetch`-style transport. `createClient` builds a client from a base URL, the
transport, an ordered list of request transformers and an ordered list of error listeners. Each
verb (`get`, `post`, `put`, `patch`, `delete`) does the same steps:

1. Assemble a request descriptor: the URL is `baseUrl + path`, the headers are copied from
   `config.headers`, and the body comes from `config.body` or from a JSON payload.
2. Fold the descriptor through the transformers.
3. Call the transport once.
4. Normalise the response into an envelope `{request, status, headers, url, data}`.
5. Resolve or reject with that envelope, depending on `ok`.
6. On any rejection, call every error listener, then rethrow the same value.

An earlier variant, `fetch-cache`, has one `get` that adds a bearer token and yields the parsed
JSON body.

The Dafny project has four modules:

- `JsValues` (`js_values.dfy`): shared JavaScript-side values.
  - Results of calls that may throw (`Result`, `JsError`).
  - JSON values and their truthiness.
  - Header objects (`map<string, string>`).
  - The JSON codec: `stringify` and a `parse` that may fail. Both are parameters.
- `SoFetch` (`so_fetch.dfy`): the model of src/so-fetch.js.
  - The data model (`Config`, `Request`, `RawResponse`, `Envelope`, `Rejection`, `Outcome`).
  - The pipeline as specification functions. `InitialRequest` builds the request.
    `ApplyTransformers` is the `reduce`. `Normalize` and `Receive` turn the response into an
    outcome. `Dispatch` is one whole run of `sendRequest`.
  - `NotifyListeners` is the `forEach` fan-out, written as a loop.
  - Two classes. `Transport` is the injected `fetch`: it answers by a fixed function and records
    every call. `Client` is the object `createClient` returns. Its `SendRequest` builds the request
    and the envelope step by step, as the source does, and is proved against `Dispatch`.
    `RequestWithErrorListener` and the five verbs are proved to settle as `Dispatch` says, with the
    listeners' effects.
- `SoFetchProperties` (`so_fetch_properties.dfy`): lemmas about the fold, about what the
  transport receives, and about how a call settles.
- `FetchCache` (`fetch_cache.dfy`): the model of src/fetch-cache.js, written as pure functions.
  `Client.Get` returns the single transport call it makes and the outcome. The token is the value
  `getAuthToken()` returned for that call.

Three functions that model source code have no row in the table below, because they carry no
contract of their own: `SoFetch.ApplyTransformers` (the `reduce`, src/so-fetch.js:24-26),
`SoFetch.Dispatch` (the whole of `sendRequest`, src/so-fetch.js:7-47) and `SoFetch.CallsOf` (the
transport calls one attempt makes). The lemmas in `SoFetchProperties` state their properties, and
the class methods are proved against them. The other members without a row are helpers of the
specification: `InitialHeaders`, `HasExplicitBody`, `HasPayload`, `BodyTruthy`, `JsonTruthy`,
`EnvelopeOf`, `Notified`, `Client.Expected`, `Client.Settled`, `ThenApply`, `Nested`, `Total`,
and the `Transport` constructor, which sets up an empty call log.

Where the code and the intended behaviour disagree, the model follows the code:

- The code leaves `data` unset when the body text is empty (src/so-fetch.js:36-40). The rule
  that an empty body gives `data: {}` is a design intention the code does not implement. The
  204 test at src/so-fetch.test.js:114-132 does not contradict the code: its mock's default
  `response = {}` (src/so-fetch.test.js:6, 13) makes the body text `"{}"`, so `data` is `{}`
  parsed from that text, and the test never sends an empty body.
- The code does not guard the listeners (src/so-fetch.js:53), so one that throws stops the rest.
- The comment at src/so-fetch.js:38 says the response text is kept in case `JSON.parse` fails.
  The code does not carry that out. The thrown SyntaxError replaces the envelope as the rejection
  value, so the raw text never reaches the caller. `Normalize` and `Receive` follow the code.

## Model

| member | source | states |
|---|---|---|
| `SoFetch.InitialRequest` | src/so-fetch.js:9-22 | The request keeps the given URL and method. It has a body exactly when `config.body` is truthy or the payload is truthy. A truthy `config.body` is used verbatim and the caller's headers stay as given. Otherwise a truthy payload becomes `stringify(payload)` with `Content-Type: application/json`. No header other than `Content-Type` is added or changed, and the headers differ from the caller's only when the JSON body was added. |
| `SoFetch.Normalize` | src/so-fetch.js:32-40 | The envelope carries the request it was given, plus the status, headers and URL of the response. `data` is present exactly when the body text is non-empty, and is then the parse of that text. Normalisation fails exactly when the text is non-empty and the parse fails, and then with the parse error. |
| `SoFetch.Receive` | src/so-fetch.js:30-46 | A transport failure rejects with that same error. The call resolves exactly when a response arrived, it is ok, and normalisation succeeded. Resolved or rejected, the outcome carries the normalised envelope. A parse failure rejects with the parse error in place of the envelope. |
| `SoFetch.NotifyListeners` | src/so-fetch.js:53 | Every listener is called once, in list order, with the rejection value. The effects appear in that order and there are no others. |
| `SoFetch.Transport.Fetch` | src/so-fetch.js:30 | One transport call. It is appended to the call log, and the answer is the transport's answer to that URL and request. |
| `SoFetch.Client.constructor` | src/so-fetch.js:1-6 | The client holds the base URL, the transport, the codec, and the given transformer and listener lists. |
| `SoFetch.Client.SendRequest` | src/so-fetch.js:7-47 | The step-by-step `sendRequest` settles exactly as `Dispatch` says. The transport log grows by exactly the one call `Dispatch` makes, and by none when a transformer failed. |
| `SoFetch.Client.RequestWithErrorListener` | src/so-fetch.js:49-56 | The outcome is `sendRequest`'s own, so a rejection is rethrown unchanged. On a resolution no listener runs. On a rejection every listener runs once, in order, with that value. |
| `SoFetch.Client.Get` | src/so-fetch.js:63-65 | Dispatches to `baseUrl + path` with method `GET` and no payload, then settles as `RequestWithErrorListener` does. |
| `SoFetch.Client.Post` | src/so-fetch.js:67-74 | Dispatches to `baseUrl + path` with method `POST` and the payload, then settles as `RequestWithErrorListener` does. |
| `SoFetch.Client.Put` | src/so-fetch.js:76-78 | Dispatches to `baseUrl + path` with method `PUT` and the payload, then settles as `RequestWithErrorListener` does. |
| `SoFetch.Client.Patch` | src/so-fetch.js:80-87 | Dispatches to `baseUrl + path` with method `PATCH` and the payload, then settles as `RequestWithErrorListener` does. |
| `SoFetch.Client.Delete` | src/so-fetch.js:89-91 | Dispatches to `baseUrl + path` with method `DELETE` and no payload, then settles as `RequestWithErrorListener` does. |
| `SoFetchProperties.TransformConcat` | src/so-fetch.js:24-26 | Folding over `ts1 + ts2` is folding over `ts1`, then over `ts2` starting from that result. A failure in `ts1` stops everything. |
| `SoFetchProperties.TransformLast` | src/so-fetch.js:24-26 | The last transformer receives the output of all earlier ones, and its answer is the pipeline's answer. |
| `SoFetchProperties.TransformStopsAtError` | src/so-fetch.js:24-26 | Once the pipeline has failed with an error, adding transformers after it changes nothing: the result is that same error. |
| `SoFetchProperties.TransformNested` | src/so-fetch.js:24-26 | For transformers that never fail, the fold yields exactly `t_n(...t_1(initial))`. An empty list leaves the request unchanged. |
| `SoFetchProperties.DispatchSendsFinalRequest` | src/so-fetch.js:24-30 | The transport is called exactly when every transformer succeeded, and then once, with the final request's URL and the final request itself. If a transformer fails, nothing is sent and the call rejects with that error. Any envelope the call settles with carries the request that was sent. |
| `SoFetchProperties.DispatchResolves` | src/so-fetch.js:28-46 | A call resolves exactly when four things hold: the request was sent, a response arrived, it is ok, and normalisation succeeded. |
| `SoFetchProperties.DispatchRejections` | src/so-fetch.js:24-46 | Every rejection is one of two kinds. (1) The envelope of a response that arrived but is not ok. (2) A thrown error, unchanged, that came from a transformer, the transport, or the JSON parse. |
| `SoFetchProperties.SameEnvelopeEitherWay` | src/so-fetch.js:42-46 | Flipping `ok` changes only whether the call resolves or rejects. The envelope is the same either way. |
| `SoFetchProperties.RewritingPipelineExample` | src/so-fetch.test.js:51-88 | The test's two transformers: one replaces the URL, the next adds an `authorization` header. The request the transport receives has the new URL, the caller's `myHeader` and the new header. |
| `FetchCache.Client.Get` | src/fetch-cache.js:4-19 | The single transport call goes to `baseUrl + path` with method `GET`. Its headers are exactly `Authorization: Bearer <token>`; there is no other header and no body. The call resolves only when a response arrived and it is ok. |
| `FetchCache.GetPropagatesTransportError` | src/fetch-cache.js:7-12 | A transport failure rejects `get` with that same error. |
| `FetchCache.GetRejectsNotOkUnparsed` | src/fetch-cache.js:13-15 | A response that is not ok rejects with a plain `Error`, and the result does not depend on the parser: the body is not parsed. |
| `FetchCache.GetYieldsParsedBody` | src/fetch-cache.js:17 | An ok response settles `get` with the parse of its body text. A parse failure is included. |

## Left out

- The network transport and the `window.fetch` default (src/so-fetch.js:3), which read ambient platform state. A transport is always passed in. The model's transport answers by a fixed function of URL and request, so a transport whose answers change from call to call is not captured.
- The `Response` and `Headers` objects of the platform. Response headers are a plain map, so their case-insensitive lookup is not modelled. Header insertion order is not modelled either.
- `JSON.stringify` and `JSON.parse`. They are parameters and are not defined. JSON numbers are integers: floating point, `NaN` and `-0` (all falsy cases of truthiness) are not modelled.
- Bodies other than text and form fields (Blob, FormData, streams).
- Request fields beyond url, method, headers and body. The model's request descriptor has exactly those four fields. In the source, a transformer returns `{...request, ...}` and may add any other fetch-init field (`credentials`, `mode`, `signal`). Such a field reaches the transport (src/so-fetch.js:30) and the envelope's `request`, and the model cannot express it.
- Promise and async machinery. An asynchronous transformer is a function that returns its result or its rejection. The promise chain is a sequential fold.
- A `text()` call that rejects while reading the body.
- Listener exceptions. A throwing listener at src/so-fetch.js:53 would stop the remaining listeners and replace the rejection. The model assumes listeners do not throw; each listener only produces its effect.
- The `data: {}` default for empty bodies, which the code does not implement; see above.
- A `null` config, which makes `config.headers` throw a TypeError in the source. An absent config is modelled as `Config(None, None)`, the `{}` default.
- Aliasing of the transformer and listener arrays. In the source, `sendRequest` and `requestWithErrorListener` read the very arrays given to `createClient` (src/so-fetch.js:4-5, 24, 53), and the returned object exposes references to them (src/so-fetch.js:58-61). The `Client` fields `requestTransformers` and `errorListeners` stand for those arrays' current contents. After a caller changes an array in place (`push`, `splice`), through the exposed property or through its own reference to the array it passed in, the model sees those fields updated. Assigning a new array to the exposed property has no effect on later calls in the source; the model does not capture that distinction, nor the caller-held alias. Changes made while a call is in flight are not captured either.
- That two identical calls give identical envelopes. This holds because `Dispatch` is a function, so no separate lemma states it.
- That the caller's `config.headers` are never changed. This follows from value semantics: the model's headers are values, not shared objects, so no separate lemma states it.
- In fetch-cache: `get` is not `async` (src/fetch-cache.js:4-7), so a `getAuthToken` or a `fetch` that throws synchronously makes `get` throw instead of returning a rejected promise. Only a rejected transport promise is modelled (`FetchCache.FetchResult.Failed`). Also left out: converting a token that is not a string to text; and the response status, which `get` never reads.
