/** The client built by `createClient` in src/so-fetch.js: request assembly,
    the request-transformer pipeline, one call of the injected transport,
    response normalisation, ok/not-ok classification and the error-listener
    fan-out. The transport and the JSON codec are parameters. */
module SoFetch {
  import opened JsValues

  const ContentType := "Content-Type"
  const JsonMediaType := "application/json"

  /** A body a caller may hand over in `config.body`: text, or form fields
      (a URLSearchParams object). */
  datatype Body = Text(text: string) | Form(fields: seq<(string, string)>)

  /** JavaScript truthiness of a body: the empty string is falsy, any
      object is truthy. */
  predicate BodyTruthy(b: Body) {
    match b
    case Text(s) => s != ""
    case Form(_) => true
  }

  /** The optional `config` argument of the verbs. An absent argument is
      `Config(None, None)`, the `{}` default of sendRequest. */
  datatype Config = Config(headers: Option<Headers>, body: Option<Body>)

  /** The request descriptor that transformers rewrite and the transport
      receives; `verb` holds the HTTP method string. */
  datatype Request = Request(url: string, verb: string, headers: Headers, body: Option<Body>)

  /** What the transport's response exposes to the client, with the body
      already read by `text()`. */
  datatype RawResponse = RawResponse(ok: bool, status: int, headers: Headers, url: string, text: string)

  /** The settled promise of one transport call. */
  datatype FetchResult = Received(response: RawResponse) | Failed(error: JsError)

  /** The injected `fetch`, as the answer it gives to a url and a request. */
  type Responder = (string, Request) -> FetchResult

  /** A request transformer; an `Err` is the transformer throwing or its
      promise rejecting. */
  type Transformer = Request -> Result<Request>

  /** The normalised response; `data` is absent when the body text is empty. */
  datatype Envelope = Envelope(request: Request, status: int, headers: Headers, url: string, data: Option<Json>)

  /** A rejection value: the envelope itself for a response that is not ok,
      or whatever was thrown along the way. */
  datatype Rejection = HttpFailure(envelope: Envelope) | Thrown(error: JsError)

  datatype Outcome = Resolved(envelope: Envelope) | Rejected(reason: Rejection)

  /** What an error listener leaves behind (a log line, a redirect target);
      listeners are called only for this effect. */
  type Effect = string

  type ErrorListener = Rejection -> Effect

  /** One run of sendRequest as a value: the request handed to the
      transport, if the pipeline got that far, and how the call settled. */
  datatype Attempt = Attempt(sent: Option<Request>, outcome: Outcome)

  /** `config && config.body`. */
  predicate HasExplicitBody(config: Config) {
    config.body.Some? && BodyTruthy(config.body.value)
  }

  /** `if (payload)`, where an absent payload is `undefined`. */
  predicate HasPayload(payload: Option<Json>) {
    payload.Some? && JsonTruthy(payload.value)
  }

  /** `{ ...config.headers }`. */
  function InitialHeaders(config: Config): Headers {
    if config.headers.Some? then config.headers.value else map[]
  }

  /** The request sendRequest builds before any transformer runs. */
  function InitialRequest(url: string, verb: string, config: Config, payload: Option<Json>,
                          stringify: Json -> string): (r: Request)
    ensures r.url == url && r.verb == verb
    ensures r.body.Some? <==> HasExplicitBody(config) || HasPayload(payload)
    ensures HasExplicitBody(config) ==> r.body == config.body && r.headers == InitialHeaders(config)
    ensures !HasExplicitBody(config) && HasPayload(payload) ==>
              r.body == Some(Text(stringify(payload.value))) &&
              ContentType in r.headers && r.headers[ContentType] == JsonMediaType
    ensures forall k :: k in InitialHeaders(config) && k != ContentType ==>
              k in r.headers && r.headers[k] == InitialHeaders(config)[k]
    ensures r.headers.Keys <= InitialHeaders(config).Keys + {ContentType}
    ensures r.headers != InitialHeaders(config) ==>
              HasPayload(payload) && r.body == Some(Text(stringify(payload.value)))
  {
    var headers := InitialHeaders(config);
    if HasExplicitBody(config) then Request(url, verb, headers, config.body)
    else if HasPayload(payload) then
      Request(url, verb, headers[ContentType := JsonMediaType], Some(Text(stringify(payload.value))))
    else Request(url, verb, headers, None)
  }

  /** The `reduce` over the transformers: each one receives the previous
      one's output, and the first failure skips all that follow. */
  function ApplyTransformers(ts: seq<Transformer>, req: Request): Result<Request>
    decreases |ts|
  {
    if ts == [] then Ok(req)
    else match ts[0](req)
      case Err(e) => Err(e)
      case Ok(next) => ApplyTransformers(ts[1..], next)
  }

  /** The envelope built from the transport's response, or the error that
      `JSON.parse` threw on a non-empty body. */
  function Normalize(request: Request, raw: RawResponse, parse: string -> Result<Json>): (r: Result<Envelope>)
    ensures r.Ok? ==> r.value.request == request && r.value.status == raw.status &&
                      r.value.headers == raw.headers && r.value.url == raw.url
    ensures r.Ok? ==> (r.value.data.Some? <==> raw.text != "")
    ensures r.Ok? && raw.text != "" ==> parse(raw.text) == Ok(r.value.data.value)
    ensures r.Err? <==> raw.text != "" && parse(raw.text).Err?
    ensures r.Err? ==> r.error == parse(raw.text).error
  {
    if raw.text == "" then Ok(Envelope(request, raw.status, raw.headers, raw.url, None))
    else match parse(raw.text)
      case Err(e) => Err(e)
      case Ok(data) => Ok(Envelope(request, raw.status, raw.headers, raw.url, Some(data)))
  }

  /** The envelope an outcome carries, whichever way it settled. */
  function EnvelopeOf(o: Outcome): Option<Envelope> {
    match o
    case Resolved(e) => Some(e)
    case Rejected(HttpFailure(e)) => Some(e)
    case Rejected(Thrown(_)) => None
  }

  /** How sendRequest settles once the transport has answered `request`. */
  function Receive(request: Request, answer: FetchResult, parse: string -> Result<Json>): (o: Outcome)
    ensures answer.Failed? ==> o == Rejected(Thrown(answer.error))
    ensures o.Resolved? <==>
              answer.Received? && answer.response.ok && Normalize(request, answer.response, parse).Ok?
    ensures answer.Received? && Normalize(request, answer.response, parse).Ok? ==>
              EnvelopeOf(o) == Some(Normalize(request, answer.response, parse).value)
    ensures answer.Received? && Normalize(request, answer.response, parse).Err? ==>
              o == Rejected(Thrown(Normalize(request, answer.response, parse).error))
  {
    match answer
    case Failed(e) => Rejected(Thrown(e))
    case Received(raw) =>
      match Normalize(request, raw, parse)
      case Err(e) => Rejected(Thrown(e))
      case Ok(env) => if raw.ok then Resolved(env) else Rejected(HttpFailure(env))
  }

  /** What one run of sendRequest does, given the transformers, the
      transport and the codec. */
  function Dispatch(ts: seq<Transformer>, respond: Responder, json: JsonCodec,
                    url: string, verb: string, config: Config, payload: Option<Json>): Attempt
  {
    match ApplyTransformers(ts, InitialRequest(url, verb, config, payload, json.stringify))
    case Err(e) => Attempt(None, Rejected(Thrown(e)))
    case Ok(req) => Attempt(Some(req), Receive(req, respond(req.url, req), json.parse))
  }

  /** The transport calls one attempt makes. */
  function CallsOf(x: Attempt): seq<(string, Request)> {
    if x.sent.Some? then [(x.sent.value.url, x.sent.value)] else []
  }

  /** Every listener was called once, in list order, with `value`. */
  predicate Notified(listeners: seq<ErrorListener>, value: Rejection, effects: seq<Effect>) {
    |effects| == |listeners| &&
    forall i :: 0 <= i < |listeners| ==> effects[i] == listeners[i](value)
  }

  /** `errorListeners.forEach((fn) => fn(errorResponse))`. */
  method NotifyListeners(listeners: seq<ErrorListener>, value: Rejection) returns (effects: seq<Effect>)
    ensures Notified(listeners, value, effects)
  {
    effects := [];
    for i := 0 to |listeners|
      invariant |effects| == i
      invariant forall j :: 0 <= j < i ==> effects[j] == listeners[j](value)
    {
      effects := effects + [listeners[i](value)];
    }
  }

  /** The injected `fetch`: it answers as `respond` says and every call is
      recorded in `calls`. */
  class Transport {
    const respond: Responder
    var calls: seq<(string, Request)>

    constructor (respond: Responder)
      ensures this.respond == respond && calls == []
    {
      this.respond := respond;
      calls := [];
    }

    method Fetch(url: string, init: Request) returns (answer: FetchResult)
      modifies this
      ensures calls == old(calls) + [(url, init)]
      ensures answer == respond(url, init)
    {
      calls := calls + [(url, init)];
      answer := respond(url, init);
    }
  }

  /** The object `createClient` returns. `requestTransformers` and
      `errorListeners` stand for the current contents of the two arrays it
      was created with: the client reads those same arrays on every call,
      so pushing onto or splicing them between calls changes what later
      calls do. Assigning a new array to the exposed property has no such
      effect in JavaScript. */
  class Client {
    const baseUrl: string
    const transport: Transport
    const json: JsonCodec
    var requestTransformers: seq<Transformer>
    var errorListeners: seq<ErrorListener>

    constructor (baseUrl: string, transport: Transport, json: JsonCodec,
                 requestTransformers: seq<Transformer>, errorListeners: seq<ErrorListener>)
      ensures this.baseUrl == baseUrl && this.transport == transport && this.json == json
      ensures this.requestTransformers == requestTransformers && this.errorListeners == errorListeners
    {
      this.baseUrl := baseUrl;
      this.transport := transport;
      this.json := json;
      this.requestTransformers := requestTransformers;
      this.errorListeners := errorListeners;
    }

    /** The attempt sendRequest makes with the current transformers. */
    function Expected(url: string, verb: string, config: Config, payload: Option<Json>): Attempt
      reads this
    {
      Dispatch(requestTransformers, transport.respond, json, url, verb, config, payload)
    }

    /** A call settled as it should: the outcome is the expected one, the
        transport saw exactly the expected calls since `before`, and the
        listeners ran, once each and in order, exactly when it was rejected. */
    predicate Settled(url: string, verb: string, config: Config, payload: Option<Json>,
                      before: seq<(string, Request)>, outcome: Outcome, effects: seq<Effect>)
      reads this, transport
    {
      && outcome == Expected(url, verb, config, payload).outcome
      && transport.calls == before + CallsOf(Expected(url, verb, config, payload))
      && (outcome.Resolved? ==> effects == [])
      && (outcome.Rejected? ==> Notified(errorListeners, outcome.reason, effects))
    }

    method SendRequest(url: string, verb: string, config: Config, payload: Option<Json>)
      returns (outcome: Outcome)
      modifies transport
      ensures outcome == Expected(url, verb, config, payload).outcome
      ensures transport.calls == old(transport.calls) + CallsOf(Expected(url, verb, config, payload))
    {
      var request := Request(url, verb, if config.headers.Some? then config.headers.value else map[], None);
      if config.body.Some? && BodyTruthy(config.body.value) {
        request := request.(body := config.body);
      } else if payload.Some? && JsonTruthy(payload.value) {
        request := request.(body := Some(Text(json.stringify(payload.value))));
        request := request.(headers := request.headers[ContentType := JsonMediaType]);
      }

      var transformed := ApplyTransformers(requestTransformers, request);
      if transformed.Err? {
        return Rejected(Thrown(transformed.error));
      }
      request := transformed.value;

      var answer := transport.Fetch(request.url, request);
      if answer.Failed? {
        return Rejected(Thrown(answer.error));
      }
      var res := answer.response;

      var data: Option<Json> := None;
      if res.text != "" {
        var parsed := json.parse(res.text);
        if parsed.Err? {
          return Rejected(Thrown(parsed.error));
        }
        data := Some(parsed.value);
      }
      var response := Envelope(request, res.status, res.headers, res.url, data);

      if !res.ok {
        outcome := Rejected(HttpFailure(response));
      } else {
        outcome := Resolved(response);
      }
    }

    method RequestWithErrorListener(url: string, verb: string, config: Config, payload: Option<Json>)
      returns (outcome: Outcome, effects: seq<Effect>)
      modifies transport
      ensures Settled(url, verb, config, payload, old(transport.calls), outcome, effects)
    {
      outcome := SendRequest(url, verb, config, payload);
      effects := [];
      if outcome.Rejected? {
        effects := NotifyListeners(errorListeners, outcome.reason);
      }
    }

    method Get(path: string, config: Config) returns (outcome: Outcome, effects: seq<Effect>)
      modifies transport
      ensures Settled(baseUrl + path, "GET", config, None, old(transport.calls), outcome, effects)
    {
      outcome, effects := RequestWithErrorListener(baseUrl + path, "GET", config, None);
    }

    method Post(path: string, body: Option<Json>, config: Config) returns (outcome: Outcome, effects: seq<Effect>)
      modifies transport
      ensures Settled(baseUrl + path, "POST", config, body, old(transport.calls), outcome, effects)
    {
      outcome, effects := RequestWithErrorListener(baseUrl + path, "POST", config, body);
    }

    method Put(path: string, body: Option<Json>, config: Config) returns (outcome: Outcome, effects: seq<Effect>)
      modifies transport
      ensures Settled(baseUrl + path, "PUT", config, body, old(transport.calls), outcome, effects)
    {
      outcome, effects := RequestWithErrorListener(baseUrl + path, "PUT", config, body);
    }

    method Patch(path: string, body: Option<Json>, config: Config) returns (outcome: Outcome, effects: seq<Effect>)
      modifies transport
      ensures Settled(baseUrl + path, "PATCH", config, body, old(transport.calls), outcome, effects)
    {
      outcome, effects := RequestWithErrorListener(baseUrl + path, "PATCH", config, body);
    }

    method Delete(path: string, config: Config) returns (outcome: Outcome, effects: seq<Effect>)
      modifies transport
      ensures Settled(baseUrl + path, "DELETE", config, None, old(transport.calls), outcome, effects)
    {
      outcome, effects := RequestWithErrorListener(baseUrl + path, "DELETE", config, None);
    }
  }
}
