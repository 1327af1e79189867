/** The earlier client of src/fetch-cache.js: `get` prefixes the base url,
    sends a bearer token from `getAuthToken`, turns a response that is not
    ok into an error and otherwise yields the parsed JSON body. */
module FetchCache {
  import opened JsValues

  /** The second argument `get` passes to `fetch`: a method and headers,
      and nothing else (in particular no body). */
  datatype RequestInit = RequestInit(verb: string, headers: Headers)

  /** What the transport's response exposes, with `text` the body that
      `res.json()` reads. */
  datatype RawResponse = RawResponse(ok: bool, status: int, text: string)

  datatype FetchResult = Received(response: RawResponse) | Failed(error: JsError)

  /** The injected `fetch`, as the answer it gives to a url and an init. */
  type Responder = (string, RequestInit) -> FetchResult

  /** One call of `get` as a value: the single transport call it makes and
      how its promise settles. */
  datatype Exchange = Exchange(url: string, init: RequestInit, outcome: Result<Json>)

  /** `new Error()`: the rejection for a response that is not ok. */
  const NotOk := JsError("Error", "")

  const Authorization := "Authorization"

  /** The options `createClient` keeps: the base url, the transport and
      `JSON.parse` (which `res.json()` applies to the body). */
  datatype Client = Client(baseUrl: string, fetch: Responder, parse: string -> Result<Json>) {

    /** `get(path)`, where `token` is what `getAuthToken()` returned for
        this call. */
    function Get(token: string, path: string): (x: Exchange)
      ensures x.url == baseUrl + path
      ensures x.init.verb == "GET"
      ensures x.init.headers.Keys == {Authorization} && x.init.headers[Authorization] == "Bearer " + token
      ensures x.outcome.Ok? ==> fetch(x.url, x.init).Received? && fetch(x.url, x.init).response.ok
    {
      var url := baseUrl + path;
      var init := RequestInit("GET", map[Authorization := "Bearer " + token]);
      var outcome :=
        match fetch(url, init)
        case Failed(e) => Err(e)
        case Received(res) => if !res.ok then Err(NotOk) else parse(res.text);
      Exchange(url, init, outcome)
    }
  }

  /** A transport failure rejects `get` with that same error. */
  lemma GetPropagatesTransportError(c: Client, token: string, path: string)
    requires c.fetch(c.baseUrl + path, c.Get(token, path).init).Failed?
    ensures c.Get(token, path).outcome == Err(c.fetch(c.baseUrl + path, c.Get(token, path).init).error)
  {
  }

  /** A response that is not ok rejects with a plain `Error`, whatever its
      body and whatever the parser would make of it: the body is not read. */
  lemma GetRejectsNotOkUnparsed(c: Client, token: string, path: string, parse': string -> Result<Json>)
    requires c.fetch(c.baseUrl + path, c.Get(token, path).init).Received?
    requires !c.fetch(c.baseUrl + path, c.Get(token, path).init).response.ok
    ensures c.Get(token, path).outcome == Err(NotOk)
    ensures c.(parse := parse').Get(token, path) == c.Get(token, path)
  {
  }

  /** An ok response settles `get` with the parse of its body, a parse
      failure included. */
  lemma GetYieldsParsedBody(c: Client, token: string, path: string)
    requires c.fetch(c.baseUrl + path, c.Get(token, path).init).Received?
    requires c.fetch(c.baseUrl + path, c.Get(token, path).init).response.ok
    ensures c.Get(token, path).outcome == c.parse(c.fetch(c.baseUrl + path, c.Get(token, path).init).response.text)
  {
  }
}
