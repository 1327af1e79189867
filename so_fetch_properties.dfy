/** Properties of the so-fetch pipeline: the transformer fold, what the
    transport receives, and how a call settles. */
module SoFetchProperties {
  import opened JsValues
  import opened SoFetch

  /** Runs the rest of a pipeline on the result so far. */
  function ThenApply(r: Result<Request>, ts: seq<Transformer>): Result<Request> {
    match r
    case Ok(req) => ApplyTransformers(ts, req)
    case Err(e) => Err(e)
  }

  /** Running two transformer lists one after the other is running their
      concatenation. */
  lemma {:induction false} TransformConcat(ts1: seq<Transformer>, ts2: seq<Transformer>, req: Request)
    ensures ApplyTransformers(ts1 + ts2, req) == ThenApply(ApplyTransformers(ts1, req), ts2)
    decreases |ts1|
  {
    if ts1 == [] {
      assert ts1 + ts2 == ts2;
    } else {
      assert (ts1 + ts2)[0] == ts1[0];
      assert (ts1 + ts2)[1..] == ts1[1..] + ts2;
      match ts1[0](req)
      case Err(_) =>
      case Ok(next) => TransformConcat(ts1[1..], ts2, next);
    }
  }

  /** The last transformer receives the output of all that precede it, and
      its answer is the pipeline's answer. */
  lemma TransformLast(ts: seq<Transformer>, t: Transformer, req: Request)
    ensures ApplyTransformers(ts + [t], req) ==
            match ApplyTransformers(ts, req)
            case Ok(r) => t(r)
            case Err(e) => Err(e)
  {
    TransformConcat(ts, [t], req);
    match ApplyTransformers(ts, req)
    case Err(_) =>
    case Ok(r) =>
      assert [t][1..] == [];
      match t(r)
      case Err(_) =>
      case Ok(next) => assert ApplyTransformers([t][1..], next) == Ok(next);
  }

  /** Once a transformer fails, the pipeline fails with that error whatever
      transformers come after it. */
  lemma TransformStopsAtError(ts: seq<Transformer>, rest: seq<Transformer>, req: Request, e: JsError)
    requires ApplyTransformers(ts, req) == Err(e)
    ensures ApplyTransformers(ts + rest, req) == Err(e)
  {
    TransformConcat(ts, rest, req);
  }

  /** `t_n(...t_1(req))`: transformers that never fail, given by the plain
      functions they compute, applied last-outermost. */
  function Nested(fs: seq<Request -> Request>, req: Request): Request
    decreases |fs|
  {
    if fs == [] then req else fs[|fs| - 1](Nested(fs[..|fs| - 1], req))
  }

  /** Each transformer in `ts` succeeds with what the matching `fs` computes. */
  ghost predicate Total(ts: seq<Transformer>, fs: seq<Request -> Request>) {
    |ts| == |fs| && forall i, r :: 0 <= i < |ts| ==> ts[i](r) == Ok(fs[i](r))
  }

  /** With transformers that never fail, the fold dispatches exactly
      `t_n(...t_1(initial))`; an empty list leaves the request as it is. */
  lemma {:induction false} TransformNested(ts: seq<Transformer>, fs: seq<Request -> Request>, req: Request)
    requires Total(ts, fs)
    ensures ApplyTransformers(ts, req) == Ok(Nested(fs, req))
    decreases |ts|
  {
    if ts != [] {
      var n := |ts| - 1;
      assert Total(ts[..n], fs[..n]) by {
        forall i, r | 0 <= i < n ensures ts[..n][i](r) == Ok(fs[..n][i](r)) {
          assert ts[..n][i] == ts[i] && fs[..n][i] == fs[i];
        }
      }
      TransformNested(ts[..n], fs[..n], req);
      assert ts == ts[..n] + [ts[n]];
      TransformLast(ts[..n], ts[n], req);
    }
  }

  /** The transport is called only when every transformer succeeded, and
      then with the final request and its own url; whatever envelope comes
      back carries that same request. */
  lemma DispatchSendsFinalRequest(ts: seq<Transformer>, respond: Responder, json: JsonCodec,
                                  url: string, verb: string, config: Config, payload: Option<Json>)
    ensures var x := Dispatch(ts, respond, json, url, verb, config, payload);
            var t := ApplyTransformers(ts, InitialRequest(url, verb, config, payload, json.stringify));
            && (x.sent.Some? <==> t.Ok?)
            && (t.Ok? ==> x.sent == Some(t.value) && CallsOf(x) == [(t.value.url, t.value)])
            && (t.Err? ==> CallsOf(x) == [] && x.outcome == Rejected(Thrown(t.error)))
            && (EnvelopeOf(x.outcome).Some? ==> x.sent.Some? && EnvelopeOf(x.outcome).value.request == x.sent.value)
  {
  }

  /** A call resolves exactly when the pipeline, the transport and the
      parse all succeeded and the response is ok; the envelope is then the
      request sent plus status, headers and url copied from the response,
      and data parsed from a non-empty body. */
  lemma DispatchResolves(ts: seq<Transformer>, respond: Responder, json: JsonCodec,
                         url: string, verb: string, config: Config, payload: Option<Json>)
    ensures var x := Dispatch(ts, respond, json, url, verb, config, payload);
            x.outcome.Resolved? <==>
              && x.sent.Some?
              && respond(x.sent.value.url, x.sent.value).Received?
              && respond(x.sent.value.url, x.sent.value).response.ok
              && Normalize(x.sent.value, respond(x.sent.value.url, x.sent.value).response, json.parse).Ok?
  {
  }

  /** Every rejection is one of two kinds: the envelope of a response that
      is not ok, or a thrown error, unchanged, whose source is one of three:
      a transformer, the transport or the JSON parse. */
  lemma DispatchRejections(ts: seq<Transformer>, respond: Responder, json: JsonCodec,
                           url: string, verb: string, config: Config, payload: Option<Json>)
    ensures var x := Dispatch(ts, respond, json, url, verb, config, payload);
            var t := ApplyTransformers(ts, InitialRequest(url, verb, config, payload, json.stringify));
            && (x.outcome.Rejected? && x.outcome.reason.HttpFailure? ==>
                  && x.sent.Some?
                  && respond(x.sent.value.url, x.sent.value).Received?
                  && !respond(x.sent.value.url, x.sent.value).response.ok
                  && Normalize(x.sent.value, respond(x.sent.value.url, x.sent.value).response, json.parse)
                     == Ok(x.outcome.reason.envelope))
            && (x.outcome.Rejected? && x.outcome.reason.Thrown? ==>
                  || t == Err(x.outcome.reason.error)
                  || (x.sent.Some? && respond(x.sent.value.url, x.sent.value) == Failed(x.outcome.reason.error))
                  || (x.sent.Some? && respond(x.sent.value.url, x.sent.value).Received? &&
                      Normalize(x.sent.value, respond(x.sent.value.url, x.sent.value).response, json.parse)
                      == Err(x.outcome.reason.error)))
  {
  }

  /** Whether the response is ok changes only which way the call settles,
      never the envelope it settles with. */
  lemma SameEnvelopeEitherWay(request: Request, raw: RawResponse, parse: string -> Result<Json>)
    requires Normalize(request, raw, parse).Ok?
    ensures Receive(request, Received(raw.(ok := true)), parse) == Resolved(Normalize(request, raw, parse).value)
    ensures Receive(request, Received(raw.(ok := false)), parse) ==
            Rejected(HttpFailure(Normalize(request, raw, parse).value))
  {
  }

  /** The two transformers of the request-rewriting test: one replaces the
      url, the next adds an authorization header; the transport sees both
      rewrites and the caller's own header. */
  lemma RewritingPipelineExample(stringify: Json -> string, token: string)
    ensures var initial := InitialRequest("http://localhost:3000/api", "GET",
                                          Config(Some(map["myHeader" := "myHeaderValue"]), None), None, stringify);
            var setUrl := (r: Request) => Ok(r.(url := "http://localhost:1234/foo"));
            var addAuth := (r: Request) => Ok(r.(headers := r.headers["authorization" := "bearer " + token]));
            ApplyTransformers([setUrl, addAuth], initial) ==
              Ok(Request("http://localhost:1234/foo", "GET",
                         map["myHeader" := "myHeaderValue", "authorization" := "bearer " + token], None))
  {
    var initial := InitialRequest("http://localhost:3000/api", "GET",
                                  Config(Some(map["myHeader" := "myHeaderValue"]), None), None, stringify);
    var setUrl := (r: Request) => Ok(r.(url := "http://localhost:1234/foo"));
    var addAuth := (r: Request) => Ok(r.(headers := r.headers["authorization" := "bearer " + token]));
    TransformNested([setUrl, addAuth],
                    [(r: Request) => r.(url := "http://localhost:1234/foo"),
                     (r: Request) => r.(headers := r.headers["authorization" := "bearer " + token])],
                    initial);
  }
}
