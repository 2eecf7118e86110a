/**
 * What `githookHandler` promises, stated over `Decide`: the route check,
 * the order of the header checks, the role of the secret, the error
 * messages of each stage, where the payload comes from, and when an event
 * is accepted. `Handler.Handle` turns each outcome into its effects.
 */
module WebhookProperties {
  import opened Wrappers
  import opened Js
  import opened Verifier
  import opened Webhook

  /** The request with its signature header set to `sig`, or removed when `sig` is None. */
  function WithSignatureHeader(req: Request, sig: Option<string>): Request {
    match sig
    case None => req.(headers := req.headers - {SignatureHeader})
    case Some(s) => req.(headers := req.headers[SignatureHeader := s])
  }

  /** The request with its content-type header set to `contentType`. */
  function WithContentType(req: Request, contentType: string): Request {
    req.(headers := req.headers[ContentTypeHeader := contentType])
  }

  /** Only a POST to the configured path is handled; everything else goes to next(). */
  lemma RoutePassThrough(cfg: Config, rt: Runtime, req: Request)
    ensures Decide(cfg, rt, req) == PassThrough
        <==> req.httpMethod != "POST" || BeforeFirst(req.url, '?') != cfg.path
  {
  }

  lemma {:induction false} BeforeFirstOfJoin(p: string, sep: char, q: string)
    requires sep !in p
    ensures BeforeFirst(p + [sep] + q, sep) == p
  {
    if p != [] {
      assert (p + [sep] + q)[1..] == p[1..] + [sep] + q;
      BeforeFirstOfJoin(p[1..], sep, q);
    }
  }

  /** A query string after the path changes nothing. */
  lemma QueryIgnored(cfg: Config, rt: Runtime, req: Request, query: string)
    requires '?' !in req.url
    ensures Decide(cfg, rt, req.(url := req.url + "?" + query)) == Decide(cfg, rt, req)
  {
    BeforeFirstOfJoin(req.url, '?', query);
    BeforeFirstOfJoin(req.url, '?', []);
    assert req.url + "?" + query == req.url + ['?'] + query;
    assert req.url + ['?'] + [] == req.url + ['?'];
  }

  /** A missing or empty delivery id is rejected before anything else is looked at. */
  lemma NoIdRejectedFirst(cfg: Config, rt: Runtime, req: Request)
    requires RouteMatches(cfg, req) && !Present(Header(req, DeliveryHeader))
    ensures Decide(cfg, rt, req) == Rejected(NoIdMessage)
  {
  }

  /** With a delivery id, a missing or empty event type is rejected next. */
  lemma NoEventRejectedSecond(cfg: Config, rt: Runtime, req: Request)
    requires RouteMatches(cfg, req) && Present(Header(req, DeliveryHeader))
    requires !Present(Header(req, EventHeader))
    ensures Decide(cfg, rt, req) == Rejected(NoEventMessage)
  {
  }

  /** With both, a configured secret and a missing or empty signature is rejected third. */
  lemma NoSignatureRejectedThird(cfg: Config, rt: Runtime, req: Request)
    requires RouteMatches(cfg, req) && Present(Header(req, DeliveryHeader)) && Present(Header(req, EventHeader))
    requires Truthy(cfg.secret) && !Present(Header(req, SignatureHeader))
    ensures Decide(cfg, rt, req) == Rejected(NoSignatureMessage)
  {
  }

  /** The header checks come before the body is read: their rejections do not depend on the body or the runtime. */
  lemma HeaderChecksPrecedeBody(cfg: Config, rt: Runtime, req: Request, rt': Runtime, body: Body)
    requires RouteMatches(cfg, req)
    requires || !Present(Header(req, DeliveryHeader))
             || !Present(Header(req, EventHeader))
             || (Truthy(cfg.secret) && !Present(Header(req, SignatureHeader)))
    ensures Decide(cfg, rt', req.(body := body)) == Decide(cfg, rt, req)
    ensures Decide(cfg, rt, req) in {Rejected(NoIdMessage), Rejected(NoEventMessage), Rejected(NoSignatureMessage)}
  {
  }

  /**
   * Without a secret the signature plays no part: the outcome is the same
   * whatever the signature header holds and whatever HMAC and encoding the
   * runtime provides, so verifySignature is never consulted.
   */
  lemma FalsySecretIgnoresSignature(cfg: Config, rt: Runtime, req: Request,
                                    sig: Option<string>, hmac: (Value, Bytes) -> Digest, encode: string -> Bytes)
    requires !Truthy(cfg.secret)
    ensures Decide(cfg, rt.(hmacSha1 := hmac, encodeUtf8 := encode), WithSignatureHeader(req, sig))
         == Decide(cfg, rt, req)
  {
    var req' := WithSignatureHeader(req, sig);
    assert Header(req', DeliveryHeader) == Header(req, DeliveryHeader);
    assert Header(req', EventHeader) == Header(req, EventHeader);
    assert Header(req', ContentTypeHeader) == Header(req, ContentTypeHeader);
  }

  /** Options without a truthy secret give the empty secret, which disables signatures. */
  lemma DefaultSecretDisablesSignatures(options: Value)
    requires Configure(options).Ok?
    requires "secret" !in options.fields || !Truthy(options.fields["secret"])
    ensures Configure(options).value.secret == Str("") && !Truthy(Configure(options).value.secret)
  {
  }

  /** The constructor's assignment to `options.secret` is stable: constructing again gives the same configuration. */
  lemma DefaultingIsIdempotent(options: Value)
    requires options.Obj?
    ensures WithDefaultSecret(WithDefaultSecret(options)) == WithDefaultSecret(options)
    ensures Configure(WithDefaultSecret(options)) == Configure(options)
  {
    var w := WithDefaultSecret(options);
    assert w.fields["secret"] == DefaultSecret(options);
    if "path" in options.fields {
      assert w.fields["path"] == options.fields["path"];
    }
  }

  /** A body stream that fails, once the headers are fine, is rejected with the stream's own message. */
  lemma StreamErrorRejected(cfg: Config, rt: Runtime, req: Request)
    requires RouteMatches(cfg, req) && Present(Header(req, DeliveryHeader)) && Present(Header(req, EventHeader))
    requires Truthy(cfg.secret) ==> Present(Header(req, SignatureHeader))
    requires req.body.Failed?
    ensures Decide(cfg, rt, req) == Rejected(req.body.message)
  {
  }

  /**
   * With a secret, a signature that does not verify over the RAW body bytes
   * is rejected, whatever the content type says about the payload.
   */
  lemma BadSignatureRejected(cfg: Config, rt: Runtime, req: Request, contentType: string)
    requires RouteMatches(cfg, req) && Present(Header(req, DeliveryHeader)) && Present(Header(req, EventHeader))
    requires Truthy(cfg.secret) && Present(Header(req, SignatureHeader))
    requires req.body.Received?
    requires !VerifySignature(rt, cfg.secret, req.body.data, Header(req, SignatureHeader).value)
    ensures Decide(cfg, rt, req) == Rejected(BadSignatureMessage)
    ensures Decide(cfg, rt, WithContentType(req, contentType)) == Rejected(BadSignatureMessage)
  {
    var req' := WithContentType(req, contentType);
    assert Header(req', DeliveryHeader) == Header(req, DeliveryHeader);
    assert Header(req', EventHeader) == Header(req, EventHeader);
    assert Header(req', SignatureHeader) == Header(req, SignatureHeader);
  }

  /** A payload the JSON parser refuses is rejected with the parser's message. */
  lemma ParseFailureRejected(cfg: Config, rt: Runtime, req: Request)
    requires RouteMatches(cfg, req) && Present(Header(req, DeliveryHeader)) && Present(Header(req, EventHeader))
    requires req.body.Received?
    requires Truthy(cfg.secret) ==>
               Present(Header(req, SignatureHeader))
               && VerifySignature(rt, cfg.secret, req.body.data, Header(req, SignatureHeader).value)
    requires rt.parseJson(PayloadText(rt, req, req.body.data)).Err?
    ensures Decide(cfg, rt, req) == Rejected(rt.parseJson(PayloadText(rt, req, req.body.data)).error)
  {
  }

  /**
   * An event is accepted exactly when every check passes: the route, both
   * headers, the signature over the raw bytes when a secret is set, the
   * JSON parse of the form's `payload` field (for a form content type) or
   * of the whole body text (otherwise), and a readable `repository`.
   */
  lemma AcceptedIff(cfg: Config, rt: Runtime, req: Request, event: string, repo: Value, payload: Value)
    ensures Decide(cfg, rt, req) == Accepted(event, repo, payload)
        <==> && RouteMatches(cfg, req)
             && Present(Header(req, DeliveryHeader))
             && Header(req, EventHeader) == Some(event) && event != ""
             && req.body.Received?
             && (Truthy(cfg.secret) ==>
                   Present(Header(req, SignatureHeader))
                   && VerifySignature(rt, cfg.secret, req.body.data, Header(req, SignatureHeader).value))
             && rt.parseJson(
                  if Header(req, ContentTypeHeader) == Some(FormContentType)
                  then FieldText(rt.formPayload(rt.decodeUtf8(req.body.data)))
                  else rt.decodeUtf8(req.body.data)) == Ok(payload)
             && RepositoryName(payload) == Some(repo)
  {
  }

  /** The uncaught TypeError of `payload.repository.name` happens only after every check has passed. */
  lemma UncaughtOnlyAfterChecks(cfg: Config, rt: Runtime, req: Request)
    requires Decide(cfg, rt, req) == Uncaught
    ensures RouteMatches(cfg, req) && Present(Header(req, DeliveryHeader)) && Present(Header(req, EventHeader))
    ensures req.body.Received?
    ensures Truthy(cfg.secret) ==> VerifySignature(rt, cfg.secret, req.body.data, Header(req, SignatureHeader).value)
    ensures exists p :: rt.parseJson(PayloadText(rt, req, req.body.data)) == Ok(p) && RepositoryName(p).None?
  {
    var p := rt.parseJson(PayloadText(rt, req, req.body.data)).value;
    assert RepositoryName(p).None?;
  }

  /** The payload `{"repository":{"name":"demo"}}`. */
  const DemoPayload := Obj(map["repository" := Obj(map["name" := Str("demo")])])

  /** A valid unsigned "push" delivery of DemoPayload is accepted with repository "demo". */
  lemma PushDelivery(cfg: Config, rt: Runtime, req: Request)
    requires RouteMatches(cfg, req) && !Truthy(cfg.secret)
    requires Present(Header(req, DeliveryHeader)) && Header(req, EventHeader) == Some("push")
    requires req.body.Received? && Header(req, ContentTypeHeader) == Some("application/json")
    requires rt.parseJson(rt.decodeUtf8(req.body.data)) == Ok(DemoPayload)
    ensures Decide(cfg, rt, req) == Accepted("push", Str("demo"), DemoPayload)
  {
  }
}

/** Replaying a request: no deduplication by delivery id, each delivery has its own effects. */
module Replay {
  import opened Js
  import opened Webhook

  method HandleTwice(h: Handler, rt: Runtime, req: Request, res1: ServerResponse, res2: ServerResponse)
    requires res1 != res2
    modifies h, res1, res2
    ensures var o := Decide(h.config, rt, req);
      o.Accepted? ==>
        && h.log == old(h.log) + EventEmissions(o.event, o.repo, o.payload) + EventEmissions(o.event, o.repo, o.payload)
        && res1.sent == old(res1.sent) + [Reply(200, SuccessBody)]
        && res2.sent == old(res2.sent) + [Reply(200, SuccessBody)]
  {
    var _ := h.Handle(rt, req, res1);
    var _ := h.Handle(rt, req, res2);
  }
}
