/**
 * The `GithubWebhook` constructor and its request handler (index.js lines
 * 23-107). The decision a request leads to is the pure function `Decide`;
 * `Handler.Handle` performs the same checks step by step and records its
 * effects: emissions on the handler's log, replies on the response object.
 */
module Webhook {
  import opened Wrappers
  import opened Js
  import opened Verifier

  const DeliveryHeader := "x-github-delivery"
  const EventHeader := "x-github-event"
  const SignatureHeader := "x-hub-signature"
  const ContentTypeHeader := "content-type"
  const FormContentType := "application/x-www-form-urlencoded"

  const NoIdMessage := "No id found in the request"
  const NoEventMessage := "No event found in the request"
  const NoSignatureMessage := "No signature found in the request"
  const BadSignatureMessage := "Failed to verify signature"

  const OptionsMessage := "must provide an options object"
  const PathMessage := "must provide a 'path' option"

  /** What the constructor throws. */
  datatype ConstructError =
    | TypeError(message: string)
      // the TypeError the engine throws for `options.path` when options is null;
      // its message is the engine's and is not modelled
    | NullOptions

  /** The options the handler reads on every request, after the constructor's defaulting. */
  datatype Config = Config(path: string, secret: Value)

  /** `options.secret || ''`. */
  function DefaultSecret(options: Value): (r: Value)
    requires options.Obj?
    ensures Truthy(r) || r == Str("")
    ensures "secret" in options.fields && Truthy(options.fields["secret"]) ==> r == options.fields["secret"]
    ensures !("secret" in options.fields && Truthy(options.fields["secret"])) ==> r == Str("")
  {
    var given := GetProperty(options, "secret").value;
    if Truthy(given) then given else Str("")
  }

  /** The options object once the constructor has assigned `options.secret` (index.js line 32). */
  function WithDefaultSecret(options: Value): (r: Value)
    requires options.Obj?
    ensures r.Obj? && r.fields.Keys == options.fields.Keys + {"secret"}
    ensures forall k :: k in options.fields && k != "secret" ==> r.fields[k] == options.fields[k]
    ensures r.fields["secret"] == DefaultSecret(options)
  {
    Obj(options.fields["secret" := DefaultSecret(options)])
  }

  /** The constructor's checks: the options object, then its `path`, then the secret's default. */
  function Configure(options: Value): (r: Result<Config, ConstructError>)
    ensures TypeOf(options) != "object" ==> r == Err(TypeError(OptionsMessage))
    ensures options.Null? ==> r == Err(NullOptions)
    ensures options.Arr? ==> r == Err(TypeError(PathMessage))
    ensures options.Obj? && ("path" !in options.fields || !options.fields["path"].Str?) ==>
              r == Err(TypeError(PathMessage))
    ensures r.Ok? <==> options.Obj? && "path" in options.fields && options.fields["path"].Str?
    ensures r.Ok? ==> r.value.path == options.fields["path"].s
    ensures r.Ok? ==> Truthy(r.value.secret) || r.value.secret == Str("")
    ensures r.Ok? && !("secret" in options.fields && Truthy(options.fields["secret"])) ==>
              r.value.secret == Str("")
    ensures r.Ok? && "secret" in options.fields && Truthy(options.fields["secret"]) ==>
              r.value.secret == options.fields["secret"]
  {
    if TypeOf(options) != "object" then Err(TypeError(OptionsMessage))
    else match GetProperty(options, "path")
      case None => Err(NullOptions)
      case Some(path) =>
        if !path.Str? then Err(TypeError(PathMessage))
        else Ok(Config(path.s, DefaultSecret(options)))
  }

  /** The request body as the stream reader delivers it: the bytes, or the stream's error. */
  datatype Body = Received(data: Bytes) | Failed(message: string)

  /** The parts of a request the handler reads; header names are lower case. */
  datatype Request = Request(httpMethod: string, url: string, headers: map<string, string>, body: Body)

  /** `req.headers[name]`: None stands for `undefined`. */
  function Header(req: Request, name: string): (r: Option<string>)
    ensures r.Some? <==> name in req.headers
    ensures r.Some? ==> r.value == req.headers[name]
  {
    if name in req.headers then Some(req.headers[name]) else None
  }

  /** A header value that is neither missing nor empty: `!value` is false. */
  function Present(h: Option<string>): (r: bool)
    ensures r <==> Truthy(match h case None => Undefined case Some(s) => Str(s))
  {
    h.Some? && h.value != ""
  }

  /** `s.split(sep).shift()`: the longest prefix of `s` that does not contain `sep`. */
  function BeforeFirst(s: string, sep: char): (r: string)
    ensures r <= s && sep !in r
    ensures r == s || s[|r|] == sep
  {
    if s == [] || s[0] == sep then [] else [s[0]] + BeforeFirst(s[1..], sep)
  }

  /** BeforeFirst is determined by its contract: the prefix without `sep` that ends at `sep` or at the end. */
  lemma BeforeFirstIs(s: string, sep: char, p: string)
    ensures BeforeFirst(s, sep) == p <==> sep !in p && p <= s && (|p| == |s| || s[|p|] == sep)
  {
    var r := BeforeFirst(s, sep);
    if sep !in p && p <= s && (|p| == |s| || s[|p|] == sep) {
      assert |r| == |p|;
      assert r == s[..|r|] == p;
    }
  }

  /** The route check of index.js line 41: a POST whose URL is the path, alone or followed by a query. */
  function RouteMatches(cfg: Config, req: Request): (r: bool)
    ensures r <==> && req.httpMethod == "POST"
                   && '?' !in cfg.path && cfg.path <= req.url
                   && (|req.url| == |cfg.path| || req.url[|cfg.path|] == '?')
  {
    BeforeFirstIs(req.url, '?', cfg.path);
    req.httpMethod == "POST" && BeforeFirst(req.url, '?') == cfg.path
  }

  /** `String(field)`: the text JSON.parse receives when the form field may be missing. */
  function FieldText(field: Option<string>): (r: string)
    ensures field.None? ==> r == "undefined"
    ensures field.Some? ==> r == field.value
  {
    match field
    case None => "undefined"
    case Some(s) => s
  }

  /** The text handed to JSON.parse (index.js lines 83-87). */
  function PayloadText(rt: Runtime, req: Request, data: Bytes): (r: string)
    ensures Header(req, ContentTypeHeader) != Some(FormContentType) ==> r == rt.decodeUtf8(data)
    ensures Header(req, ContentTypeHeader) == Some(FormContentType) ==>
              r == FieldText(rt.formPayload(rt.decodeUtf8(data)))
  {
    var text := rt.decodeUtf8(data);
    if Header(req, ContentTypeHeader) == Some(FormContentType) then FieldText(rt.formPayload(text)) else text
  }

  /** `payload.repository.name`; None where that expression throws a TypeError. */
  function RepositoryName(payload: Value): (r: Option<Value>)
    ensures r.None? <==> !payload.Obj? || "repository" !in payload.fields
                         || payload.fields["repository"].Null? || payload.fields["repository"].Undefined?
    ensures r.Some? ==>
              r.value == (if payload.fields["repository"].Obj? && "name" in payload.fields["repository"].fields
                          then payload.fields["repository"].fields["name"] else Undefined)
  {
    match GetProperty(payload, "repository")
    case None => None
    case Some(repository) => GetProperty(repository, "name")
  }

  /** How handling one request ends. */
  datatype Outcome =
    | PassThrough                                       // next() is called
    | Rejected(message: string)                         // reportError(message)
    | Accepted(event: string, repo: Value, payload: Value)
    | Uncaught                                          // the TypeError of index.js line 95 escapes

  /** The decision of `githookHandler` for one request. */
  function Decide(cfg: Config, rt: Runtime, req: Request): (r: Outcome)
    ensures r.PassThrough? <==> !RouteMatches(cfg, req)
    ensures !r.PassThrough? && !Present(Header(req, DeliveryHeader)) ==> r == Rejected(NoIdMessage)
    ensures r.Accepted? || r.Uncaught? ==>
              && Present(Header(req, DeliveryHeader)) && Present(Header(req, EventHeader))
              && req.body.Received?
              && (Truthy(cfg.secret) ==>
                    && Present(Header(req, SignatureHeader))
                    && VerifySignature(rt, cfg.secret, req.body.data, Header(req, SignatureHeader).value))
    ensures r.Accepted? ==>
              && Header(req, EventHeader) == Some(r.event)
              && rt.parseJson(PayloadText(rt, req, req.body.data)) == Ok(r.payload)
              && RepositoryName(r.payload) == Some(r.repo)
  {
    if !RouteMatches(cfg, req) then PassThrough
    else
      var id := Header(req, DeliveryHeader);
      if !Present(id) then Rejected(NoIdMessage)
      else
        var event := Header(req, EventHeader);
        if !Present(event) then Rejected(NoEventMessage)
        else
          var sign := if Present(Header(req, SignatureHeader)) then Header(req, SignatureHeader).value else "";
          if Truthy(cfg.secret) && sign == "" then Rejected(NoSignatureMessage)
          else match req.body
            case Failed(message) => Rejected(message)
            case Received(data) =>
              if Truthy(cfg.secret) && !VerifySignature(rt, cfg.secret, data, sign) then
                Rejected(BadSignatureMessage)
              else match rt.parseJson(PayloadText(rt, req, data))
                case Err(message) => Rejected(message)
                case Ok(payload) =>
                  match RepositoryName(payload)
                  case None => Uncaught
                  case Some(repo) => Accepted(event.value, repo, payload)
  }

  /** An argument of `emit`: a value, `new Error(message)`, or the request or response object. */
  datatype Arg = Val(value: Value) | ErrorObject(message: string) | RequestObject | ResponseObject

  /** One `emit(key, ...args)` call. */
  datatype Emission = Emission(key: Value, args: seq<Arg>)

  /** One `res.status(status).send(body)` call. */
  datatype Reply = Reply(status: int, body: Value)

  function ErrorBody(message: string): Value {
    Obj(map["error" := Str(message)])
  }

  const SuccessBody := Obj(map["success" := Bool(true)])

  /** The `error` emission of reportError (index.js line 52). */
  function ErrorEmission(message: string): Emission {
    Emission(Str("error"), [ErrorObject(message), RequestObject, ResponseObject])
  }

  /** The three emissions of a validated event (index.js lines 98-100). */
  function EventEmissions(event: string, repo: Value, payload: Value): seq<Emission> {
    [ Emission(Str("*"), [Val(Str(event)), Val(repo), Val(payload)]),
      Emission(Str(event), [Val(repo), Val(payload)]),
      Emission(repo, [Val(Str(event)), Val(payload)]) ]
  }

  /** The Express response object of one request: the replies sent on it. */
  class ServerResponse {
    var sent: seq<Reply>

    constructor ()
      ensures sent == []
    {
      sent := [];
    }

    /** `res.status(status).send(body)`. */
    method Send(status: int, body: Value)
      modifies this
      ensures sent == old(sent) + [Reply(status, body)]
    {
      sent := sent + [Reply(status, body)];
    }
  }

  /** The function `GithubWebhook` returns: a request handler that is also an event emitter. */
  class Handler {
    const config: Config
    var log: seq<Emission>

    constructor (config: Config)
      ensures this.config == config && log == []
    {
      this.config := config;
      log := [];
    }

    /** `GithubWebhook(options)`: the guards, then a handler with an empty emission log. */
    static method Create(options: Value) returns (r: Result<Handler, ConstructError>)
      ensures Configure(options).Err? ==> r == Err(Configure(options).error)
      ensures Configure(options).Ok? ==>
                r.Ok? && fresh(r.value) && r.value.config == Configure(options).value && r.value.log == []
    {
      match Configure(options)
      case Err(e) => r := Err(e);
      case Ok(cfg) =>
        var h := new Handler(cfg);
        r := Ok(h);
    }

    /** `emit(key, ...args)`: the listeners' execution is not modelled, only the call. */
    method Emit(key: Value, args: seq<Arg>)
      modifies this
      ensures log == old(log) + [Emission(key, args)]
    {
      log := log + [Emission(key, args)];
    }

    /** `reportError(message)`: a 400 reply carrying the message, then an `error` emission. */
    method ReportError(message: string, res: ServerResponse)
      modifies this, res
      ensures res.sent == old(res.sent) + [Reply(400, ErrorBody(message))]
      ensures log == old(log) + [ErrorEmission(message)]
    {
      res.Send(400, ErrorBody(message));
      Emit(Str("error"), [ErrorObject(message), RequestObject, ResponseObject]);
    }

    /**
     * `githookHandler(req, res, next)`, with the body already read; returns
     * whether `next()` was called.
     */
    method Handle(rt: Runtime, req: Request, res: ServerResponse) returns (calledNext: bool)
      modifies this, res
      ensures var o := Decide(config, rt, req);
        && (calledNext <==> o.PassThrough?)
        && (o.PassThrough? || o.Uncaught? ==> log == old(log) && res.sent == old(res.sent))
        && (o.Rejected? ==>
              && res.sent == old(res.sent) + [Reply(400, ErrorBody(o.message))]
              && log == old(log) + [ErrorEmission(o.message)])
        && (o.Accepted? ==>
              && res.sent == old(res.sent) + [Reply(200, SuccessBody)]
              && log == old(log) + EventEmissions(o.event, o.repo, o.payload))
    {
      if req.httpMethod != "POST" || BeforeFirst(req.url, '?') != config.path {
        return true;
      }
      calledNext := false;

      var id := Header(req, DeliveryHeader);
      if !Present(id) {
        ReportError(NoIdMessage, res);
        return;
      }

      var event := Header(req, EventHeader);
      if !Present(event) {
        ReportError(NoEventMessage, res);
        return;
      }

      var sign := if Present(Header(req, SignatureHeader)) then Header(req, SignatureHeader).value else "";
      if Truthy(config.secret) && sign == "" {
        ReportError(NoSignatureMessage, res);
        return;
      }

      match req.body
      case Failed(message) =>
        ReportError(message, res);
      case Received(data) =>
        if Truthy(config.secret) && !VerifySignature(rt, config.secret, data, sign) {
          ReportError(BadSignatureMessage, res);
          return;
        }

        var dataString := rt.decodeUtf8(data);
        if Header(req, ContentTypeHeader) == Some(FormContentType) {
          dataString := FieldText(rt.formPayload(dataString));
        }

        var parsed := rt.parseJson(dataString);
        if parsed.Err? {
          ReportError(parsed.error, res);
          return;
        }
        var payload := parsed.value;

        var repo := RepositoryName(payload);
        if repo.None? {
          return;
        }

        Emit(Str("*"), [Val(Str(event.value)), Val(repo.value), Val(payload)]);
        Emit(Str(event.value), [Val(repo.value), Val(payload)]);
        Emit(repo.value, [Val(Str(event.value)), Val(payload)]);

        res.Send(200, SuccessBody);
    }
  }
}
