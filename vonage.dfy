/** What the WhatsApp nodes share: the one messages endpoint, the two
    Authorization schemes, the `{from, to, message}` envelope, the media
    message shape, and what happens once the request is built. */
module Vonage {
  import opened JsValues
  import opened NodeIo

  const MessagesUrl := "https://api.nexmo.com/v0.1/messages"

  /** `Buffer.from(s).toString('base64')`, supplied from outside the model. */
  type Base64 = string -> string

  /** `{'Content-Type': 'application/json', Authorization: 'Bearer ' + token}` */
  function BearerHeaders(token: Value): map<string, Value> {
    map["Content-Type" := Str("application/json"), "Authorization" := Str("Bearer " + JsString(token))]
  }

  /** The same headers with `'Basic ' + base64(apiKey + ':' + token)` (the Basic scheme of section 2 of RFC 7617). */
  function BasicHeaders(apiKey: Value, token: Value, base64: Base64): map<string, Value> {
    map["Content-Type" := Str("application/json"),
        "Authorization" := Str("Basic " + base64(JsString(apiKey) + ":" + JsString(token)))]
  }

  /** A POST of `body` to the messages endpoint. */
  function Post(body: Value, headers: map<string, Value>): Request {
    Request(Str(MessagesUrl), headers, Json(body))
  }

  /** `{from, to, message}` */
  function Envelope(from: Value, to: Value, message: Value): Value {
    Obj(map["from" := from, "to" := to, "message" := message])
  }

  /** The request goes to the messages endpoint with a JSON body of exactly
      `{from, to, message}`. */
  predicate Addressed(req: Request, from: Value, to: Value) {
    && req.url == Str(MessagesUrl)
    && req.body.Json? && req.body.value.Obj?
    && req.body.value.props.Keys == {"from", "to", "message"}
    && req.body.value.props["from"] == from
    && req.body.value.props["to"] == to
  }

  /** The `message` object of a JSON request body. */
  function MessageOf(req: Request): Value {
    if req.body.Json? then Prop(req.body.value, "message") else Undefined
  }

  /** The request carries `Authorization: Bearer <token>`. */
  predicate BearerAuth(req: Request, token: Value) {
    "Authorization" in req.headers && req.headers["Authorization"] == Str("Bearer " + JsString(token))
  }

  /** The request carries `Authorization: Basic <base64(apiKey:token)>`. */
  predicate BasicAuth(req: Request, apiKey: Value, token: Value, base64: Base64) {
    && "Authorization" in req.headers
    && req.headers["Authorization"] == Str("Basic " + base64(JsString(apiKey) + ":" + JsString(token)))
  }

  /** `fetch(...).then(res => res.json()).then(data => { msg.payload = data; node.send(msg) })`
      with its `.catch`: a response whose body is JSON is forwarded, whatever
      its status; a rejection or a body that is not JSON raises an error. */
  function Deliver(msg: Value, o: FetchOutcome, parse: JsonParser): (r: Outcome)
    ensures r.Sent? <==> o.Fetched? && parse(o.text).Parsed?
    ensures r.Sent? ==> r == Forward(msg, parse(o.text).value)
    ensures r.Raised? ==> r.error == SendFailed
  {
    match o
    case FetchRejected => Raised(SendFailed)
    case Fetched(_, text) =>
      match parse(text)
      case Parsed(data) => Forward(msg, data)
      case ParseFail => Raised(SendFailed)
  }

  /** The HTTP status plays no part in what the node does with a response. */
  lemma DeliverIgnoresStatus(msg: Value, s1: int, s2: int, text: string, parse: JsonParser)
    ensures Deliver(msg, Fetched(s1, text), parse) == Deliver(msg, Fetched(s2, text), parse)
  {
  }

  /** One invocation of a WhatsApp node: a build that fails issues no request
      and raises its error; a build that succeeds issues exactly that request
      and the response decides the outcome. */
  function Dispatch(built: Result<Request, Error>, msg: Value, o: FetchOutcome, parse: JsonParser): (r: Invocation)
    ensures |r.requests| <= 1
    ensures r.requests == [] <==> built.Err?
    ensures built.Err? ==> r.outcome == Raised(built.error)
    ensures built.Ok? ==> r.requests == [built.value] && r.outcome == Deliver(msg, o, parse)
  {
    match built
    case Err(e) => Invocation([], Raised(e))
    case Ok(req) => Invocation([req], Deliver(msg, o, parse))
  }

  /** `msg.payload[key] || (configured ? JSON.parse(configured) : [])`: a truthy
      inbound value is used as it is, unparsed; otherwise the configured JSON
      text is parsed, and a parse failure is an error; with neither, `[]`. */
  function ResolveParsed(msg: Value, key: string, configured: Value, parse: JsonParser): (r: Result<Value, Error>)
    ensures Truthy(Prop(Payload(msg), key)) ==> r == Ok(Prop(Payload(msg), key))
    ensures !Truthy(Prop(Payload(msg), key)) && !Truthy(configured) ==> r == Ok(Arr([]))
    ensures !Truthy(Prop(Payload(msg), key)) && Truthy(configured) ==>
      (r.Ok? <==> parse(JsString(configured)).Parsed?) && (r.Ok? ==> r.value == parse(JsString(configured)).value)
    ensures r.Err? ==> r.error == UnparsableConfig(key)
  {
    var inbound := Prop(Payload(msg), key);
    if Truthy(inbound) then Ok(inbound)
    else if !Truthy(configured) then Ok(Arr([]))
    else
      match parse(JsString(configured))
      case Parsed(v) => Ok(v)
      case ParseFail => Err(UnparsableConfig(key))
  }

  /** The configuration of a node that sends one media URL with a caption. */
  datatype MediaSettings = MediaSettings(from: Value, apiKey: Value, token: Value, to: Value, url: Value, caption: Value)

  /** The caption of the `kind` media object is the inbound caption, else the
      configured one, else `""`: never absent, and `""` only when neither is set. */
  predicate CaptionResolved(req: Request, kind: string, msg: Value, configured: Value) {
    var caption := Prop(Prop(MessageOf(req), kind), "caption");
    && (Truthy(caption) || caption == Str(""))
    && (Truthy(Prop(Payload(msg), "caption")) ==> caption == Prop(Payload(msg), "caption"))
    && (!Truthy(Prop(Payload(msg), "caption")) && Truthy(configured) ==> caption == configured)
    && (!Truthy(Prop(Payload(msg), "caption")) && !Truthy(configured) ==> caption == Str(""))
  }

  /** Builds the request of a media node: `kind` is the message type (and the
      key of the media object), `urlKey` the payload field that overrides the
      configured URL. */
  function MediaBuild(kind: string, urlKey: string, node: MediaSettings, msg: Value, headers: map<string, Value>)
    : (r: Result<Request, Error>)
    requires kind != "type"
    ensures r.Ok? <==>
      Readable(Payload(msg)) && Truthy(Resolve(msg, "to", node.to)) && Truthy(Resolve(msg, urlKey, node.url))
    ensures !Readable(Payload(msg)) ==> r == Err(PayloadUnreadable)
    ensures Readable(Payload(msg)) && !Truthy(Resolve(msg, "to", node.to)) ==> r == Err(MissingField("to"))
    ensures Readable(Payload(msg)) && Truthy(Resolve(msg, "to", node.to)) && !Truthy(Resolve(msg, urlKey, node.url))
      ==> r == Err(MissingField(urlKey))
    ensures r.Ok? ==> Addressed(r.value, node.from, Resolve(msg, "to", node.to)) && r.value.headers == headers
    ensures r.Ok? ==>
      var message := MessageOf(r.value);
      var media := Prop(message, kind);
      && message.Obj? && message.props.Keys == {"type", kind} && Prop(message, "type") == Str(kind)
      && media.Obj? && media.props.Keys == {"url", "caption"}
      && Prop(media, "url") == Resolve(msg, urlKey, node.url)
      && CaptionResolved(r.value, kind, msg, node.caption)
  {
    var payload := Payload(msg);
    if !Readable(payload) then Err(PayloadUnreadable)
    else
      var to := Resolve(msg, "to", node.to);
      if !Truthy(to) then Err(MissingField("to"))
      else
        var url := Resolve(msg, urlKey, node.url);
        if !Truthy(url) then Err(MissingField(urlKey))
        else
          var caption := Or(Or(Prop(payload, "caption"), node.caption), Str(""));
          var media := Obj(map["url" := url, "caption" := caption]);
          Ok(Post(Envelope(node.from, to, Obj(map["type" := Str(kind), kind := media])), headers))
  }
}
