/** What one invocation of a node consumes and produces: the requests it
    issues, the outcomes the HTTP clients hand back, and what the node finally
    does with the message (forward it, or raise an error). */
module NodeIo {
  import opened JsValues

  datatype Result<+T, +E> = Ok(value: T) | Err(error: E)

  /** The result of `JSON.parse` on a string. */
  datatype Parsed = Parsed(value: Value) | ParseFail

  /** `JSON.parse`, supplied from outside the model. */
  type JsonParser = string -> Parsed

  /** A parser that reads the text `[]` as the empty array, as `JSON.parse` does. */
  predicate ReadsEmptyList(parse: JsonParser) {
    parse("[]") == Parsed(Arr([]))
  }

  /** A request body: a JSON document, or form fields (`URLSearchParams`). */
  datatype Body = Json(value: Value) | Form(fields: seq<(string, string)>)

  /** One outbound POST. */
  datatype Request = Request(url: Value, headers: map<string, Value>, body: Body)

  /** Why a request made with axios was rejected. */
  datatype Failure =
    | HttpStatus(status: int, data: Value)  // the server answered outside 2xx
    | NoResponse                             // the request went out, nothing came back
    | SetupFailure                           // the request could not be set up

  /** Every error a node raises, by kind. */
  datatype Error =
    | PayloadUnreadable               // `msg.payload` is undefined or null: reading it throws
    | MissingField(name: string)      // a required field resolved to a falsy value
    | ButtonParametersMissing         // one of text, buttonTitle, url is missing
    | UnparsableConfig(name: string)  // a configured JSON string did not parse
    | SendFailed                      // fetch rejected, or its response was not JSON
    | AuthUnparsable(raw: string)     // the auth response was a string that did not parse
    | AuthTokenMissing(data: Value)   // the auth response has no truthy access_token
    | AuthFailed(failure: Failure)    // the auth request was rejected
    | PushFailed(failure: Failure)    // the push request was rejected

  /** How an invocation ends: the message is forwarded, or an error is raised. */
  datatype Outcome = Sent(msg: Value) | Raised(error: Error)

  /** The requests one invocation issues, in order, and how it ends. */
  datatype Invocation = Invocation(requests: seq<Request>, outcome: Outcome)

  /** What axios reports for one request. */
  datatype AxiosOutcome = Response(status: int, data: Value) | NoResponseReceived | SetupError

  /** What fetch reports for one request: a response with its body text, or a rejection. */
  datatype FetchOutcome = Fetched(status: int, text: string) | FetchRejected

  /** axios' default `validateStatus`. */
  predicate Is2xx(status: int) {
    200 <= status < 300
  }

  /** How an axios promise settles: it resolves with the response data for a
      2xx status and rejects otherwise, the rejection classified three ways. */
  function Settle(o: AxiosOutcome): (r: Result<Value, Failure>)
    ensures r.Ok? <==> o.Response? && Is2xx(o.status)
    ensures r.Ok? ==> r.value == o.data
    ensures r.Err? && r.error.HttpStatus? <==> o.Response? && !Is2xx(o.status)
    ensures r.Err? && r.error.HttpStatus? ==> r.error.status == o.status && r.error.data == o.data
    ensures r.Err? && r.error.NoResponse? <==> o.NoResponseReceived?
    ensures r.Err? && r.error.SetupFailure? <==> o.SetupError?
  {
    match o
    case Response(status, data) => if Is2xx(status) then Ok(data) else Err(HttpStatus(status, data))
    case NoResponseReceived => Err(NoResponse)
    case SetupError => Err(SetupFailure)
  }

  /** `msg.payload`. */
  function Payload(msg: Value): Value {
    Prop(msg, "payload")
  }

  /** `msg.payload[key] || configured`: the inbound value when truthy, else the node's. */
  function Resolve(msg: Value, key: string, configured: Value): (r: Value)
    ensures Truthy(Prop(Payload(msg), key)) ==> r == Prop(Payload(msg), key)
    ensures !Truthy(Prop(Payload(msg), key)) ==> r == configured
  {
    Or(Prop(Payload(msg), key), configured)
  }

  /** `msg.payload = data`, with the message forwarded. */
  function Forward(msg: Value, data: Value): (r: Outcome)
    ensures msg.Obj? ==> r.Sent? && Payload(r.msg) == data
    ensures msg.Obj? ==> forall k :: k != "payload" ==> Prop(r.msg, k) == Prop(msg, k)
  {
    Sent(Put(msg, "payload", data))
  }
}
