/** The `mobilex-push-notification` node: authenticates with client
    credentials, then posts a push notification carrying the bearer token it
    obtained. */
module MobileXPush {
  import opened JsValues
  import opened NodeIo

  const DefaultAuthor := "a07122dd-447f-4d30-953c-283cbe320216"
  const DefaultAuthUrl := "https://api.mobilex.tech/api/external/auth"
  const DefaultPushUrl := "https://api.mobilex.tech/api/manager/messenger/message"
  const DefaultSubject := "Notificação Padrão"
  const DefaultContent := "Você tem uma nova mensagem."

  /** The node's configuration (also the node's fields once defaults are applied). */
  datatype Settings = Settings(
    clientSecret: Value, appCompanyId: Value, author: Value, subjectPush: Value, contentPush: Value,
    actionPush: Value, apiAuthUrl: Value, apiPushUrl: Value)

  /** The node's fields: the author and both endpoints fall back to defaults,
      everything else is kept as configured. */
  function Configure(config: Settings): (node: Settings)
    ensures Truthy(node.author) && Truthy(node.apiAuthUrl) && Truthy(node.apiPushUrl)
    ensures node.author == (if Truthy(config.author) then config.author else Str(DefaultAuthor))
    ensures node.apiAuthUrl == (if Truthy(config.apiAuthUrl) then config.apiAuthUrl else Str(DefaultAuthUrl))
    ensures node.apiPushUrl == (if Truthy(config.apiPushUrl) then config.apiPushUrl else Str(DefaultPushUrl))
    ensures node.(author := config.author, apiAuthUrl := config.apiAuthUrl, apiPushUrl := config.apiPushUrl) == config
  {
    config.(author := Or(config.author, Str(DefaultAuthor)),
            apiAuthUrl := Or(config.apiAuthUrl, Str(DefaultAuthUrl)),
            apiPushUrl := Or(config.apiPushUrl, Str(DefaultPushUrl)))
  }

  /** The form-encoded client-credentials request: posted to the auth
      endpoint, with exactly the two form fields `grant_type` and
      `client_secret` (the secret as `String(...)` renders it) and only the
      form Content-Type header. */
  function AuthRequest(node: Settings): (r: Request)
    ensures r.url == node.apiAuthUrl
    ensures r.headers.Keys == {"Content-Type"} && r.headers["Content-Type"] == Str("application/x-www-form-urlencoded")
    ensures r.body.Form? && |r.body.fields| == 2
    ensures r.body.fields[0] == ("grant_type", "client_credentials")
    ensures r.body.fields[1] == ("client_secret", JsString(node.clientSecret))
  {
    Request(node.apiAuthUrl,
            map["Content-Type" := Str("application/x-www-form-urlencoded")],
            Form([("grant_type", "client_credentials"), ("client_secret", JsString(node.clientSecret))]))
  }

  /** Two nodes send the same auth request exactly when they have the same
      auth endpoint and their client secrets render to the same text: no other
      setting reaches the auth request. */
  lemma AuthRequestDependsOnSecretAndUrl(node1: Settings, node2: Settings)
    ensures AuthRequest(node1) == AuthRequest(node2) <==>
      node1.apiAuthUrl == node2.apiAuthUrl && JsString(node1.clientSecret) == JsString(node2.clientSecret)
  {
  }

  /** The auth response data as the node reads it: a string is parsed first
      (when it parses), anything else is used as it is. */
  function AuthData(data: Value, parse: JsonParser): Value {
    if data.Str? && parse(data.s).Parsed? then parse(data.s).value else data
  }

  /** The token an auth outcome yields, or the error that ends the invocation.
      A 2xx response whose data is a string that does not parse is an error of
      its own; otherwise the token is the `access_token` of the (parsed) data,
      and there is one exactly when it is truthy. */
  function Authenticate(o: AxiosOutcome, parse: JsonParser): (r: Result<Value, Error>)
    ensures r.Ok? ==> o.Response? && Is2xx(o.status) && Truthy(r.value)
    ensures r.Ok? ==> r.value == Prop(AuthData(o.data, parse), "access_token")
    ensures !(o.Response? && Is2xx(o.status)) ==> r == Err(AuthFailed(Settle(o).error))
    ensures o.Response? && Is2xx(o.status) && o.data.Str? && parse(o.data.s).ParseFail?
      ==> r == Err(AuthUnparsable(o.data.s))
    ensures o.Response? && Is2xx(o.status) && !(o.data.Str? && parse(o.data.s).ParseFail?) ==>
      (r.Ok? <==> Truthy(Prop(AuthData(o.data, parse), "access_token")))
    ensures o.Response? && Is2xx(o.status) && !(o.data.Str? && parse(o.data.s).ParseFail?)
      && !Truthy(Prop(AuthData(o.data, parse), "access_token"))
      ==> r == Err(AuthTokenMissing(AuthData(o.data, parse)))
  {
    match Settle(o)
    case Err(f) => Err(AuthFailed(f))
    case Ok(data) =>
      if data.Str? && parse(data.s).ParseFail? then Err(AuthUnparsable(data.s))
      else
        var authData := AuthData(data, parse);
        if Truthy(authData) && Truthy(Prop(authData, "access_token")) then Ok(Prop(authData, "access_token"))
        else Err(AuthTokenMissing(authData))
  }

  /** The list a JSON-ish input stands for: `v || "[]"`, parsed when it is a
      string, kept when it is an array, and `[]` whenever the result is not an
      array (a parse failure included). It never fails. */
  function ListFrom(v: Value, parse: JsonParser): (xs: seq<Value>)
    ensures v.Arr? ==> xs == v.items
    ensures Truthy(v) && v.Str? ==> (if parse(v.s).Parsed? && parse(v.s).value.Arr? then xs == parse(v.s).value.items else xs == [])
    ensures Truthy(v) && !v.Str? && !v.Arr? ==> xs == []
    ensures xs == [] || v == Arr(xs) || (v.Str? && parse(v.s) == Parsed(Arr(xs)))
            || (!Truthy(v) && parse("[]") == Parsed(Arr(xs)))
  {
    var input := Or(v, Str("[]"));
    if input.Str? then
      match parse(input.s)
      case Parsed(Arr(ys)) => ys
      case _ => []
    else if input.Arr? then input.items
    else []
  }

  /** With a parser that reads `[]` as the empty list, a falsy input gives `[]`. */
  lemma ListFromFalsy(v: Value, parse: JsonParser)
    requires ReadsEmptyList(parse) && !Truthy(v)
    ensures ListFrom(v, parse) == []
  {
  }

  /** The `targets` object: every demographic filter empty, and the user ids. */
  function Targets(userids: Value): Value {
    Obj(map["bornIn" := Obj(map[]), "registeredIn" := Obj(map[]),
            "specialty" := Arr([]), "addressCity" := Arr([]), "addressCountry" := Arr([]), "addressState" := Arr([]),
            "userids" := userids])
  }

  /** The push payload object with the given `targets.userids` and `actionPush`
      (the two fields the node overwrites are listed last). */
  function PayloadWith(node: Settings, msg: Value, userids: Value, actionPush: Value): Value {
    Obj(map[
      "tiposArray" := Str("2"),
      "actions" := Arr([]),
      "momentoEnvio" := Bool(false),
      "subjectPush" := Or(Or(node.subjectPush, Prop(msg, "subjectPush")), Str(DefaultSubject)),
      "contentPush" := Or(Or(node.contentPush, Prop(msg, "contentPush")), Str(DefaultContent)),
      "tipoEnvio" := Num(1),
      "author" := node.author,
      "source" := Str("web"),
      "sendToAll" := Bool(false),
      "sendInbox" := Bool(false),
      "sendPush" := Bool(true),
      "level" := Num(1),
      "targets" := Targets(userids),
      "actionPush" := actionPush])
  }

  /** The push payload that is sent: user ids from `msg.userids`, actions from
      the node's `actionPush`, both as lists. */
  function PushPayload(node: Settings, msg: Value, parse: JsonParser): Value {
    PayloadWith(node, msg, Arr(ListFrom(Prop(msg, "userids"), parse)), Arr(ListFrom(node.actionPush, parse)))
  }

  const PayloadKeys: set<string> := {
    "tiposArray", "actions", "momentoEnvio", "subjectPush", "contentPush", "tipoEnvio", "author",
    "source", "sendToAll", "sendInbox", "sendPush", "level", "targets", "actionPush"}

  /** The push payload has exactly the fields the service expects. */
  lemma PayloadFields(node: Settings, msg: Value, parse: JsonParser)
    ensures PushPayload(node, msg, parse).Obj? && PushPayload(node, msg, parse).props.Keys == PayloadKeys
  {
  }

  /** The fields of the push payload that are the same whatever the node, the
      message and the parser. */
  lemma ConstantFieldsFixed(node: Settings, msg: Value, parse: JsonParser)
    ensures var p := PushPayload(node, msg, parse);
      && Prop(p, "tiposArray") == Str("2") && Prop(p, "actions") == Arr([])
      && Prop(p, "momentoEnvio") == Bool(false) && Prop(p, "tipoEnvio") == Num(1) && Prop(p, "source") == Str("web")
      && Prop(p, "sendToAll") == Bool(false) && Prop(p, "sendInbox") == Bool(false)
      && Prop(p, "sendPush") == Bool(true) && Prop(p, "level") == Num(1)
  {
    var p := PushPayload(node, msg, parse);
    TypeAndActionsFixed(p, node, msg, parse);
    TimingFixed(p, node, msg, parse);
    FlagsFixed(p, node, msg, parse);
  }

  lemma TypeAndActionsFixed(p: Value, node: Settings, msg: Value, parse: JsonParser)
    requires p == PushPayload(node, msg, parse)
    ensures Prop(p, "tiposArray") == Str("2") && Prop(p, "actions") == Arr([])
  {
  }

  lemma TimingFixed(p: Value, node: Settings, msg: Value, parse: JsonParser)
    requires p == PushPayload(node, msg, parse)
    ensures Prop(p, "momentoEnvio") == Bool(false) && Prop(p, "tipoEnvio") == Num(1) && Prop(p, "source") == Str("web")
  {
  }

  lemma FlagsFixed(p: Value, node: Settings, msg: Value, parse: JsonParser)
    requires p == PushPayload(node, msg, parse)
    ensures Prop(p, "sendToAll") == Bool(false) && Prop(p, "sendInbox") == Bool(false)
    ensures Prop(p, "sendPush") == Bool(true) && Prop(p, "level") == Num(1)
  {
  }

  /** Every filter in `targets` but the user ids is an empty container. */
  lemma FiltersEmpty(node: Settings, msg: Value, parse: JsonParser)
    ensures var t := Prop(PushPayload(node, msg, parse), "targets");
      && t.Obj? && t.props.Keys == {"bornIn", "registeredIn", "specialty", "addressCity", "addressCountry", "addressState", "userids"}
      && Prop(t, "bornIn") == Obj(map[]) && Prop(t, "registeredIn") == Obj(map[])
      && Prop(t, "specialty") == Arr([]) && Prop(t, "addressCity") == Arr([])
      && Prop(t, "addressCountry") == Arr([]) && Prop(t, "addressState") == Arr([])
  {
  }

  /** Overwriting `targets.userids` and `actionPush` of the payload built with
      empty lists gives the payload built with the new values directly. */
  lemma OverwriteLists(node: Settings, msg: Value, userids: Value, actionPush: Value)
    ensures var initial := PayloadWith(node, msg, Arr([]), Arr([]));
      Put(Put(initial, "targets", Put(Prop(initial, "targets"), "userids", userids)), "actionPush", actionPush)
        == PayloadWith(node, msg, userids, actionPush)
  {
    assert Put(Targets(Arr([])), "userids", userids) == Targets(userids);
  }

  /** Subject and content: the node's value first, then the message's
      top-level field, then the default text. */
  lemma ConfigBeatsMessage(node: Settings, msg: Value, parse: JsonParser)
    ensures var p := PushPayload(node, msg, parse);
      && (Truthy(node.subjectPush) ==> Prop(p, "subjectPush") == node.subjectPush)
      && (!Truthy(node.subjectPush) && Truthy(Prop(msg, "subjectPush")) ==> Prop(p, "subjectPush") == Prop(msg, "subjectPush"))
      && (!Truthy(node.subjectPush) && !Truthy(Prop(msg, "subjectPush")) ==> Prop(p, "subjectPush") == Str(DefaultSubject))
      && (Truthy(node.contentPush) ==> Prop(p, "contentPush") == node.contentPush)
      && (!Truthy(node.contentPush) && Truthy(Prop(msg, "contentPush")) ==> Prop(p, "contentPush") == Prop(msg, "contentPush"))
      && (!Truthy(node.contentPush) && !Truthy(Prop(msg, "contentPush")) ==> Prop(p, "contentPush") == Str(DefaultContent))
  {
    SubjectAndContent(PushPayload(node, msg, parse), node, msg, parse);
  }

  lemma SubjectAndContent(p: Value, node: Settings, msg: Value, parse: JsonParser)
    requires p == PushPayload(node, msg, parse)
    ensures Prop(p, "subjectPush") == Or(Or(node.subjectPush, Prop(msg, "subjectPush")), Str(DefaultSubject))
    ensures Prop(p, "contentPush") == Or(Or(node.contentPush, Prop(msg, "contentPush")), Str(DefaultContent))
  {
  }

  /** The payload is built from `msg.userids` and the top-level fields, never
      from `msg.payload`. */
  lemma PayloadIgnoresMsgPayload(node: Settings, msg: Value, x: Value, parse: JsonParser)
    ensures PushPayload(node, Put(msg, "payload", x), parse) == PushPayload(node, msg, parse)
  {
  }

  /** `targets.userids` is the list `msg.userids` stands for, and `actionPush`
      the list the node's `actionPush` stands for. */
  lemma ListsFromInputs(node: Settings, msg: Value, parse: JsonParser)
    ensures Prop(Prop(PushPayload(node, msg, parse), "targets"), "userids") == Arr(ListFrom(Prop(msg, "userids"), parse))
    ensures Prop(PushPayload(node, msg, parse), "actionPush") == Arr(ListFrom(node.actionPush, parse))
  {
  }

  /** The push request: the payload as JSON, posted to the push endpoint with
      exactly five headers, among them the company id and the bearer token. */
  function PushRequest(node: Settings, token: Value, payload: Value): (r: Request)
    ensures r.url == node.apiPushUrl && r.body == Json(payload)
    ensures r.headers.Keys == {"Accept", "AppCompanyId", "Authorization", "Connection", "Content-Type"}
    ensures r.headers["Authorization"] == Str("Bearer " + JsString(token))
    ensures r.headers["AppCompanyId"] == node.appCompanyId
    ensures r.headers["Accept"] == Str("application/json, text/plain, */*")
    ensures r.headers["Connection"] == Str("keep-alive")
    ensures r.headers["Content-Type"] == Str("application/json;charset=UTF-8")
  {
    Request(node.apiPushUrl,
            map["Accept" := Str("application/json, text/plain, */*"),
                "AppCompanyId" := node.appCompanyId,
                "Authorization" := Str("Bearer " + JsString(token)),
                "Connection" := Str("keep-alive"),
                "Content-Type" := Str("application/json;charset=UTF-8")],
            Json(payload))
  }

  /** The data of a successful push response: a string is parsed when it can
      be, and kept as it is when it cannot. */
  function PushData(data: Value, parse: JsonParser): (r: Value)
    ensures !data.Str? ==> r == data
    ensures data.Str? && parse(data.s).Parsed? ==> r == parse(data.s).value
    ensures data.Str? && parse(data.s).ParseFail? ==> r == data
  {
    if data.Str? then
      match parse(data.s)
      case Parsed(v) => v
      case ParseFail => data
    else data
  }

  /** One invocation of the node. The auth request is always issued; the push
      request is issued only after an auth response that yields a truthy
      token, and it carries that token. The payload starts with empty lists
      and then has `targets.userids` and `actionPush` overwritten, as the node
      does; the result is the payload `PushPayload` describes. The node's
      fields are its configuration with the defaults applied. */
  method OnInput(config: Settings, msg: Value, auth: AxiosOutcome, push: AxiosOutcome, parse: JsonParser)
    returns (requests: seq<Request>, outcome: Outcome)
    ensures var node := Configure(config);
      1 <= |requests| <= 2 && requests[0] == AuthRequest(node) && Truthy(requests[0].url)
    ensures |requests| == 2 <==> Authenticate(auth, parse).Ok?
    ensures Authenticate(auth, parse).Err? ==> outcome == Raised(Authenticate(auth, parse).error)
    ensures |requests| == 2 ==>
      var node := Configure(config);
      var token := Authenticate(auth, parse).value;
      && Truthy(token)
      && requests[1] == PushRequest(node, token, PushPayload(node, msg, parse))
      && Truthy(requests[1].url)
      && requests[1].headers["Authorization"] == Str("Bearer " + JsString(token))
    ensures |requests| == 2 && Settle(push).Ok? ==> outcome == Forward(msg, PushData(Settle(push).value, parse))
    ensures |requests| == 2 && Settle(push).Err? ==> outcome == Raised(PushFailed(Settle(push).error))
  {
    var node := Configure(config);
    requests := [AuthRequest(node)];
    var authResult := Authenticate(auth, parse);
    if authResult.Err? {
      outcome := Raised(authResult.error);
      return;
    }
    var token := authResult.value;

    var pushPayload := PayloadWith(node, msg, Arr([]), Arr([]));
    var userids := ListFrom(Prop(msg, "userids"), parse);
    pushPayload := Put(pushPayload, "targets", Put(Prop(pushPayload, "targets"), "userids", Arr(userids)));
    var actionPush := ListFrom(node.actionPush, parse);
    pushPayload := Put(pushPayload, "actionPush", Arr(actionPush));
    OverwriteLists(node, msg, Arr(userids), Arr(actionPush));

    requests := requests + [PushRequest(node, token, pushPayload)];
    match Settle(push)
    case Ok(data) =>
      outcome := Forward(msg, PushData(data, parse));
    case Err(failure) =>
      outcome := Raised(PushFailed(failure));
  }
}
