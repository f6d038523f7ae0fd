/** The `whatsapp-send-button-link` node: sends a `button` message holding a
    single URL button, with Basic authorization. */
module ButtonLink {
  import opened JsValues
  import opened NodeIo
  import Vonage

  datatype Settings = Settings(
    from: Value, apiKey: Value, token: Value, to: Value, text: Value, buttonTitle: Value, urlLink: Value)

  /** All three button parameters resolve. */
  predicate HasButtonParameters(node: Settings, msg: Value) {
    && Truthy(Resolve(msg, "text", node.text))
    && Truthy(Resolve(msg, "buttonTitle", node.buttonTitle))
    && Truthy(Resolve(msg, "url", node.urlLink))
  }

  /** The request the node builds. The recipient is checked first; the three
      button parameters share one error. */
  function Build(node: Settings, msg: Value, base64: Vonage.Base64): (r: Result<Request, Error>)
    ensures r.Ok? <==>
      Readable(Payload(msg)) && Truthy(Resolve(msg, "to", node.to)) && HasButtonParameters(node, msg)
    ensures !Readable(Payload(msg)) ==> r == Err(PayloadUnreadable)
    ensures Readable(Payload(msg)) && !Truthy(Resolve(msg, "to", node.to)) ==> r == Err(MissingField("to"))
    ensures Readable(Payload(msg)) && Truthy(Resolve(msg, "to", node.to)) && !HasButtonParameters(node, msg)
      ==> r == Err(ButtonParametersMissing)
    ensures r.Ok? ==>
      var message := Vonage.MessageOf(r.value);
      var buttons := Prop(message, "buttons");
      && Vonage.Addressed(r.value, node.from, Resolve(msg, "to", node.to))
      && message.Obj? && message.props.Keys == {"type", "text", "buttons"}
      && Prop(message, "type") == Str("button")
      && Prop(message, "text") == Resolve(msg, "text", node.text)
      && buttons.Arr? && |buttons.items| == 1
      && buttons.items[0].Obj? && buttons.items[0].props.Keys == {"type", "title", "payload"}
      && Prop(buttons.items[0], "type") == Str("url")
      && Prop(buttons.items[0], "title") == Resolve(msg, "buttonTitle", node.buttonTitle)
      && Prop(buttons.items[0], "payload") == Resolve(msg, "url", node.urlLink)
      && Vonage.BasicAuth(r.value, node.apiKey, node.token, base64)
  {
    var payload := Payload(msg);
    if !Readable(payload) then Err(PayloadUnreadable)
    else
      var to := Resolve(msg, "to", node.to);
      if !Truthy(to) then Err(MissingField("to"))
      else
        var text := Resolve(msg, "text", node.text);
        var buttonTitle := Resolve(msg, "buttonTitle", node.buttonTitle);
        var urlLink := Resolve(msg, "url", node.urlLink);
        if !Truthy(text) || !Truthy(buttonTitle) || !Truthy(urlLink) then Err(ButtonParametersMissing)
        else
          var button := Obj(map["type" := Str("url"), "title" := buttonTitle, "payload" := urlLink]);
          var message := Obj(map["type" := Str("button"), "text" := text, "buttons" := Arr([button])]);
          Ok(Vonage.Post(Vonage.Envelope(node.from, to, message),
                         Vonage.BasicHeaders(node.apiKey, node.token, base64)))
  }

  /** One invocation: zero requests when a required field is missing, one otherwise. */
  function Invoke(node: Settings, msg: Value, base64: Vonage.Base64, o: FetchOutcome, parse: JsonParser)
    : (r: Invocation)
    ensures r.requests == [] <==>
      !(Readable(Payload(msg)) && Truthy(Resolve(msg, "to", node.to)) && HasButtonParameters(node, msg))
    ensures Readable(Payload(msg)) && Truthy(Resolve(msg, "to", node.to)) && !HasButtonParameters(node, msg)
      ==> r == Invocation([], Raised(ButtonParametersMissing))
    ensures r.requests != [] ==>
      |r.requests| == 1 && Vonage.BasicAuth(r.requests[0], node.apiKey, node.token, base64)
    ensures r.outcome.Sent? <==> r.requests != [] && o.Fetched? && parse(o.text).Parsed?
    ensures Build(node, msg, base64).Ok? ==> r.requests == [Build(node, msg, base64).value]
    ensures r.outcome.Sent? ==> r.outcome == Forward(msg, parse(o.text).value)
  {
    Vonage.Dispatch(Build(node, msg, base64), msg, o, parse)
  }
}
