/** The `whatsapp-send-button-quick-reply` node: sends a `button` message whose
    buttons come from the message or from configured JSON, with Basic
    authorization. */
module ButtonQuickReply {
  import opened JsValues
  import opened NodeIo
  import Vonage

  datatype Settings = Settings(from: Value, apiKey: Value, token: Value, to: Value, text: Value, buttons: Value)

  /** The request the node builds. Checks run in the order recipient, text,
      buttons; the first that fails ends the invocation. */
  function Build(node: Settings, msg: Value, base64: Vonage.Base64, parse: JsonParser): (r: Result<Request, Error>)
    ensures r.Ok? <==>
      && Readable(Payload(msg)) && Truthy(Resolve(msg, "to", node.to)) && Truthy(Resolve(msg, "text", node.text))
      && Vonage.ResolveParsed(msg, "buttons", node.buttons, parse).Ok?
    ensures !Readable(Payload(msg)) ==> r == Err(PayloadUnreadable)
    ensures Readable(Payload(msg)) && !Truthy(Resolve(msg, "to", node.to)) ==> r == Err(MissingField("to"))
    ensures Readable(Payload(msg)) && Truthy(Resolve(msg, "to", node.to)) && !Truthy(Resolve(msg, "text", node.text))
      ==> r == Err(MissingField("text"))
    ensures r == Err(UnparsableConfig("buttons")) <==>
      && Readable(Payload(msg)) && Truthy(Resolve(msg, "to", node.to)) && Truthy(Resolve(msg, "text", node.text))
      && !Truthy(Prop(Payload(msg), "buttons")) && Truthy(node.buttons)
      && parse(JsString(node.buttons)).ParseFail?
    ensures r.Ok? ==>
      var message := Vonage.MessageOf(r.value);
      && Vonage.Addressed(r.value, node.from, Resolve(msg, "to", node.to))
      && message.Obj? && message.props.Keys == {"type", "text", "buttons"}
      && Prop(message, "type") == Str("button")
      && Prop(message, "text") == Resolve(msg, "text", node.text)
      && Prop(message, "buttons") == Vonage.ResolveParsed(msg, "buttons", node.buttons, parse).value
      && Vonage.BasicAuth(r.value, node.apiKey, node.token, base64)
  {
    var payload := Payload(msg);
    if !Readable(payload) then Err(PayloadUnreadable)
    else
      var to := Resolve(msg, "to", node.to);
      if !Truthy(to) then Err(MissingField("to"))
      else
        var text := Resolve(msg, "text", node.text);
        if !Truthy(text) then Err(MissingField("text"))
        else
          match Vonage.ResolveParsed(msg, "buttons", node.buttons, parse)
          case Err(e) => Err(e)
          case Ok(buttons) =>
            var message := Obj(map["type" := Str("button"), "text" := text, "buttons" := buttons]);
            Ok(Vonage.Post(Vonage.Envelope(node.from, to, message),
                           Vonage.BasicHeaders(node.apiKey, node.token, base64)))
  }

  /** One invocation: zero requests when a check fails, one otherwise. */
  function Invoke(node: Settings, msg: Value, base64: Vonage.Base64, o: FetchOutcome, parse: JsonParser)
    : (r: Invocation)
    ensures r.requests == [] <==> Build(node, msg, base64, parse).Err?
    ensures Readable(Payload(msg)) && Truthy(Resolve(msg, "to", node.to)) && Truthy(Resolve(msg, "text", node.text))
      && !Truthy(Prop(Payload(msg), "buttons")) && Truthy(node.buttons) && parse(JsString(node.buttons)).ParseFail?
      ==> r == Invocation([], Raised(UnparsableConfig("buttons")))
    ensures r.requests != [] ==>
      |r.requests| == 1 && Vonage.BasicAuth(r.requests[0], node.apiKey, node.token, base64)
    ensures r.outcome.Sent? <==> r.requests != [] && o.Fetched? && parse(o.text).Parsed?
    ensures Build(node, msg, base64, parse).Ok? ==> r.requests == [Build(node, msg, base64, parse).value]
    ensures r.outcome.Sent? ==> r.outcome == Forward(msg, parse(o.text).value)
  {
    Vonage.Dispatch(Build(node, msg, base64, parse), msg, o, parse)
  }

  /** Inbound buttons are used as they are, without parsing, and whatever the
      configured JSON holds (even text that does not parse). */
  lemma InboundButtonsUnparsed(node: Settings, msg: Value, base64: Vonage.Base64, parse: JsonParser)
    requires Readable(Payload(msg)) && Truthy(Resolve(msg, "to", node.to)) && Truthy(Resolve(msg, "text", node.text))
    requires Truthy(Prop(Payload(msg), "buttons"))
    ensures Build(node, msg, base64, parse).Ok?
    ensures Prop(Vonage.MessageOf(Build(node, msg, base64, parse).value), "buttons") == Prop(Payload(msg), "buttons")
  {
  }
}
