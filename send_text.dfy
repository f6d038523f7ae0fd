/** The `whatsapp-send-text` node: sends a `text` message with Bearer
    authorization. */
module SendText {
  import opened JsValues
  import opened NodeIo
  import Vonage

  datatype Settings = Settings(from: Value, apiKey: Value, token: Value, to: Value, text: Value)

  /** The request the node builds. The recipient is checked before the text, so
      when both are missing only the recipient is reported. */
  function Build(node: Settings, msg: Value): (r: Result<Request, Error>)
    ensures r.Ok? <==>
      Readable(Payload(msg)) && Truthy(Resolve(msg, "to", node.to)) && Truthy(Resolve(msg, "text", node.text))
    ensures !Readable(Payload(msg)) ==> r == Err(PayloadUnreadable)
    ensures Readable(Payload(msg)) && !Truthy(Resolve(msg, "to", node.to)) ==> r == Err(MissingField("to"))
    ensures Readable(Payload(msg)) && Truthy(Resolve(msg, "to", node.to)) && !Truthy(Resolve(msg, "text", node.text))
      ==> r == Err(MissingField("text"))
    ensures r.Ok? ==>
      var message := Vonage.MessageOf(r.value);
      && Vonage.Addressed(r.value, node.from, Resolve(msg, "to", node.to))
      && message.Obj? && message.props.Keys == {"type", "text"}
      && Prop(message, "type") == Str("text")
      && Prop(message, "text") == Resolve(msg, "text", node.text)
      && Vonage.BearerAuth(r.value, node.token)
  {
    var payload := Payload(msg);
    if !Readable(payload) then Err(PayloadUnreadable)
    else
      var to := Resolve(msg, "to", node.to);
      if !Truthy(to) then Err(MissingField("to"))
      else
        var text := Resolve(msg, "text", node.text);
        if !Truthy(text) then Err(MissingField("text"))
        else
          var message := Obj(map["type" := Str("text"), "text" := text]);
          Ok(Vonage.Post(Vonage.Envelope(node.from, to, message), Vonage.BearerHeaders(node.token)))
  }

  /** One invocation: zero requests when a required field is missing, one
      otherwise; the response is forwarded only when it is JSON. */
  function Invoke(node: Settings, msg: Value, o: FetchOutcome, parse: JsonParser): (r: Invocation)
    ensures r.requests == [] <==>
      !(Readable(Payload(msg)) && Truthy(Resolve(msg, "to", node.to)) && Truthy(Resolve(msg, "text", node.text)))
    ensures Readable(Payload(msg)) && !Truthy(Resolve(msg, "to", node.to))
      ==> r == Invocation([], Raised(MissingField("to")))
    ensures r.requests != [] ==> |r.requests| == 1 && Vonage.BearerAuth(r.requests[0], node.token)
    ensures r.outcome.Sent? <==> r.requests != [] && o.Fetched? && parse(o.text).Parsed?
    ensures Build(node, msg).Ok? ==> r.requests == [Build(node, msg).value]
    ensures r.outcome.Sent? ==> r.outcome == Forward(msg, parse(o.text).value)
  {
    Vonage.Dispatch(Build(node, msg), msg, o, parse)
  }

  /** An inbound `{to: "A", text: "hi"}` overrides whatever the node is configured with. */
  lemma InboundOverrides(node: Settings, msg: Value)
    requires Payload(msg) == Obj(map["to" := Str("A"), "text" := Str("hi")])
    ensures Build(node, msg).Ok?
    ensures Build(node, msg).value.body.value.props["to"] == Str("A")
    ensures Prop(Vonage.MessageOf(Build(node, msg).value), "text") == Str("hi")
  {
  }

  /** With no inbound overrides the configured `to` and `text` are used. */
  lemma ConfigFallback(node: Settings, msg: Value)
    requires Payload(msg) == Obj(map[]) && node.to == Str("B") && node.text == Str("default")
    ensures Build(node, msg).Ok?
    ensures Build(node, msg).value.body.value.props["to"] == Str("B")
    ensures Prop(Vonage.MessageOf(Build(node, msg).value), "text") == Str("default")
  {
  }
}
