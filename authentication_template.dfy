/** The `whatsapp-send-authentication-template` node: sends an
    `authentication_template` message, with Bearer authorization. */
module AuthenticationTemplate {
  import opened JsValues
  import opened NodeIo
  import Vonage

  datatype Settings = Settings(
    from: Value, apiKey: Value, token: Value, to: Value, templateName: Value, language: Value, components: Value)

  /** The request the node builds: the recipient is checked, then the
      components are resolved; the template's name and language come from the
      configuration only. */
  function Build(node: Settings, msg: Value, parse: JsonParser): (r: Result<Request, Error>)
    ensures r.Ok? <==>
      Readable(Payload(msg)) && Truthy(Resolve(msg, "to", node.to))
      && Vonage.ResolveParsed(msg, "components", node.components, parse).Ok?
    ensures !Readable(Payload(msg)) ==> r == Err(PayloadUnreadable)
    ensures Readable(Payload(msg)) && !Truthy(Resolve(msg, "to", node.to)) ==> r == Err(MissingField("to"))
    ensures r == Err(UnparsableConfig("components")) <==>
      && Readable(Payload(msg)) && Truthy(Resolve(msg, "to", node.to))
      && !Truthy(Prop(Payload(msg), "components")) && Truthy(node.components)
      && parse(JsString(node.components)).ParseFail?
    ensures r.Ok? ==>
      var message := Vonage.MessageOf(r.value);
      var template := Prop(message, "template");
      && Vonage.Addressed(r.value, node.from, Resolve(msg, "to", node.to))
      && message.Obj? && message.props.Keys == {"type", "template"}
      && Prop(message, "type") == Str("authentication_template")
      && template.Obj? && template.props.Keys == {"name", "language", "components"}
      && Prop(template, "name") == node.templateName
      && Prop(template, "language") == node.language
      && Prop(template, "components") == Vonage.ResolveParsed(msg, "components", node.components, parse).value
      && Vonage.BearerAuth(r.value, node.token)
  {
    var payload := Payload(msg);
    if !Readable(payload) then Err(PayloadUnreadable)
    else
      var to := Resolve(msg, "to", node.to);
      if !Truthy(to) then Err(MissingField("to"))
      else
        match Vonage.ResolveParsed(msg, "components", node.components, parse)
        case Err(e) => Err(e)
        case Ok(components) =>
          var template := Obj(map["name" := node.templateName, "language" := node.language, "components" := components]);
          var message := Obj(map["type" := Str("authentication_template"), "template" := template]);
          Ok(Vonage.Post(Vonage.Envelope(node.from, to, message), Vonage.BearerHeaders(node.token)))
  }

  /** One invocation: zero requests when the recipient is missing or the
      configured components do not parse, one otherwise; any JSON response is
      forwarded, whatever its status. */
  function Invoke(node: Settings, msg: Value, o: FetchOutcome, parse: JsonParser): (r: Invocation)
    ensures r.requests == [] <==> Build(node, msg, parse).Err?
    ensures Readable(Payload(msg)) && !Truthy(Resolve(msg, "to", node.to))
      ==> r == Invocation([], Raised(MissingField("to")))
    ensures r.requests != [] ==> |r.requests| == 1 && Vonage.BearerAuth(r.requests[0], node.token)
    ensures r.requests != [] && o.Fetched? && parse(o.text).Parsed? ==> r.outcome == Forward(msg, parse(o.text).value)
    ensures r.outcome.Sent? <==> r.requests != [] && o.Fetched? && parse(o.text).Parsed?
    ensures Build(node, msg, parse).Ok? ==> r.requests == [Build(node, msg, parse).value]
    ensures r.outcome.Sent? ==> r.outcome == Forward(msg, parse(o.text).value)
  {
    Vonage.Dispatch(Build(node, msg, parse), msg, o, parse)
  }

  /** The inbound payload cannot change the template's name or language: any
      two messages that both get a request send the same ones. */
  lemma TemplateFromConfigOnly(node: Settings, msg1: Value, msg2: Value, parse: JsonParser)
    requires Build(node, msg1, parse).Ok? && Build(node, msg2, parse).Ok?
    ensures var t1 := Prop(Vonage.MessageOf(Build(node, msg1, parse).value), "template");
      var t2 := Prop(Vonage.MessageOf(Build(node, msg2, parse).value), "template");
      Prop(t1, "name") == Prop(t2, "name") && Prop(t1, "language") == Prop(t2, "language")
  {
  }
}
