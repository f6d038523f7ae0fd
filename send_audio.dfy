/** The `whatsapp-send-audio` node: sends an `audio` message whose URL is `audioUrl`, with
    Bearer authorization with the token. */
module SendAudio {
  import opened JsValues
  import opened NodeIo
  import Vonage

  /** The request the node builds from its configuration and the inbound message. */
  function Build(node: Vonage.MediaSettings, msg: Value): (r: Result<Request, Error>)
    ensures r.Ok? <==>
      Readable(Payload(msg)) && Truthy(Resolve(msg, "to", node.to)) && Truthy(Resolve(msg, "audioUrl", node.url))
    ensures !Readable(Payload(msg)) ==> r == Err(PayloadUnreadable)
    ensures Readable(Payload(msg)) && !Truthy(Resolve(msg, "to", node.to)) ==> r == Err(MissingField("to"))
    ensures Readable(Payload(msg)) && Truthy(Resolve(msg, "to", node.to)) && !Truthy(Resolve(msg, "audioUrl", node.url))
      ==> r == Err(MissingField("audioUrl"))
    ensures r.Ok? ==>
      && Vonage.Addressed(r.value, node.from, Resolve(msg, "to", node.to))
      && Prop(Vonage.MessageOf(r.value), "type") == Str("audio")
      && Prop(Prop(Vonage.MessageOf(r.value), "audio"), "url") == Resolve(msg, "audioUrl", node.url)
      && Vonage.CaptionResolved(r.value, "audio", msg, node.caption)
      && Vonage.BearerAuth(r.value, node.token)
  {
    Vonage.MediaBuild("audio", "audioUrl", node, msg, Vonage.BearerHeaders(node.token))
  }

  /** One invocation: no request at all unless the payload is readable and both
      the recipient and `audioUrl` resolve; otherwise one request, and the
      message is forwarded only when its response is JSON. */
  function Invoke(node: Vonage.MediaSettings, msg: Value, o: FetchOutcome, parse: JsonParser): (r: Invocation)
    ensures r.requests == [] <==>
      !(Readable(Payload(msg)) && Truthy(Resolve(msg, "to", node.to)) && Truthy(Resolve(msg, "audioUrl", node.url)))
    ensures Readable(Payload(msg)) && !Truthy(Resolve(msg, "to", node.to))
      ==> r == Invocation([], Raised(MissingField("to")))
    ensures r.requests != [] ==> |r.requests| == 1 && Vonage.BearerAuth(r.requests[0], node.token)
    ensures r.outcome.Sent? <==> r.requests != [] && o.Fetched? && parse(o.text).Parsed?
    ensures Build(node, msg).Ok? ==> r.requests == [Build(node, msg).value]
    ensures r.outcome.Sent? ==> r.outcome == Forward(msg, parse(o.text).value)
  {
    Vonage.Dispatch(Build(node, msg), msg, o, parse)
  }

  /** The node is configured with an apiKey, but its request does not depend
      on it: the Authorization header is Bearer, not Basic. */
  lemma ApiKeyUnused(node: Vonage.MediaSettings, msg: Value, apiKey: Value)
    ensures Build(node.(apiKey := apiKey), msg) == Build(node, msg)
  {
  }
}
