/** The `whatsapp-send-video` node: sends a `video` message whose URL is `videoUrl`, with
    Bearer authorization with the token. */
module SendVideo {
  import opened JsValues
  import opened NodeIo
  import Vonage

  /** The request the node builds from its configuration and the inbound message. */
  function Build(node: Vonage.MediaSettings, msg: Value): (r: Result<Request, Error>)
    ensures r.Ok? <==>
      Readable(Payload(msg)) && Truthy(Resolve(msg, "to", node.to)) && Truthy(Resolve(msg, "videoUrl", node.url))
    ensures !Readable(Payload(msg)) ==> r == Err(PayloadUnreadable)
    ensures Readable(Payload(msg)) && !Truthy(Resolve(msg, "to", node.to)) ==> r == Err(MissingField("to"))
    ensures Readable(Payload(msg)) && Truthy(Resolve(msg, "to", node.to)) && !Truthy(Resolve(msg, "videoUrl", node.url))
      ==> r == Err(MissingField("videoUrl"))
    ensures r.Ok? ==>
      && Vonage.Addressed(r.value, node.from, Resolve(msg, "to", node.to))
      && Prop(Vonage.MessageOf(r.value), "type") == Str("video")
      && Prop(Prop(Vonage.MessageOf(r.value), "video"), "url") == Resolve(msg, "videoUrl", node.url)
      && Vonage.CaptionResolved(r.value, "video", msg, node.caption)
      && Vonage.BearerAuth(r.value, node.token)
  {
    Vonage.MediaBuild("video", "videoUrl", node, msg, Vonage.BearerHeaders(node.token))
  }

  /** One invocation: no request at all unless the payload is readable and both
      the recipient and `videoUrl` resolve; otherwise one request, and the
      message is forwarded only when its response is JSON. */
  function Invoke(node: Vonage.MediaSettings, msg: Value, o: FetchOutcome, parse: JsonParser): (r: Invocation)
    ensures r.requests == [] <==>
      !(Readable(Payload(msg)) && Truthy(Resolve(msg, "to", node.to)) && Truthy(Resolve(msg, "videoUrl", node.url)))
    ensures Readable(Payload(msg)) && !Truthy(Resolve(msg, "to", node.to))
      ==> r == Invocation([], Raised(MissingField("to")))
    ensures r.requests != [] ==> |r.requests| == 1 && Vonage.BearerAuth(r.requests[0], node.token)
    ensures r.outcome.Sent? <==> r.requests != [] && o.Fetched? && parse(o.text).Parsed?
    ensures Build(node, msg).Ok? ==> r.requests == [Build(node, msg).value]
    ensures r.outcome.Sent? ==> r.outcome == Forward(msg, parse(o.text).value)
  {
    Vonage.Dispatch(Build(node, msg), msg, o, parse)
  }
}
