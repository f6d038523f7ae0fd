/** The `whatsapp-send-file` node: sends a `file` message whose URL is `fileUrl`, with
    Basic authorization built from apiKey and token. */
module SendFile {
  import opened JsValues
  import opened NodeIo
  import Vonage

  /** The request the node builds from its configuration and the inbound message. */
  function Build(node: Vonage.MediaSettings, msg: Value, base64: Vonage.Base64): (r: Result<Request, Error>)
    ensures r.Ok? <==>
      Readable(Payload(msg)) && Truthy(Resolve(msg, "to", node.to)) && Truthy(Resolve(msg, "fileUrl", node.url))
    ensures !Readable(Payload(msg)) ==> r == Err(PayloadUnreadable)
    ensures Readable(Payload(msg)) && !Truthy(Resolve(msg, "to", node.to)) ==> r == Err(MissingField("to"))
    ensures Readable(Payload(msg)) && Truthy(Resolve(msg, "to", node.to)) && !Truthy(Resolve(msg, "fileUrl", node.url))
      ==> r == Err(MissingField("fileUrl"))
    ensures r.Ok? ==>
      && Vonage.Addressed(r.value, node.from, Resolve(msg, "to", node.to))
      && Prop(Vonage.MessageOf(r.value), "type") == Str("file")
      && Prop(Prop(Vonage.MessageOf(r.value), "file"), "url") == Resolve(msg, "fileUrl", node.url)
      && Vonage.CaptionResolved(r.value, "file", msg, node.caption)
      && Vonage.BasicAuth(r.value, node.apiKey, node.token, base64)
  {
    Vonage.MediaBuild("file", "fileUrl", node, msg, Vonage.BasicHeaders(node.apiKey, node.token, base64))
  }

  /** One invocation: no request at all unless the payload is readable and both
      the recipient and `fileUrl` resolve; otherwise one request, and the
      message is forwarded only when its response is JSON. */
  function Invoke(node: Vonage.MediaSettings, msg: Value, base64: Vonage.Base64, o: FetchOutcome, parse: JsonParser): (r: Invocation)
    ensures r.requests == [] <==>
      !(Readable(Payload(msg)) && Truthy(Resolve(msg, "to", node.to)) && Truthy(Resolve(msg, "fileUrl", node.url)))
    ensures Readable(Payload(msg)) && !Truthy(Resolve(msg, "to", node.to))
      ==> r == Invocation([], Raised(MissingField("to")))
    ensures r.requests != [] ==> |r.requests| == 1 && Vonage.BasicAuth(r.requests[0], node.apiKey, node.token, base64)
    ensures r.outcome.Sent? <==> r.requests != [] && o.Fetched? && parse(o.text).Parsed?
    ensures Build(node, msg, base64).Ok? ==> r.requests == [Build(node, msg, base64).value]
    ensures r.outcome.Sent? ==> r.outcome == Forward(msg, parse(o.text).value)
  {
    Vonage.Dispatch(Build(node, msg, base64), msg, o, parse)
  }
}
