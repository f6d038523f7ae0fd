/** The `whatsapp-mark-as-read` node: reports a message as read, with Bearer
    authorization. */
module MarkAsRead {
  import opened JsValues
  import opened NodeIo
  import Vonage

  datatype Settings = Settings(apiKey: Value, token: Value, messageId: Value)

  /** The request the node builds: the body is exactly `{message_id, status: "read"}`,
      with no sender and no recipient. */
  function Build(node: Settings, msg: Value): (r: Result<Request, Error>)
    ensures r.Ok? <==> Readable(Payload(msg)) && Truthy(Resolve(msg, "message_id", node.messageId))
    ensures !Readable(Payload(msg)) ==> r == Err(PayloadUnreadable)
    ensures Readable(Payload(msg)) && !Truthy(Resolve(msg, "message_id", node.messageId))
      ==> r == Err(MissingField("message_id"))
    ensures r.Ok? ==>
      && r.value.url == Str(Vonage.MessagesUrl)
      && r.value.body.Json? && r.value.body.value.Obj?
      && r.value.body.value.props.Keys == {"message_id", "status"}
      && r.value.body.value.props["message_id"] == Resolve(msg, "message_id", node.messageId)
      && r.value.body.value.props["status"] == Str("read")
      && Vonage.BearerAuth(r.value, node.token)
  {
    var payload := Payload(msg);
    if !Readable(payload) then Err(PayloadUnreadable)
    else
      var messageId := Resolve(msg, "message_id", node.messageId);
      if !Truthy(messageId) then Err(MissingField("message_id"))
      else Ok(Vonage.Post(Obj(map["message_id" := messageId, "status" := Str("read")]), Vonage.BearerHeaders(node.token)))
  }

  /** One invocation: zero requests without a message id, one otherwise. */
  function Invoke(node: Settings, msg: Value, o: FetchOutcome, parse: JsonParser): (r: Invocation)
    ensures r.requests == [] <==> !(Readable(Payload(msg)) && Truthy(Resolve(msg, "message_id", node.messageId)))
    ensures Readable(Payload(msg)) && !Truthy(Resolve(msg, "message_id", node.messageId))
      ==> r == Invocation([], Raised(MissingField("message_id")))
    ensures r.requests != [] ==> |r.requests| == 1 && Vonage.BearerAuth(r.requests[0], node.token)
    ensures r.outcome.Sent? <==> r.requests != [] && o.Fetched? && parse(o.text).Parsed?
    ensures Build(node, msg).Ok? ==> r.requests == [Build(node, msg).value]
    ensures r.outcome.Sent? ==> r.outcome == Forward(msg, parse(o.text).value)
  {
    Vonage.Dispatch(Build(node, msg), msg, o, parse)
  }
}
