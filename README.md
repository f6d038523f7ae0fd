# Node-RED broker nodes: what one invocation sends and how it ends

This project models the per-invocation logic of the eleven Node-RED nodes in
`node-red-contrib-broker`:

- the MobileX push-notification node, which authenticates with client
  credentials and then posts a push notification with the bearer token it
  obtained;
- ten WhatsApp nodes. Each posts one message to the Vonage messages endpoint
  `https://api.nexmo.com/v0.1/messages`: text, image, file, audio, video,
  generic media, link button, quick-reply buttons, authentication template,
  and mark-as-read.

For every node the model answers four questions:

- how each field resolves (the inbound `msg.payload` value when truthy, else
  the node's configuration, else a default);
- which checks run, in what order, and which error ends the invocation;
- exactly which request is built: URL, body fields and Authorization header;
- how the HTTP outcome is classified, and what is forwarded as `msg.payload`.

Modules:

- `JsValues` (`js_values.dfy`): JavaScript values and their truthiness; `||`;
  property reads and writes; `String(v)` as string concatenation renders it,
  with decimal rendering of integers and its round trip.
- `NodeIo` (`node_io.dfy`): requests, errors, the outcomes axios and fetch
  report, how an axios promise settles, and forwarding a message.
- `Vonage` (`vonage.dfy`): what the WhatsApp nodes share. This is the
  endpoint, the Bearer and Basic headers, the `{from, to, message}` envelope,
  the fetch chain, and the media message builder.
- One module per WhatsApp node: `SendText`, `SendImage`, `SendFile`,
  `SendAudio`, `SendVideo`, `SendMedia`, `ButtonLink`, `ButtonQuickReply`,
  `AuthenticationTemplate`, `MarkAsRead`.
  - Each has a `Build` function: the request, or the error that stops the
    node before any request.
  - Each has an `Invoke` function: the requests issued and the final outcome.
- `MobileXPush` (`mobilex_push.dfy`): the push node.
  - `OnInput` is a method. Like the node, it builds the payload with empty
    lists and then overwrites `targets.userids` and `actionPush`.
  - It is proved to produce the payload that the function `PushPayload`
    describes. The lemmas about the payload are stated on `PushPayload`.

External behaviour enters as parameters:

- `JSON.parse` is a `JsonParser` (text to `Parsed(value)` or `ParseFail`).
  Lemmas that need `JSON.parse("[]")` to be the empty list say so with
  `ReadsEmptyList`.
- Base64 encoding is a function `string -> string`.
- What axios reports for a request is an `AxiosOutcome`: a response with
  status and data, no response, or a setup error.
- What fetch reports is a `FetchOutcome`: a response with status and body
  text, or a rejection.

Behaviour of the code worth knowing, which the model follows:

- A configured `components` (authentication template) or `buttons` (quick
  reply) that does not parse ends the invocation with an error and sends no
  request (whatsapp-send-button-quick-reply.js:28-32,
  whatsapp-send-authentication-template.js:27-32). Only the push node's
  `userids` and `actionPush` fall back to an empty list on a parse failure
  (mobilex-push-notification.js:113-149).
- The WhatsApp nodes forward any response whose body parses as JSON, whatever
  its HTTP status, so a 500 with a JSON body is forwarded, not raised. A body
  that is not JSON raises an error even on a 2xx status
  (whatsapp-send-text.js:45-53). Only the push node keeps a non-JSON 2xx body
  as it is, and raises an error for a non-2xx status
  (mobilex-push-notification.js:165-197).
- `targets.addressState` is an empty list (mobilex-push-notification.js:94).

## Model

| member | source | states |
|---|---|---|
| JsValues.Or | nodes/mobilex-push-notification/mobilex-push-notification.js:102-103 | `a \|\| b` is truthy exactly when either operand is; it is `a` when `a` is truthy and `b` otherwise |
| JsValues.NatToDecimal | nodes/mobilex-push-notification/mobilex-push-notification.js:155 | the rendering of a number in a header is a non-empty string of decimal digits with no leading zero |
| JsValues.DecimalRoundTrip | nodes/mobilex-push-notification/mobilex-push-notification.js:155 | reading the decimal rendering of a number back gives the number |
| NodeIo.Settle | nodes/mobilex-push-notification/mobilex-push-notification.js:206-221 | an axios request resolves with its data exactly on a 2xx response; a rejection is an HTTP status (status and body kept), no response, or a setup failure, each exactly in its own case |
| NodeIo.Resolve | nodes/whatsapp-send-text/whatsapp-send-text.js:16 | `msg.payload[key] \|\| configured`: the inbound value when truthy, otherwise the configured one |
| NodeIo.Forward | nodes/whatsapp-send-text/whatsapp-send-text.js:48-49 | the forwarded message has `payload` set to the response data and every other property unchanged |
| Vonage.Deliver | nodes/whatsapp-send-text/whatsapp-send-text.js:45-53 | the message is forwarded exactly when fetch returns a response whose body parses, with the parsed body as payload; otherwise the send fails |
| Vonage.DeliverIgnoresStatus | nodes/whatsapp-send-text/whatsapp-send-text.js:45-50 | two responses with the same body and different HTTP statuses end the invocation the same way |
| Vonage.Dispatch | nodes/whatsapp-send-image/whatsapp-send-image.js:16-57 | a failed build issues no request and raises its error; a successful build issues exactly that one request, and the response decides the outcome |
| Vonage.ResolveParsed | nodes/whatsapp-send-authentication-template/whatsapp-send-authentication-template.js:26-32 | a truthy inbound value is used unparsed; otherwise a truthy configured value is parsed, and a parse failure is an error for that field; with neither, `[]` |
| Vonage.MediaBuild | nodes/whatsapp-send-media-mtm/whatsapp-send-media-mtm.js:16-50 | the request exists exactly when the payload is readable and both the recipient and the URL resolve; the recipient is checked first; the message is `{type: kind, kind: {url, caption}}` with the caption the inbound one, else the configured one, else `""` |
| SendText.Build | nodes/whatsapp-send-text/whatsapp-send-text.js:15-43 | the recipient and then the text are required, and when both are missing only the recipient error is raised; the body is exactly `{from, to, message: {type: "text", text}}` with a Bearer header |
| SendText.Invoke | nodes/whatsapp-send-text/whatsapp-send-text.js:15-53 | no request without a recipient and text; otherwise exactly the built request, with the Bearer header, and the message is forwarded with the parsed body as payload exactly when the response is JSON |
| SendText.InboundOverrides | nodes/whatsapp-send-text/whatsapp-send-text.js:16-21 | an inbound `{to: "A", text: "hi"}` is what gets sent, whatever the configuration |
| SendText.ConfigFallback | nodes/whatsapp-send-text/whatsapp-send-text.js:16-21 | with an empty payload, the configured `to` and `text` are sent |
| SendImage.Build | nodes/whatsapp-send-image/whatsapp-send-image.js:16-47 | recipient, then `imageUrl`, are required; the message is of type `image` with `image.url` the resolved URL and the caption the inbound one, else the configured one, else `""`; Basic header from `apiKey:token` |
| SendImage.Invoke | nodes/whatsapp-send-image/whatsapp-send-image.js:16-57 | no request when a check fails; otherwise exactly the built request, with the Basic header, and the message is forwarded with the parsed body as payload exactly when the response is JSON |
| SendFile.Build | nodes/whatsapp-send-file/whatsapp-send-file.js:16-47 | recipient, then `fileUrl`, are required; the message is of type `file` with `file.url` the resolved URL and the caption the inbound one, else the configured one, else `""`; Basic header |
| SendFile.Invoke | nodes/whatsapp-send-file/whatsapp-send-file.js:16-57 | no request when a check fails; otherwise exactly the built request, with the Basic header, and the message is forwarded with the parsed body as payload exactly when the response is JSON |
| SendAudio.Build | nodes/whatsapp-send-audio/whatsapp-send-audio.js:16-47 | recipient, then `audioUrl`, are required; the message is of type `audio` with `audio.url` the resolved URL and the caption the inbound one, else the configured one, else `""`; Bearer header |
| SendAudio.Invoke | nodes/whatsapp-send-audio/whatsapp-send-audio.js:16-57 | no request when a check fails; otherwise exactly the built request, with the Bearer header, and the message is forwarded with the parsed body as payload exactly when the response is JSON |
| SendAudio.ApiKeyUnused | nodes/whatsapp-send-audio/whatsapp-send-audio.js:10-44 | the configured `apiKey` has no effect on the request: the header is Bearer, not Basic |
| SendVideo.Build | nodes/whatsapp-send-video/whatsapp-send-video.js:16-47 | recipient, then `videoUrl`, are required; the message is of type `video` with `video.url` the resolved URL and the caption the inbound one, else the configured one, else `""`; Bearer header |
| SendVideo.Invoke | nodes/whatsapp-send-video/whatsapp-send-video.js:16-57 | no request when a check fails; otherwise exactly the built request, with the Bearer header, and the message is forwarded with the parsed body as payload exactly when the response is JSON |
| SendMedia.Build | nodes/whatsapp-send-media-mtm/whatsapp-send-media-mtm.js:16-50 | recipient, then `mediaUrl`, are required; the message is of type `media` with `media.url` the resolved URL and the caption the inbound one, else the configured one, else `""`; Bearer header |
| SendMedia.Invoke | nodes/whatsapp-send-media-mtm/whatsapp-send-media-mtm.js:16-60 | no request when a check fails; otherwise exactly the built request, with the Bearer header, and the message is forwarded with the parsed body as payload exactly when the response is JSON |
| ButtonLink.Build | nodes/whatsapp-send-button-link/whatsapp-send-button-link.js:17-54 | the recipient is checked first; text, button title and URL share one error; the message holds exactly one button `{type: "url", title, payload: url}`; Basic header |
| ButtonLink.Invoke | nodes/whatsapp-send-button-link/whatsapp-send-button-link.js:17-64 | no request when a parameter is missing; otherwise exactly the built request, with the Basic header, and the message is forwarded with the parsed body as payload exactly when the response is JSON |
| ButtonQuickReply.Build | nodes/whatsapp-send-button-quick-reply/whatsapp-send-button-quick-reply.js:16-53 | recipient, then text, then buttons; an unparsable configured `buttons` is an error exactly when no inbound buttons are given; the message is `{type: "button", text, buttons}`; Basic header |
| ButtonQuickReply.Invoke | nodes/whatsapp-send-button-quick-reply/whatsapp-send-button-quick-reply.js:16-63 | no request when a check fails, including an unparsable configured `buttons`; otherwise exactly the built request, with the Basic header, and the message is forwarded with the parsed body as payload exactly when the response is JSON |
| ButtonQuickReply.InboundButtonsUnparsed | nodes/whatsapp-send-button-quick-reply/whatsapp-send-button-quick-reply.js:29 | truthy inbound buttons are sent as they are, whatever the configured JSON holds |
| AuthenticationTemplate.Build | nodes/whatsapp-send-authentication-template/whatsapp-send-authentication-template.js:18-56 | the recipient is required, then the components resolve (an unparsable configured value is an error); the message is an `authentication_template` whose name and language are the configured ones; Bearer header |
| AuthenticationTemplate.Invoke | nodes/whatsapp-send-authentication-template/whatsapp-send-authentication-template.js:18-66 | no request when the build fails; otherwise exactly the built request, with the Bearer header, and any JSON response is forwarded as the payload, whatever its status |
| AuthenticationTemplate.TemplateFromConfigOnly | nodes/whatsapp-send-authentication-template/whatsapp-send-authentication-template.js:40-44 | any two inbound messages that both get a request send the same template name and language |
| MarkAsRead.Build | nodes/whatsapp-mark-as-read/whatsapp-mark-as-read.js:13-34 | a message id is required (inbound over config); the body is exactly `{message_id, status: "read"}`, with no sender or recipient; Bearer header to the messages endpoint |
| MarkAsRead.Invoke | nodes/whatsapp-mark-as-read/whatsapp-mark-as-read.js:13-44 | no request without a message id; otherwise exactly the built request, with the Bearer header, and the message is forwarded with the parsed body as payload exactly when the response is JSON |
| MobileXPush.Configure | nodes/mobilex-push-notification/mobilex-push-notification.js:20-39 | the author and both endpoints fall back to their defaults when falsy, so they are always truthy; every other field is kept as configured |
| MobileXPush.AuthRequest | nodes/mobilex-push-notification/mobilex-push-notification.js:50-61 | the auth request goes to the auth endpoint with only the form Content-Type header and exactly two form fields, `grant_type=client_credentials` then `client_secret` |
| MobileXPush.AuthRequestDependsOnSecretAndUrl | nodes/mobilex-push-notification/mobilex-push-notification.js:50-61 | two nodes send the same auth request exactly when their auth endpoints are equal and their client secrets render to the same text |
| MobileXPush.Authenticate | nodes/mobilex-push-notification/mobilex-push-notification.js:62-79 | a token exists only after a 2xx auth response; the data is parsed first when it is a string, and a string that does not parse is `AuthUnparsable`; otherwise there is a token exactly when the data's `access_token` is truthy, and it is that value, and a falsy one is `AuthTokenMissing` carrying the data; a rejection is `AuthFailed` with its classified failure |
| MobileXPush.ListFrom | nodes/mobilex-push-notification/mobilex-push-notification.js:113-129 | an array is kept, a truthy string is parsed and kept only when it gives an array, anything else gives `[]`; the result always comes from the input or is empty |
| MobileXPush.ListFromFalsy | nodes/mobilex-push-notification/mobilex-push-notification.js:114 | an absent or falsy input gives the empty list |
| MobileXPush.PayloadFields | nodes/mobilex-push-notification/mobilex-push-notification.js:86-111 | the push payload has exactly its fourteen fields |
| MobileXPush.ConstantFieldsFixed | nodes/mobilex-push-notification/mobilex-push-notification.js:86-111 | `tiposArray`, `actions`, `momentoEnvio`, `tipoEnvio`, `source`, `sendToAll`, `sendInbox`, `sendPush` and `level` are the same whatever the node, message and parser |
| MobileXPush.FiltersEmpty | nodes/mobilex-push-notification/mobilex-push-notification.js:88-96 | `targets` has exactly its seven fields, and every filter except `userids` is an empty object or list |
| MobileXPush.OverwriteLists | nodes/mobilex-push-notification/mobilex-push-notification.js:117-148 | overwriting `targets.userids` and `actionPush` in the payload built with empty lists gives the payload built with those values directly |
| MobileXPush.ConfigBeatsMessage | nodes/mobilex-push-notification/mobilex-push-notification.js:102-103 | subject and content take the node's value first, then the message's top-level field, then the default text |
| MobileXPush.PayloadIgnoresMsgPayload | nodes/mobilex-push-notification/mobilex-push-notification.js:86-149 | changing `msg.payload` never changes the push payload |
| MobileXPush.ListsFromInputs | nodes/mobilex-push-notification/mobilex-push-notification.js:113-149 | `targets.userids` is the list `ListFrom` gives for `msg.userids`, and `actionPush` the list it gives for the node's `actionPush` |
| MobileXPush.PushRequest | nodes/mobilex-push-notification/mobilex-push-notification.js:151-165 | the push request carries the payload as JSON to the push endpoint, with exactly the headers `Accept`, `AppCompanyId` (the node's company id), `Authorization` (`Bearer <token>`), `Connection` and `Content-Type` and their fixed values |
| MobileXPush.PushData | nodes/mobilex-push-notification/mobilex-push-notification.js:167-176 | a string response is parsed when it can be and kept raw when it cannot; other data is kept as it is |
| MobileXPush.OnInput | nodes/mobilex-push-notification/mobilex-push-notification.js:42-222 | from the configuration with its defaults applied: the auth request is always issued first, to a truthy URL; the push request is issued exactly when authentication yields a token, and it carries `Bearer <token>` and the payload `PushPayload` describes; a push success forwards the data, and a push rejection raises its classified failure |

## Left out

- Transport: axios and node-fetch, promises, keep-alive and TLS. What a request
  yields is a parameter (`AxiosOutcome`, `FetchOutcome`).
- Node-RED plumbing: `createNode`, `registerType`, the input handler, and
  `node.send`/`log`/`warn`/`error`. The emitted message or raised error is the
  `Outcome` returned.
- The push node reports an auth response whose string does not parse, or that
  has no token, with two `node.error(..., msg)` calls, so a Catch node sees
  two errors (mobilex-push-notification.js:70-71, 201-202). The model raises
  one `AuthUnparsable` or `AuthTokenMissing`.
- `node.status` updates, and the timer that clears the status after 7 seconds.
  They form a display side channel with no effect on requests or outcomes.
- The JSON grammar and `JSON.parse`. The parser is a parameter, so the model
  holds for any parser.
- `JSON.stringify` of request bodies: key order, dropping of `undefined`
  fields, and exceptions on circular data. Bodies are kept as values, not
  text.
- Base64 inside the Basic header. It is a parameter.
- Numbers are integers. Fractions, `NaN`, infinities and exponent notation in
  `String(n)` are not modelled.
- Properties that primitives inherit (`"abc".length`, array methods). `Prop` on
  anything but an object gives `undefined`. Every property the nodes read is
  an own property of a plain object.
- axios header-name normalisation, and the default headers that axios and
  fetch add.
- The Portuguese error and log texts. Errors are kinds (`NodeIo.Error`).
- Overlapping invocations. They share no mutable state.
- `MobileXPush.OnInput`: `requests` lists the requests attempted. A push whose
  setup fails is still counted as the second request.
- `MobileXPush.ListFrom`: the warning the node logs on a degraded list is not
  modelled, only the value it substitutes.
