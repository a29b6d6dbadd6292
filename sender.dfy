/** The outbound half of the connector (src/IntercomSender.js): translation of a generic
    wingbot payload into an Intercom conversation-reply body, and the POST request that
    delivers it to `{uri}/conversations/{id}/reply` through an injected transport. */
module Sender {
  import opened Wrappers

  /** The options a sender is built with. `None` stands for a JavaScript `null`. */
  datatype SenderOptions = SenderOptions(botAdminId: Option<string>, intercomAppToken: Option<string>, uri: string)

  /** `payload.message.attachment`: its `type` and its `payload.url`. */
  datatype Attachment = Attachment(attachmentType: string, url: string)

  /** `payload.message`; an absent `text` or `attachment` is `None`. */
  datatype OutMessage = OutMessage(text: Option<string>, attachment: Option<Attachment>)

  /** A generic outbound payload as the bot emits it: a handover carries `target_app_id`,
      anything else a `message`. */
  datatype Payload = Payload(targetAppId: Option<string>, message: Option<OutMessage>)

  /** The reply body posted to Intercom. `replyType` and `messageType` are the keys `type`
      and `message_type`; `adminId` is `admin_id`, always present, `None` being `null`;
      `assigneeId`, `attachmentUrls` and `body` are `None` exactly when the key is absent. */
  datatype Reply = Reply(
    replyType: string,
    adminId: Option<string>,
    messageType: string,
    assigneeId: Option<string>,
    attachmentUrls: Option<seq<string>>,
    body: Option<string>)

  /** The request record handed to the transport. */
  datatype HttpRequest = HttpRequest(uri: string, authorization: string, httpMethod: string, body: Reply, json: bool)

  /** JavaScript truthiness of an optional string: present and non-empty. */
  predicate Truthy(v: Option<string>)
  {
    v.Some? && v.value != ""
  }

  /** The attachment types Intercom receives as `attachment_urls`. */
  predicate IsMedia(attachmentType: string)
  {
    attachmentType == "image" || attachmentType == "video" || attachmentType == "file"
  }

  /** A message whose attachment translates on its own. */
  predicate HasMediaAttachment(m: OutMessage)
  {
    m.attachment.Some? && IsMedia(m.attachment.value.attachmentType)
  }

  /** The payloads for which Intercom has no representation: no handover target and
      either no message, or a message with neither a media attachment nor a text. */
  predicate Untranslatable(p: Payload)
  {
    !Truthy(p.targetAppId)
    && (p.message.None? || (!HasMediaAttachment(p.message.value) && !Truthy(p.message.value.text)))
  }

  /** `_transformPayload`: the first matching rule of handover, media attachment and text
      gives the reply body; `None` is the source's `null`. */
  function TransformPayload(botAdminId: Option<string>, p: Payload): (r: Option<Reply>)
    ensures r.None? <==> Untranslatable(p)
    ensures r.Some? ==> r.value.replyType == "admin" && r.value.adminId == botAdminId
  {
    if Truthy(p.targetAppId) then
      Some(Reply("admin", botAdminId, "assignment", Some(p.targetAppId.value), None, None))
    else if p.message.None? then
      None
    else if HasMediaAttachment(p.message.value) then
      Some(Reply("admin", botAdminId, "comment", None, Some([p.message.value.attachment.value.url]), None))
    else if Truthy(p.message.value.text) then
      Some(Reply("admin", botAdminId, "comment", None, None, Some(p.message.value.text.value)))
    else
      None
  }

  /** `uri.replace(/\/$/, '')`: one `/` at the very end is removed, no more. */
  function TrimTrailingSlash(u: string): (r: string)
    ensures r == u || r + "/" == u
  {
    if |u| > 0 && u[|u| - 1] == '/' then u[..|u| - 1] else u
  }

  /** A template literal's rendering of an optional string: `null` prints as "null". */
  function Render(v: Option<string>): string
  {
    v.GetOr("null")
  }

  /** The reply endpoint of conversation `conversationId` below `baseUri`. */
  function ReplyUri(baseUri: string, conversationId: string): string
  {
    TrimTrailingSlash(baseUri) + "/conversations/" + conversationId + "/reply"
  }

  /** The request `_send` hands to the transport for a translated `body`. */
  function BuildRequest(o: SenderOptions, conversationId: string, body: Reply): (r: HttpRequest)
    ensures r.httpMethod == "POST" && r.json && r.body == body
  {
    HttpRequest(ReplyUri(o.uri, conversationId), "Bearer " + Render(o.intercomAppToken), "POST", body, true)
  }

  /** The injected request function (`requestLib` / `req`), reduced to the record of the
      requests it has received. */
  class Transport {
    var calls: seq<HttpRequest>

    constructor ()
      ensures calls == []
    {
      calls := [];
    }

    method Call(data: HttpRequest)
      modifies this
      ensures calls == old(calls) + [data]
    {
      calls := calls + [data];
    }
  }

  /** One sender per inbound conversation event. */
  class IntercomSender {
    const options: SenderOptions
    const userId: string
    /** `incommingMessage.data.item.id`, the only part of the incoming event `_send` reads. */
    const incomingItemId: string
    const waits: bool
    const transport: Transport

    constructor (options: SenderOptions, userId: string, incomingItemId: string, transport: Transport)
      ensures this.options == options && this.userId == userId && this.incomingItemId == incomingItemId
      ensures this.transport == transport && waits
    {
      this.options := options;
      this.userId := userId;
      this.incomingItemId := incomingItemId;
      this.transport := transport;
      this.waits := true;
    }

    /** `_send`: translate the payload; when there is nothing to send return `None`
        without touching the transport, otherwise hand it one request and return it. */
    method Send(payload: Payload) returns (sent: Option<HttpRequest>)
      modifies transport
      ensures TransformPayload(options.botAdminId, payload).None? ==>
                sent.None? && transport.calls == old(transport.calls)
      ensures TransformPayload(options.botAdminId, payload).Some? ==>
                sent == Some(BuildRequest(options, incomingItemId, TransformPayload(options.botAdminId, payload).value))
                && transport.calls == old(transport.calls) + [sent.value]
    {
      var body := TransformPayload(options.botAdminId, payload);
      if body.None? {
        return None;
      }
      var data := BuildRequest(options, incomingItemId, body.value);
      transport.Call(data);
      sent := Some(data);
    }
  }

  /** A truthy `target_app_id` is a handover whatever the message says. */
  lemma HandoverTakesPrecedence(botAdminId: Option<string>, p: Payload)
    requires Truthy(p.targetAppId)
    ensures TransformPayload(botAdminId, p) ==
              Some(Reply("admin", botAdminId, "assignment", Some(p.targetAppId.value), None, None))
  {
  }

  /** An image, video or file attachment becomes a comment carrying its URL and no body,
      even when the message has a text as well. */
  lemma MediaAttachmentIsUrlComment(botAdminId: Option<string>, p: Payload)
    requires !Truthy(p.targetAppId) && p.message.Some? && HasMediaAttachment(p.message.value)
    ensures TransformPayload(botAdminId, p) ==
              Some(Reply("admin", botAdminId, "comment", None, Some([p.message.value.attachment.value.url]), None))
  {
  }

  /** A template or other non-media attachment produces nothing itself: the payload
      translates as if it had no attachment. */
  lemma OtherAttachmentFallsThrough(botAdminId: Option<string>, p: Payload)
    requires p.message.Some? && p.message.value.attachment.Some? && !HasMediaAttachment(p.message.value)
    ensures TransformPayload(botAdminId, p) ==
              TransformPayload(botAdminId, p.(message := Some(p.message.value.(attachment := None))))
  {
  }

  /** Without a handover target or a media attachment, a truthy text becomes a comment body. */
  lemma TextIsBodyComment(botAdminId: Option<string>, p: Payload)
    requires !Truthy(p.targetAppId) && p.message.Some? && !HasMediaAttachment(p.message.value)
    requires Truthy(p.message.value.text)
    ensures TransformPayload(botAdminId, p) ==
              Some(Reply("admin", botAdminId, "comment", None, None, Some(p.message.value.text.value)))
  {
  }

  /** Every reply is exactly one of the three shapes, told apart by its keys. */
  lemma ReplyShapes(botAdminId: Option<string>, p: Payload)
    requires TransformPayload(botAdminId, p).Some?
    ensures var r := TransformPayload(botAdminId, p).value;
      (r.messageType == "assignment" && r.assigneeId.Some? && r.attachmentUrls.None? && r.body.None?)
      || (r.messageType == "comment" && r.assigneeId.None? && r.attachmentUrls.Some? && |r.attachmentUrls.value| == 1 && r.body.None?)
      || (r.messageType == "comment" && r.assigneeId.None? && r.attachmentUrls.None? && r.body.Some? && r.body.value != "")
  {
  }

  /** Trimming undoes appending one slash. */
  lemma TrimAppendedSlash(u: string)
    ensures TrimTrailingSlash(u + "/") == u
  {
    assert (u + "/")[..|u|] == u;
  }

  /** A URI without a trailing slash is used as it is. */
  lemma TrimWithoutSlash(u: string)
    requires u == [] || u[|u| - 1] != '/'
    ensures TrimTrailingSlash(u) == u
  {
  }

  /** The request's URI, header, method and body. */
  lemma RequestShape(o: SenderOptions, conversationId: string, body: Reply)
    ensures var r := BuildRequest(o, conversationId, body);
      && r.uri == TrimTrailingSlash(o.uri) + "/conversations/" + conversationId + "/reply"
      && r.authorization == "Bearer " + Render(o.intercomAppToken)
      && r.httpMethod == "POST" && r.json && r.body == body
  {
  }
}
