/** The inbound half of the connector (src/Intercom.js): option defaults, the
    classification of an Intercom conversation webhook into a wingbot text request, a
    postback request or nothing, and the per-event sender the processor replies through. */
module Connector {
  import opened Wrappers
  import opened Text
  import opened Sender

  /** The Intercom API root used when no `uri` is supplied. */
  const DefaultUri := "https://api.intercom.io"

  /** The `part_type` of a part that assigns the conversation. */
  const AssignmentPartType := "assignment"

  /** The connector's merged options; `None` is `null` for the two ids and `undefined`
      for the optional `passThreadAction`. */
  datatype ConnectorOptions = ConnectorOptions(
    botAdminId: Option<string>,
    intercomAppToken: Option<string>,
    uri: string,
    passThreadAction: Option<string>)

  /** The options object a caller passes; `None` is an absent key. */
  datatype SuppliedOptions = SuppliedOptions(
    botAdminId: Option<string>,
    intercomAppToken: Option<string>,
    uri: Option<string>,
    passThreadAction: Option<string>)

  /** An object with an `id` (`assignee`, `author`, `assigned_to`); `None` is `id: null`. */
  datatype Actor = Actor(id: Option<string>)

  /** One entry of `conversation_parts.conversation_parts`; a missing object or body is `None`. */
  datatype Part = Part(partType: string, body: Option<string>, author: Option<Actor>, assignedTo: Option<Actor>)

  /** The `conversation_parts` object; its list defaults to `[]` when absent (`None`). */
  datatype PartList = PartList(parts: Option<seq<Part>>)

  /** `conversation_message`, of which only `body` is read. */
  datatype Message = Message(body: Option<string>)

  /** The opaque `user` object handed on to the processor. */
  datatype Profile = Profile(attributes: map<string, string>)

  /** `body.data.item`; `createdAt` is `created_at` in seconds. */
  datatype Item = Item(
    itemType: string,
    id: string,
    message: Option<Message>,
    conversationParts: Option<PartList>,
    assignee: Option<Actor>,
    createdAt: Option<int>,
    user: Option<Profile>)

  datatype EventData = EventData(item: Option<Item>)

  /** A webhook body as `processEvent` receives it. */
  datatype Webhook = Webhook(data: Option<EventData>)

  /** The wingbot request built for the processor; `timestamp` is in milliseconds, `None`
      standing for the `NaN` the source computes from a missing seconds value. */
  datatype BotRequest =
    | Text(senderId: string, text: string, timestamp: Option<int>)
    | PostBack(senderId: string, action: string, timestamp: Option<int>)

  /** What `processEvent` does with an event: resolves to `[]` without calling the
      processor, rejects with a `TypeError` on a missing object, or calls
      `processor.processMessage(request, pageId, sender, { user })`. */
  datatype Outcome =
    | Ignored
    | Thrown
    | Forward(request: BotRequest, pageId: Option<string>, user: Option<Profile>)

  /** The constructor's `Object.assign` of the supplied options over the defaults
      (`null` for the two credentials, `DefaultUri` for the URI, none for the action). */
  function MergeOptions(s: SuppliedOptions): ConnectorOptions
  {
    ConnectorOptions(
      s.botAdminId,
      s.intercomAppToken,
      s.uri.GetOr(DefaultUri),
      s.passThreadAction)
  }

  /** `_createSender`'s projection: the sender sees the two credentials and the URI only. */
  function SenderOptionsOf(o: ConnectorOptions): SenderOptions
  {
    SenderOptions(o.botAdminId, o.intercomAppToken, o.uri)
  }

  /** The event `processMessage` synthesises: a conversation item with the given id and
      no content. */
  function SyntheticEvent(senderId: string): (w: Webhook)
    ensures w.data.Some? && w.data.value.item.Some?
    ensures w.data.value.item.value.itemType == "conversation" && w.data.value.item.value.id == senderId
  {
    Webhook(Some(EventData(Some(Item("conversation", senderId, None, None, None, None, None)))))
  }

  /** The index `parts.find(p => p.part_type === 'assignment')` stops at. */
  function FindAssignment(parts: seq<Part>): (r: Option<nat>)
    ensures r.Some? ==> r.value < |parts| && parts[r.value].partType == AssignmentPartType
    ensures r.Some? ==> forall j :: 0 <= j < r.value ==> parts[j].partType != AssignmentPartType
    ensures r.None? ==> forall j :: 0 <= j < |parts| ==> parts[j].partType != AssignmentPartType
  {
    if parts == [] then None
    else if parts[0].partType == AssignmentPartType then Some(0)
    else
      match FindAssignment(parts[1..])
      case Some(k) => Some(k + 1)
      case None => None
  }

  /** `parts.map(p => p.body.replace(tagPattern, ''))`, or `None` when some body is
      missing and the call throws. */
  function StrippedBodies(parts: seq<Part>): (r: Option<seq<string>>)
    ensures r.Some? <==> forall j :: 0 <= j < |parts| ==> parts[j].body.Some?
    ensures r.Some? ==> |r.value| == |parts|
    ensures r.Some? ==> forall j :: 0 <= j < |parts| ==> r.value[j] == StripTags(parts[j].body.value)
  {
    if parts == [] then Some([])
    else if parts[0].body.None? then None
    else
      match StrippedBodies(parts[1..])
      case Some(rest) => Some([StripTags(parts[0].body.value)] + rest)
      case None => None
  }

  /** The top-level assignee does not keep the bot out: there is none, or it is the bot. */
  predicate AssigneeAdmits(o: ConnectorOptions, item: Item)
  {
    !(item.assignee.Some? && item.assignee.value.id != o.botAdminId)
  }

  /** `created_at * 1000` for a seconds value that may be missing. */
  function Millis(seconds: Option<int>): Option<int>
  {
    if seconds.Some? then Some(seconds.value * 1000) else None
  }

  /** The parts list `processEvent` works on, `[]` when the key is absent. */
  function PartsOf(item: Item): seq<Part>
    requires item.conversationParts.Some?
  {
    item.conversationParts.value.parts.GetOr([])
  }

  /** `processEvent` after the item has been found to be a conversation. */
  function NormalizeItem(o: ConnectorOptions, item: Item): (r: Outcome)
    ensures r.Forward? ==> r.request.senderId == item.id && r.pageId == o.botAdminId && r.user == item.user
  {
    if !AssigneeAdmits(o, item) then Ignored
    else if item.conversationParts.None? then Thrown
    else
      var parts := PartsOf(item);
      if |parts| == 0 then
        if item.message.None? || item.message.value.body.None? then Thrown
        else Forward(Text(item.id, StripTags(item.message.value.body.value), Millis(item.createdAt)), o.botAdminId, item.user)
      else
        match FindAssignment(parts)
        case Some(k) =>
          var handover := parts[k];
          if handover.assignedTo.None? then Thrown
          else if handover.assignedTo.value.id != o.botAdminId then Ignored
          else if handover.author.None? then Thrown
          else if handover.author.value.id == o.botAdminId then Ignored
          else if !Truthy(o.passThreadAction) then Ignored
          else Forward(PostBack(item.id, o.passThreadAction.value, None), o.botAdminId, item.user)
        case None =>
          match StrippedBodies(parts)
          case Some(bodies) => Forward(Text(item.id, Join(bodies, " "), None), o.botAdminId, item.user)
          case None => Thrown
  }

  /** The webhook carries a conversation item. */
  predicate IsConversation(body: Webhook)
  {
    body.data.Some? && body.data.value.item.Some? && body.data.value.item.value.itemType == "conversation"
  }

  /** `processEvent`'s decision for a webhook body. */
  function Normalize(o: ConnectorOptions, body: Webhook): (r: Outcome)
    ensures !IsConversation(body) ==> r.Ignored?
  {
    if !IsConversation(body) then Ignored else NormalizeItem(o, body.data.value.item.value)
  }

  /** The connector: merged options and the request function every sender it creates uses. */
  class Intercom {
    const options: ConnectorOptions
    /** `options.requestLib || request`. */
    const transport: Transport

    constructor (supplied: SuppliedOptions, transport: Transport)
      ensures options == MergeOptions(supplied) && this.transport == transport
    {
      options := MergeOptions(supplied);
      this.transport := transport;
    }

    /** `_createSender` for an event whose `data.item.id` is `itemId`. */
    method CreateSender(itemId: string) returns (s: IntercomSender)
      ensures fresh(s)
      ensures s.options == SenderOptionsOf(options) && s.userId == itemId && s.incomingItemId == itemId
      ensures s.transport == transport && s.waits
    {
      s := new IntercomSender(SenderOptionsOf(options), itemId, itemId, transport);
    }

    /** `processEvent`: classify the event; when the processor is to be called, also
        create the sender it replies through. */
    method ProcessEvent(body: Webhook) returns (r: Outcome, sender: IntercomSender?)
      ensures r == Normalize(options, body)
      ensures r.Forward? <==> sender != null
      ensures sender != null ==> (
                fresh(sender) && IsConversation(body)
                && sender.options == SenderOptionsOf(options)
                && sender.incomingItemId == body.data.value.item.value.id
                && sender.transport == transport)
    {
      r := Normalize(options, body);
      sender := null;
      if r.Forward? {
        sender := CreateSender(body.data.value.item.value.id);
      }
    }

    /** `processMessage`: forward an already built message for conversation `senderId`
        with a sender created from a synthetic event. */
    method ProcessMessage(message: BotRequest, senderId: string, pageId: Option<string>)
      returns (forwarded: BotRequest, page: Option<string>, sender: IntercomSender)
      ensures forwarded == message && page == pageId
      ensures fresh(sender) && sender.options == SenderOptionsOf(options)
      ensures sender.incomingItemId == senderId && sender.userId == senderId && sender.transport == transport
    {
      var event := SyntheticEvent(senderId);
      sender := CreateSender(event.data.value.item.value.id);
      forwarded, page := message, pageId;
    }
  }

  /** Without a supplied value every option keeps its default. */
  lemma DefaultOptions()
    ensures MergeOptions(SuppliedOptions(None, None, None, None)) == ConnectorOptions(None, None, DefaultUri, None)
  {
  }

  /** Every supplied option overrides its default. */
  lemma SuppliedOptionsOverride(s: SuppliedOptions)
    ensures s.botAdminId.Some? ==> MergeOptions(s).botAdminId == s.botAdminId
    ensures s.intercomAppToken.Some? ==> MergeOptions(s).intercomAppToken == s.intercomAppToken
    ensures s.uri.Some? ==> MergeOptions(s).uri == s.uri.value
    ensures MergeOptions(s).passThreadAction == s.passThreadAction
  {
  }

  /** The sender never learns the handover action. */
  lemma SenderOptionsIgnoreAction(o: ConnectorOptions, action: Option<string>)
    ensures SenderOptionsOf(o.(passThreadAction := action)) == SenderOptionsOf(o)
  {
  }

  /** A conversation owned by someone other than the bot is ignored, whatever its parts
      say: the assignee check comes before any handover detection. */
  lemma ForeignAssigneeIgnored(o: ConnectorOptions, body: Webhook)
    requires IsConversation(body)
    requires body.data.value.item.value.assignee.Some?
    requires body.data.value.item.value.assignee.value.id != o.botAdminId
    ensures Normalize(o, body) == Ignored
  {
  }

  /** With no parts, the message body stripped of markup is a text request stamped with
      `created_at` converted to milliseconds. */
  lemma SingleMessageIsText(o: ConnectorOptions, item: Item, b: string, seconds: int)
    requires AssigneeAdmits(o, item)
    requires item.conversationParts.Some? && PartsOf(item) == []
    requires item.message == Some(Message(Some(b))) && item.createdAt == Some(seconds)
    ensures NormalizeItem(o, item) == Forward(Text(item.id, StripTags(b), Some(seconds * 1000)), o.botAdminId, item.user)
  {
  }

  /** With parts but no assignment among them, the text is the stripped bodies in order,
      one space between neighbours, and the timestamp is the source's `NaN`. */
  lemma {:induction false} PartsJoinedWithSpace(o: ConnectorOptions, item: Item, bodies: seq<string>)
    requires AssigneeAdmits(o, item) && item.conversationParts.Some?
    requires |PartsOf(item)| > 0 && |bodies| == |PartsOf(item)|
    requires forall j :: 0 <= j < |bodies| ==> PartsOf(item)[j].partType != AssignmentPartType
    requires forall j :: 0 <= j < |bodies| ==> PartsOf(item)[j].body == Some(bodies[j])
    ensures var stripped := seq(|bodies|, j requires 0 <= j < |bodies| => StripTags(bodies[j]));
      && NormalizeItem(o, item) == Forward(Text(item.id, Join(stripped, " "), None), o.botAdminId, item.user)
      && |Join(stripped, " ")| == TotalLength(stripped) + |bodies| - 1
  {
    var parts := PartsOf(item);
    var stripped := seq(|bodies|, j requires 0 <= j < |bodies| => StripTags(bodies[j]));
    var found := StrippedBodies(parts);
    assert found.Some?;
    assert found.value == stripped;
    JoinLength(stripped, " ");
  }

  /** Only the first assignment part decides a handover: a postback of the configured
      action exactly when that part assigns the bot, was not written by the bot, and an
      action is configured; otherwise the event is ignored. */
  lemma {:induction false} HandoverDecision(o: ConnectorOptions, item: Item, k: nat)
    requires AssigneeAdmits(o, item) && item.conversationParts.Some?
    requires k < |PartsOf(item)| && PartsOf(item)[k].partType == AssignmentPartType
    requires forall j :: 0 <= j < k ==> PartsOf(item)[j].partType != AssignmentPartType
    requires PartsOf(item)[k].assignedTo.Some? && PartsOf(item)[k].author.Some?
    ensures var h := PartsOf(item)[k];
      NormalizeItem(o, item) ==
        if h.assignedTo.value.id == o.botAdminId && h.author.value.id != o.botAdminId && Truthy(o.passThreadAction)
        then Forward(PostBack(item.id, o.passThreadAction.value, None), o.botAdminId, item.user)
        else Ignored
  {
    FirstAssignmentUnique(PartsOf(item), k);
  }

  lemma FirstAssignmentUnique(parts: seq<Part>, k: nat)
    requires k < |parts| && parts[k].partType == AssignmentPartType
    requires forall j :: 0 <= j < k ==> parts[j].partType != AssignmentPartType
    ensures FindAssignment(parts) == Some(k)
  {
  }

  /** Parts after the first assignment are never looked at. */
  lemma {:induction false} LaterPartsIrrelevant(o: ConnectorOptions, item: Item, k: nat, tail: seq<Part>)
    requires item.conversationParts.Some?
    requires k < |PartsOf(item)| && PartsOf(item)[k].partType == AssignmentPartType
    requires forall j :: 0 <= j < k ==> PartsOf(item)[j].partType != AssignmentPartType
    ensures var cut := item.(conversationParts := Some(PartList(Some(PartsOf(item)[..k + 1] + tail))));
      NormalizeItem(o, cut) == NormalizeItem(o, item)
  {
    var parts := PartsOf(item);
    var cutParts := parts[..k + 1] + tail;
    assert forall j :: 0 <= j <= k ==> cutParts[j] == parts[j];
    FirstAssignmentUnique(parts, k);
    FirstAssignmentUnique(cutParts, k);
  }

  /** A postback only ever carries the configured, truthy action. */
  lemma PostBackCarriesAction(o: ConnectorOptions, body: Webhook)
    requires Normalize(o, body).Forward? && Normalize(o, body).request.PostBack?
    ensures Truthy(o.passThreadAction) && Normalize(o, body).request.action == o.passThreadAction.value
  {
  }
}
