# wingbot-intercom: a verified model of the connector core

The connector links Intercom conversation webhooks to the wingbot bot framework, in both directions.

**Inbound.** `Intercom.processEvent` decides what a webhook item becomes:
- nothing (the event is ignored and the processor is not called);
- a wingbot text request, built from the conversation message or from the joined conversation parts, with markup stripped;
- a postback request for the configured `passThreadAction`, when an assignment part hands the conversation to the bot.

**Outbound.** `IntercomSender._transformPayload` turns a wingbot payload into an Intercom reply body, or into nothing. Its rules are tried in order: handover assignment, media attachment, text. `_send` posts the reply body to `{uri}/conversations/{id}/reply` through an injected request function. When there is nothing to send, it skips that call.

The model has five modules:
- `Wrappers`: `Option`.
- `Text`: the tag stripper and `join`, with their properties.
- `Sender`: src/IntercomSender.js. The translation, the request record, an abstract `Transport` that records the requests it receives, and the class `IntercomSender`.
- `Connector`: src/Intercom.js. The options, the webhook records, the classification `Normalize`, and the class `Intercom`.
- `Scenarios`: two of the repository's three tests and two further examples, replayed on the model.

Here is how JavaScript values are represented:
- `None` is a `null` for ids, `botAdminId` and the app token. For a supplied option or an optional key, it is an absent key.
- A JavaScript `TypeError` on a missing object is the `Thrown` outcome. Examples are a missing `conversation_parts` object, a missing message or body, and a handover part without `assigned_to` or `author`.
- A timestamp of `None` is the `NaN` the source computes.

The tag pattern `/<(?:.|\n)*?>/gm` is modelled exactly over well-formed strings. Inside a tag it admits every character except `\r`, U+2028 and U+2029. A match runs from a `<` to the first `>` after it.

In these places the model follows the code:
- The top-level `assignee` check runs before handover detection. A conversation assigned to someone other than the bot is ignored even when it carries a valid handover part (src/Intercom.js:111-113).
- Missing `botAdminId` or `intercomAppToken` do not fail at construction. They default to `null`, and a `null` token is sent as `Bearer null`.
- One trailing `/` of the base URI is removed before `/conversations/…` is appended.
- In the multi-part branch the timestamp is `parts.created_at * 1000`, read from an array. That is `NaN`, modelled as `None`, and is not a value in milliseconds.

## Model

| member | source | states |
|---|---|---|
| `Text.CloseIndex` | src/Intercom.js:122 | after a `<`, returns the index of the first `>` when every character before it may stand in a tag, and `None` exactly when no index closes the lazy match |
| `Text.StripTags` | src/Intercom.js:122 | the result is never longer than the input |
| `Text.StripIsSubsequence` | src/Intercom.js:140 | the stripped text is a subsequence of the input (characters are only deleted) |
| `Text.StripIsTagFree` | src/Intercom.js:122 | no `<` in the stripped text begins a match of the pattern |
| `Text.TagFreeIsFixed` | src/Intercom.js:122 | text without a match of the pattern passes through unchanged |
| `Text.StripFixedIffTagFree` | src/Intercom.js:122 | the stripper leaves a text unchanged if and only if the text holds no match |
| `Text.StripWithoutOpenBracket` | src/Intercom.js:122 | text containing no `<` is returned unchanged |
| `Text.StripIdempotent` | src/Intercom.js:140 | stripping twice equals stripping once |
| `Text.Join` | src/Intercom.js:141 | no contract of its own; its meaning is stated by `Text.JoinLength` and `Text.JoinSnoc` |
| `Text.JoinLength` | src/Intercom.js:139-141 | joining n > 0 strings adds exactly n − 1 separators to their total length |
| `Text.JoinSnoc` | src/Intercom.js:139-141 | appending a part appends one separator and that part, so parts stay in order |
| `Sender.TransformPayload` | src/IntercomSender.js:35-80 | the result is `null` exactly in the three untranslatable cases; every reply has `type: 'admin'` and `admin_id` equal to `botAdminId` |
| `Sender.HandoverTakesPrecedence` | src/IntercomSender.js:38-46 | a truthy `target_app_id` always gives the assignment reply with `assignee_id` set to that id, whatever the message holds |
| `Sender.MediaAttachmentIsUrlComment` | src/IntercomSender.js:48-62 | an image, video or file attachment gives a comment with `attachment_urls: [url]` and no `body`, even if a text is also present |
| `Sender.OtherAttachmentFallsThrough` | src/IntercomSender.js:63-69 | a template or other attachment type translates exactly as if there were no attachment |
| `Sender.TextIsBodyComment` | src/IntercomSender.js:69-76 | without a target or a media attachment, a truthy text gives the comment `{body: text, type: 'admin', admin_id, message_type: 'comment'}` |
| `Sender.ReplyShapes` | src/IntercomSender.js:35-80 | each reply is exactly one of assignment, single-URL attachment comment, or non-empty text comment, told apart by which keys it has |
| `Sender.TrimTrailingSlash` | src/IntercomSender.js:96 | the URI is returned unchanged, or with exactly one final `/` removed |
| `Sender.TrimAppendedSlash` | src/IntercomSender.js:96 | trimming undoes appending one `/` |
| `Sender.TrimWithoutSlash` | src/IntercomSender.js:96 | a URI that does not end in `/` is used unchanged |
| `Sender.Render` | src/IntercomSender.js:98 | no contract of its own; `Sender.RequestShape` and `Scenarios.HandoverIsPosted` state what it renders |
| `Sender.ReplyUri` | src/IntercomSender.js:96 | no contract of its own; its meaning is stated by `Sender.RequestShape` and `Sender.TrimTrailingSlash` |
| `Sender.BuildRequest` | src/IntercomSender.js:95-103 | the request is a `POST` with `json: true`, and its body is the translated reply |
| `Sender.RequestShape` | src/IntercomSender.js:89-103 | the URI is the trimmed base followed by `/conversations/{id}/reply`, and the header is `Bearer ` followed by the token |
| `Sender.Transport.Call` | src/IntercomSender.js:105 | the injected request function receives the record, appended to the calls it has seen |
| `Sender.IntercomSender.constructor` | src/IntercomSender.js:25-33 | the sender keeps its options, the user id, the incoming item id and the request function, and sets `waits` |
| `Sender.IntercomSender.Send` | src/IntercomSender.js:82-108 | an untranslatable payload returns `null` and the transport gets no call; otherwise exactly one request goes to the transport, addressed with the incoming item's id and not with the user id |
| `Connector.SyntheticEvent` | src/Intercom.js:51-58 | the synthesised event is a `'conversation'` item whose id is the given sender id |
| `Connector.FindAssignment` | src/Intercom.js:125 | `find` returns the first part of type `'assignment'`: it has that type, no earlier part does, and `None` means no part does |
| `Connector.StrippedBodies` | src/Intercom.js:139-141 | the `map` succeeds exactly when every part has a body, and then holds each stripped body in place |
| `Connector.NormalizeItem` | src/Intercom.js:102-162 | a forwarded request always names the conversation id as sender, `botAdminId` as page id, and passes the item's `user` on |
| `Connector.Normalize` | src/Intercom.js:97-100 | an event without `data`, without `data.item`, or whose item type is not `'conversation'` is ignored |
| `Connector.MergeOptions` | src/Intercom.js:34-40 | no contract of its own; its meaning is stated by `Connector.DefaultOptions` and `Connector.SuppliedOptionsOverride` |
| `Connector.SenderOptionsOf` | src/Intercom.js:73-83 | no contract of its own; its meaning is stated by `Connector.SenderOptionsIgnoreAction` and `Connector.Intercom.CreateSender` |
| `Connector.Millis` | src/Intercom.js:123 | no contract of its own; `Connector.SingleMessageIsText` states what it computes |
| `Connector.DefaultOptions` | src/Intercom.js:34-38 | with nothing supplied, `botAdminId` and `intercomAppToken` are `null` and `uri` is `https://api.intercom.io` |
| `Connector.SuppliedOptionsOverride` | src/Intercom.js:40 | every supplied option overrides its default; `passThreadAction` is taken as supplied |
| `Connector.SenderOptionsIgnoreAction` | src/Intercom.js:73-83 | the sender's options do not depend on `passThreadAction` |
| `Connector.ForeignAssigneeIgnored` | src/Intercom.js:111-113 | a conversation whose assignee is not the bot is ignored whatever its parts hold |
| `Connector.SingleMessageIsText` | src/Intercom.js:121-123 | with zero parts, the result is a text request of the stripped message body, stamped `created_at * 1000` |
| `Connector.PartsJoinedWithSpace` | src/Intercom.js:138-142 | with parts and none of type assignment, the text is the stripped bodies in order joined by one space (n − 1 separators), with no numeric timestamp |
| `Connector.HandoverDecision` | src/Intercom.js:125-149 | for the first assignment part, the result is a postback of `passThreadAction` if and only if it assigns the bot, its author is not the bot, and an action is set; otherwise the event is ignored |
| `Connector.FirstAssignmentUnique` | src/Intercom.js:125 | the first part of type assignment is the one `find` returns |
| `Connector.LaterPartsIrrelevant` | src/Intercom.js:125 | replacing every part after the first assignment leaves the outcome unchanged |
| `Connector.PostBackCarriesAction` | src/Intercom.js:147-149 | a postback is produced only when the action is truthy, and it carries that action |
| `Connector.Intercom.constructor` | src/Intercom.js:33-46 | the connector's options are the supplied ones merged over the defaults; the request function is kept |
| `Connector.Intercom.CreateSender` | src/Intercom.js:72-89 | a new sender gets only `botAdminId`, `intercomAppToken` and `uri`, with the event's item id as both user id and conversation |
| `Connector.Intercom.ProcessEvent` | src/Intercom.js:97-162 | the outcome is `Normalize` of the event; a sender is created exactly when the processor is called |
| `Connector.Intercom.ProcessMessage` | src/Intercom.js:48-65 | the message and page id are forwarded unchanged, with a new sender addressed to `senderId` |
| `Scenarios.BoldWordStripped` | src/Intercom.js:122 | `<b>hi</b>` strips to `hi` |
| `Scenarios.TwoCommentsJoined` | src/Intercom.js:139-141 | the parts `<i>a</i>` and `b` become the text `a b` |
| `Scenarios.HandoverIsPosted` | test/intercomSender.js:56-81 | a handover to `2` posts the assignment reply to `http://x.cz/conversations/1/reply` with `Bearer t` |
| `Scenarios.HelloIsForwarded` | test/intercom.js:10-25 | the test's one-message conversation `hello` becomes a text request for conversation `1`, with page id `mock-id` |
| `Scenarios.AnswerIsPosted` | test/intercom.js:54-67 | the answer `Hello World!` translates to the comment reply and is addressed to `https://api.intercom.io/conversations/1/reply` with `Bearer mock-secret` |
| `Scenarios.TextIsAnswered` | test/intercom.js:35-68 | the message `hello` is forwarded as text, and the bot's answer `Hello World!` is posted once to `https://api.intercom.io/conversations/1/reply` |

## Left out

- The wingbot `ReturnSender` base class is not modelled: its queue, `send()`, `finished()`, the meaning of `waits`, and the logger calls. It is a foreign library, and its purpose is asynchronous ordering. The model says nothing about the order of sends or about completion.
- The HTTP client `request-promise-native` is not modelled. `Transport` only records the requests it is given. `Sender.IntercomSender.Send` returns the request it handed over, in place of the transport's response.
- `Request.text`, `Request.postBack` and `processor.processMessage` are not modelled. The `BotRequest` and `Outcome` values record what they would be passed.
- The sender logger passed to the constructors is not modelled.
- `verifyRequest` is an empty stub, and src/main.js only re-exports. Neither is modelled.
- `Connector.PartsJoinedWithSpace`, `Connector.HandoverDecision`: the multi-part timestamp is `NaN` in the source (`parts.created_at` read on an array), modelled as `None`. No per-part value is invented.
- `Connector.Normalize` does not distinguish `null` from `undefined`. Every absent value is `None`. So the model cannot represent an explicit `conversation_parts: null`, a non-string body, or a non-array parts value.
- `StripTags`: its own contract gives only the length bound. What it removes and keeps is stated by `Text.StripIsSubsequence`, `Text.StripIsTagFree`, `Text.StripFixedIffTagFree` and `Text.StripIdempotent`.
- `Connector.Millis`: `created_at` is an unbounded integer. Fractional seconds, string coercion (`"5" * 1000` is `5000`) and the loss of exactness of JavaScript numbers above 2^53 are not modelled.
- Strings are sequences of Unicode scalar values. A lone UTF-16 surrogate, which a JavaScript string can hold, cannot be represented.
- The first test case of test/intercomSender.js (`finished()` and the logger) is not replayed, because it exercises `ReturnSender` behaviour.
- `Connector.MergeOptions` does not model an option supplied explicitly as `undefined` or `null` overriding its default, a quirk of `Object.assign`.
- `Sender.TransformPayload` has `target_app_id` as a string. The `String()` conversion of a numeric id is not modelled.
- `Sender.TransformPayload`: an attachment always carries its `url`. The `TypeError` for a media attachment without a `payload` object is not modelled.
