/** Two of the repository's three tests and two further examples, replayed on the model. */
module Scenarios {
  import opened Wrappers
  import opened Text
  import opened Sender
  import opened Connector

  /** Markup around a single word is removed. */
  lemma BoldWordStripped()
    ensures StripTags("<b>hi</b>") == "hi"
  {
    assert CloseIndex("b>hi</b>") == Some(1);
    assert "<b>hi</b>"[3..] == "hi</b>";
    assert CloseIndex("/b>") == Some(2);
    assert "</b>"[4..] == "";
  }

  /** Two comment parts become one text with a single space between their stripped bodies. */
  lemma TwoCommentsJoined(o: ConnectorOptions)
    ensures var item := Item("conversation", "1", None,
                             Some(PartList(Some([Part("comment", Some("<i>a</i>"), None, None),
                                                 Part("comment", Some("b"), None, None)]))),
                             None, Some(5), None);
      NormalizeItem(o, item) == Forward(Text("1", "a b", None), o.botAdminId, None)
  {
    assert CloseIndex("i>a</i>") == Some(1);
    assert "<i>a</i>"[3..] == "a</i>";
    assert CloseIndex("/i>") == Some(2);
    assert StripTags("<i>a</i>") == "a";
    StripWithoutOpenBracket("b");
    var item := Item("conversation", "1", None,
                     Some(PartList(Some([Part("comment", Some("<i>a</i>"), None, None),
                                         Part("comment", Some("b"), None, None)]))),
                     None, Some(5), None);
    PartsJoinedWithSpace(o, item, ["<i>a</i>", "b"]);
    var stripped := seq(2, j requires 0 <= j < 2 => StripTags(["<i>a</i>", "b"][j]));
    assert stripped == ["a", "b"];
    assert Join(["a", "b"], " ") == "a b";
  }

  /** test/intercomSender.js: a handover payload is posted as an assignment to the
      conversation of the incoming event, not to the user id. */
  method HandoverIsPosted() returns (calls: seq<HttpRequest>)
    ensures calls == [HttpRequest("http://x.cz/conversations/1/reply", "Bearer t", "POST",
                                  Reply("admin", Some("1"), "assignment", Some("2"), None, None), true)]
  {
    var transport := new Transport();
    var sender := new IntercomSender(SenderOptions(Some("1"), Some("t"), "http://x.cz"), "user-id", "1", transport);
    var reply := Reply("admin", Some("1"), "assignment", Some("2"), None, None);
    assert TransformPayload(Some("1"), Payload(Some("2"), None)) == Some(reply);
    var sent := sender.Send(Payload(Some("2"), None));
    TrimWithoutSlash("http://x.cz");
    assert ReplyUri("http://x.cz", "1") == "http://x.cz/conversations/1/reply";
    assert "Bearer " + Render(Some("t")) == "Bearer t";
    assert sent == Some(HttpRequest("http://x.cz/conversations/1/reply", "Bearer t", "POST", reply, true));
    calls := transport.calls;
  }

  /** The webhook test/intercom.js sends: one conversation message "hello", no parts. */
  function HelloEvent(): Webhook
  {
    Webhook(Some(EventData(Some(Item("conversation", "1", Some(Message(Some("hello"))),
                                     Some(PartList(Some([]))), None, None, None)))))
  }

  lemma {:induction false} HelloIsForwarded()
    ensures Normalize(ConnectorOptions(Some("mock-id"), Some("mock-secret"), DefaultUri, None), HelloEvent())
            == Forward(Text("1", "hello", None), Some("mock-id"), None)
  {
    StripWithoutOpenBracket("hello");
  }

  lemma {:induction false} AnswerIsPosted()
    ensures var reply := Reply("admin", Some("mock-id"), "comment", None, None, Some("Hello World!"));
      && TransformPayload(Some("mock-id"), Payload(None, Some(OutMessage(Some("Hello World!"), None)))) == Some(reply)
      && BuildRequest(SenderOptions(Some("mock-id"), Some("mock-secret"), DefaultUri), "1", reply)
         == HttpRequest("https://api.intercom.io/conversations/1/reply", "Bearer mock-secret", "POST", reply, true)
  {
    TrimWithoutSlash(DefaultUri);
    assert ReplyUri(DefaultUri, "1") == "https://api.intercom.io/conversations/1/reply";
    assert "Bearer " + Render(Some("mock-secret")) == "Bearer mock-secret";
  }

  /** test/intercom.js: a one-message conversation reaches the processor as a text, and
      the bot's plain-text answer is posted once to the default API root. */
  method TextIsAnswered() returns (outcome: Outcome, calls: seq<HttpRequest>)
    ensures outcome == Forward(Text("1", "hello", None), Some("mock-id"), None)
    ensures calls == [HttpRequest("https://api.intercom.io/conversations/1/reply", "Bearer mock-secret", "POST",
                                  Reply("admin", Some("mock-id"), "comment", None, None, Some("Hello World!")), true)]
  {
    var transport := new Transport();
    var connector := new Intercom(SuppliedOptions(Some("mock-id"), Some("mock-secret"), None, None), transport);
    HelloIsForwarded();
    var sender;
    outcome, sender := connector.ProcessEvent(HelloEvent());
    AnswerIsPosted();
    var sent := sender.Send(Payload(None, Some(OutMessage(Some("Hello World!"), None))));
    calls := transport.calls;
  }
}
