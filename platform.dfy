/**
 * `TailchatPlatform.convert_message` of the standalone adapter
 * (tailchat_adapter/platform.py): the AstrBot message built from a parsed
 * `IncomingMessage`, with its chain of text and attachment segments. The
 * queue loop, the server and the event commit are not part of this model.
 */
module Platform {
  import opened Wrappers
  import opened JsonModel
  import opened ParseTypes

  /** AstrBot message components: `Plain(text)`, `Image(file)`, and any other kind. */
  datatype Segment = Plain(text: string) | Image(file: Json) | Other

  datatype MessageType = GroupMessage | FriendMessage

  /** `MessageMember(user_id, nickname)`. */
  datatype Member = Member(userId: string, nickname: string)

  /** The fields `convert_message` sets on an `AstrBotMessage`. */
  datatype AstrBotMessage = AstrBotMessage(
    kind: MessageType,
    groupId: Json,
    selfId: string,
    sessionId: Json,
    messageId: Json,
    raw: Json,
    sender: Member,
    messageStr: string,
    message: seq<Segment>)

  /** What one attachment adds to the chain: an image with a url becomes an Image, any other attachment with a
      url a line of text naming it, and one without a url nothing. */
  function AttachmentSegment(a: Attachment): Option<Segment> {
    if a.kind == "image" && Truthy(a.url) then Some(Image(a.url))
    else if Truthy(a.url) then Some(Plain("\n[File] " + PyStr(a.name) + " " + PyStr(a.url)))
    else None
  }

  /** The segments appended for the attachments, in order. */
  function AttachmentChain(atts: seq<Attachment>): seq<Segment>
    decreases |atts|
  {
    if atts == [] then []
    else
      var last := AttachmentSegment(atts[|atts| - 1]);
      AttachmentChain(atts[..|atts| - 1]) + (if last.Some? then [last.value] else [])
  }

  /** The chain: the text as one Plain segment when it is non-empty, then the attachments' segments. */
  function ChainOf(m: IncomingMessage): seq<Segment> {
    (if m.text != "" then [Plain(m.text)] else []) + AttachmentChain(m.attachments)
  }

  /** `convert_message(incoming, raw)`. */
  function ConvertSpec(m: IncomingMessage, raw: Json): AstrBotMessage {
    AstrBotMessage(
      if Truthy(m.groupId) then GroupMessage else FriendMessage,
      Or(m.groupId, Str("")),
      if m.selfId != "" then m.selfId else "tailchat-bot",
      m.sessionKey,
      m.messageId,
      raw,
      Member(m.senderId, m.senderName),
      m.text,
      ChainOf(m))
  }

  /** The imperative `convert_message`: the fields, then the chain grown one attachment at a time. */
  method ConvertMessage(m: IncomingMessage, raw: Json) returns (abm: AstrBotMessage)
    ensures abm == ConvertSpec(m, raw)
  {
    var kind := if Truthy(m.groupId) then GroupMessage else FriendMessage;
    var selfId := if m.selfId != "" then m.selfId else "tailchat-bot";
    var messageStr := m.text;
    var chain: seq<Segment> := if messageStr != "" then [Plain(messageStr)] else [];
    var i := 0;
    while i < |m.attachments|
      invariant 0 <= i <= |m.attachments|
      invariant chain == (if m.text != "" then [Plain(m.text)] else []) + AttachmentChain(m.attachments[..i])
    {
      var att := m.attachments[i];
      assert m.attachments[..i + 1][..i] == m.attachments[..i];
      if att.kind == "image" && Truthy(att.url) {
        chain := chain + [Image(att.url)];
      } else if Truthy(att.url) {
        chain := chain + [Plain("\n[File] " + PyStr(att.name) + " " + PyStr(att.url))];
      }
      i := i + 1;
    }
    assert m.attachments[..i] == m.attachments;
    abm := AstrBotMessage(kind, Or(m.groupId, Str("")), selfId, m.sessionKey, m.messageId, raw,
                          Member(m.senderId, m.senderName), messageStr, chain);
  }

  /** The message is a group message exactly when the group id is truthy; the group id falls back to "", the
      self id to "tailchat-bot"; the session id is the session key and the message text is the incoming text. */
  lemma ConvertFields(m: IncomingMessage, raw: Json)
    ensures var abm := ConvertSpec(m, raw);
      && (abm.kind == GroupMessage <==> Truthy(m.groupId))
      && (Truthy(m.groupId) ==> abm.groupId == m.groupId)
      && (!Truthy(m.groupId) ==> abm.groupId == Str(""))
      && abm.selfId != ""
      && (m.selfId == "" ==> abm.selfId == "tailchat-bot")
      && (m.selfId != "" ==> abm.selfId == m.selfId)
      && abm.sessionId == m.sessionKey && abm.messageStr == m.text
  {
  }

  /** Attachment segments concatenate: the chain of two lists of attachments is the chain of the first followed
      by the chain of the second. */
  lemma {:induction false} AttachmentChainAppend(a: seq<Attachment>, b: seq<Attachment>)
    ensures AttachmentChain(a + b) == AttachmentChain(a) + AttachmentChain(b)
    decreases |b|
  {
    if b != [] {
      var init := b[..|b| - 1];
      assert (a + b)[..|a + b| - 1] == a + init;
      assert (a + b)[|a + b| - 1] == b[|b| - 1];
      var last := AttachmentSegment(b[|b| - 1]);
      var tail := if last.Some? then [last.value] else [];
      assert AttachmentChain(a + b) == AttachmentChain(a + init) + tail;
      assert AttachmentChain(b) == AttachmentChain(init) + tail;
      AttachmentChainAppend(a, init);
    } else {
      assert a + b == a;
    }
  }

  /** The number of attachments with a truthy url. */
  function WithUrl(atts: seq<Attachment>): nat
    decreases |atts|
  {
    if atts == [] then 0 else WithUrl(atts[..|atts| - 1]) + (if Truthy(atts[|atts| - 1].url) then 1 else 0)
  }

  /** Exactly one segment per attachment with a url, and none for the others. */
  lemma {:induction false} OneSegmentPerUrl(atts: seq<Attachment>)
    ensures |AttachmentChain(atts)| == WithUrl(atts)
    decreases |atts|
  {
    if atts != [] {
      OneSegmentPerUrl(atts[..|atts| - 1]);
    }
  }

  /** When every attachment has a url, the i-th attachment gives the i-th segment: an Image of its url for an
      image, a "[File] name url" line otherwise. */
  lemma {:induction false} SegmentsInOrder(atts: seq<Attachment>, i: nat)
    requires forall k :: 0 <= k < |atts| ==> Truthy(atts[k].url)
    requires i < |atts|
    ensures |AttachmentChain(atts)| == |atts|
    ensures AttachmentChain(atts)[i] == AttachmentSegment(atts[i]).value
    ensures atts[i].kind == "image" ==> AttachmentChain(atts)[i] == Image(atts[i].url)
    ensures atts[i].kind != "image" ==> AttachmentChain(atts)[i] == Plain("\n[File] " + PyStr(atts[i].name) + " " + PyStr(atts[i].url))
    decreases |atts|
  {
    var init := atts[..|atts| - 1];
    OneSegmentPerUrl(atts);
    AllHaveUrl(atts);
    if i < |init| {
      SegmentsInOrder(init, i);
    } else {
      OneSegmentPerUrl(init);
      AllHaveUrl(init);
    }
  }

  lemma {:induction false} AllHaveUrl(atts: seq<Attachment>)
    requires forall k :: 0 <= k < |atts| ==> Truthy(atts[k].url)
    ensures WithUrl(atts) == |atts|
    decreases |atts|
  {
    if atts != [] {
      AllHaveUrl(atts[..|atts| - 1]);
    }
  }

  /** The chain begins with one Plain segment holding the text exactly when the text is non-empty; attachment
      segments follow, at most one per attachment. */
  lemma ChainShape(m: IncomingMessage, raw: Json)
    ensures var chain := ConvertSpec(m, raw).message;
      && (m.text != "" ==> chain != [] && chain[0] == Plain(m.text) && chain[1..] == AttachmentChain(m.attachments))
      && (m.text == "" ==> chain == AttachmentChain(m.attachments))
      && |chain| <= (if m.text != "" then 1 else 0) + |m.attachments|
  {
    OneSegmentPerUrl(m.attachments);
    WithUrlBound(m.attachments);
  }

  lemma {:induction false} WithUrlBound(atts: seq<Attachment>)
    ensures WithUrl(atts) <= |atts|
    decreases |atts|
  {
    if atts != [] {
      WithUrlBound(atts[..|atts| - 1]);
    }
  }
}
