/**
 * The plugin utilities: path lookups, the callback path, mention stripping,
 * the payload normalizer `build_incoming_from_payload` and its extract helpers.
 */
module TailchatUtils {
  import opened Wrappers
  import opened JsonModel
  import opened Paths
  import opened TailchatTypes
  import Text
  import Template
  import MentionText
  import Extract

  /** `deep_get`: walks the dotted path, giving None as soon as a step is missing or not a dict. */
  method DeepGet(data: Json, path: string) returns (r: Json)
    ensures r == Resolve(data, path).GetOr(Null)
  {
    var parts := Parts(path);
    var current := data;
    var j := 0;
    while j < |parts|
      invariant 0 <= j <= |parts|
      invariant Walk(data, parts) == Walk(current, parts[j..])
    {
      if current.Obj? && parts[j] in current.fields {
        current := current.fields[parts[j]];
      } else {
        return Null;
      }
      j := j + 1;
    }
    return current;
  }

  /** `get_first_with_presence`: the first candidate whose path fully resolves, with presence true even for null or "". */
  method GetFirstWithPresence(data: Json, paths: seq<string>) returns (value: Json, found: bool)
    ensures Lookup(value, found) == FirstPresent(data, paths)
  {
    var i := 0;
    while i < |paths|
      invariant 0 <= i <= |paths|
      invariant FirstPresent(data, paths) == FirstPresent(data, paths[i..])
    {
      var parts := Parts(paths[i]);
      var current := data;
      var valid := true;
      var j := 0;
      while j < |parts|
        invariant 0 <= j <= |parts| && valid
        invariant Walk(data, parts) == Walk(current, parts[j..])
      {
        if current.Obj? && parts[j] in current.fields {
          current := current.fields[parts[j]];
        } else {
          valid := false;
          break;
        }
        j := j + 1;
      }
      assert paths[i..][0] == paths[i] && paths[i..][1..] == paths[i + 1..];
      if valid {
        return current, true;
      }
      i := i + 1;
    }
    return Null, false;
  }

  /** `get_first`: the first present candidate's value, else the default. */
  method GetFirst(data: Json, paths: seq<string>, default: Json) returns (r: Json)
    ensures r == FirstOr(data, paths, default)
  {
    var value, found := GetFirstWithPresence(data, paths);
    r := if found then value else default;
  }

  /** `config_get`: `.get` step by step (None on a value that is not a dict); the default once a step is None. */
  method ConfigGet(config: Json, path: string, default: Json) returns (r: Json)
    ensures r == ConfigLookup(config, path, default)
  {
    var parts := Parts(path);
    var current := config;
    var j := 0;
    while j < |parts|
      invariant 0 <= j <= |parts|
      invariant ConfigWalk(config, parts, default) == ConfigWalk(current, parts[j..], default)
    {
      assert parts[j..][0] == parts[j] && parts[j..][1..] == parts[j + 1..];
      if current.Obj? {
        current := Get(current.fields, parts[j], Null);
      } else {
        current := Null;
      }
      if current == Null {
        return default;
      }
      j := j + 1;
    }
    return current;
  }

  const CallbackPrefix: string := "/tailchat/callback/"

  /** `gen_callback_path`: the robot id is the whole path after the fixed prefix. */
  function GenCallbackPath(robotId: string): (path: string)
    ensures Text.StartsWith(path, CallbackPrefix) && path[|CallbackPrefix|..] == robotId
  {
    CallbackPrefix + robotId
  }

  /** Different robots get different callback paths. */
  lemma GenCallbackPathInjective(a: string, b: string)
    requires GenCallbackPath(a) == GenCallbackPath(b)
    ensures a == b
  {
    assert a == GenCallbackPath(a)[|CallbackPrefix|..];
  }

  /** The run class of `@[^\s]+`. */
  predicate NotSpace(c: char) {
    !Text.IsSpace(c)
  }

  /** `strip_mention_text`: empty text is returned as it is; otherwise `<@...>` spans and `@`-runs are removed and
      whitespace is collapsed, so no '@' is left in front of a non-space character. */
  function StripMentionText(text: string): (r: string)
    ensures text == "" ==> r == ""
    ensures Text.NormalSpacing(r)
    ensures forall i :: 0 <= i < |r| - 1 && r[i] == '@' ==> r[i + 1] == ' '
  {
    MentionText.StripMentionsClean(text, NotSpace);
    var r := MentionText.StripMentions(text, NotSpace);
    assert forall i :: 0 <= i < |r| - 1 && r[i] == '@' ==> !NotSpace(r[i + 1]);
    r
  }

  /** Text without any '@' is kept word for word; only its whitespace is collapsed. */
  lemma StripKeepsPlainText(text: string)
    requires '@' !in text
    ensures StripMentionText(text) == Text.Collapse(text)
  {
    MentionText.PlainTextCollapsed(text, NotSpace);
  }

  /** One `@name` mention inside plain text becomes a space: the words before and after it are kept in order.
      The mention ends at the end of the text or at a non-space character. */
  lemma StripReplacesOneMention(a: string, name: string, b: string)
    requires '@' !in a && '@' !in name && '@' !in b
    requires a == [] || a[|a| - 1] != '<'
    requires name != [] && forall i :: 0 <= i < |name| ==> NotSpace(name[i])
    requires b == [] || !NotSpace(b[0])
    ensures StripMentionText(a + "@" + name + b) == Text.Collapse(a + " " + b)
  {
    MentionText.ReplaceOneMention(a, name, b, NotSpace);
  }

  const MentionPaths: seq<string> := ["mentions", "meta.mentions", "data.meta.mentions", "payload.meta.mentions"]
  const AttachmentPaths: seq<string> := ["files", "attachments", "meta.files", "data.meta.files", "payload.meta.files"]
  const ReplyPaths: seq<string> := ["reply", "meta.reply", "data.meta.reply", "payload.meta.reply"]

  /** `_extract_mentions`: the mention ids of a present, truthy list, in order, and whether the field was present. */
  method ExtractMentions(payload: Json) returns (mentions: seq<string>, present: bool)
    ensures (mentions, present) == Extract.MentionsOf(payload, MentionPaths)
  {
    var value;
    value, present := GetFirstWithPresence(payload, MentionPaths);
    if !present || !Truthy(value) {
      return [], present;
    }
    mentions := [];
    if value.Arr? {
      mentions := Extract.CollectMentions(value.items);
    }
  }

  /** `_extract_attachments`: one attachment per dict item, in order; a non-iterable truthy value raises TypeError. */
  method ExtractAttachments(payload: Json) returns (r: Result<seq<Attachment>>)
    ensures r == Extract.AttachmentsOf(payload, AttachmentPaths)
  {
    var value := GetFirst(payload, AttachmentPaths, Arr([]));
    if !Truthy(value) {
      return Success([]);
    }
    var looped := Extract.LoopItems(value);
    if looped.Failure? {
      return Failure(looped.error);
    }
    var attachments := Extract.CollectAttachments(looped.value);
    return Success(attachments);
  }

  /** `_extract_reply`: None unless the reply value is a dict; the author fields come from its `author` dict, if any. */
  function ExtractReply(payload: Json): (r: Option<ReplyInfo>)
    ensures r.Some? <==> FirstOr(payload, ReplyPaths, Null).Obj?
    ensures r.Some? ==> r.value.messageId == FirstOr(FirstOr(payload, ReplyPaths, Null), ["_id", "messageId"], Null)
  {
    var reply := FirstOr(payload, ReplyPaths, Null);
    if !reply.Obj? then None
    else
      var author := Extract.ReplyAuthor(reply.fields);
      Some(ReplyInfo(
        messageId := FirstOr(reply, ["_id", "messageId"], Null),
        authorId := FirstOr(author, ["_id", "id", "userId"], Null),
        authorName := FirstOr(author, ["nickname", "name"], Null),
        content := FirstOr(reply, ["content", "text"], Null)))
  }

  const EventPaths: seq<string> := ["type", "eventType", "data.type", "payload.type"]
  const GroupPaths: seq<string> := ["groupId", "data.groupId", "payload.groupId"]
  const ConversePaths: seq<string> := ["converseId", "data.converseId", "payload.converseId"]
  const MessageIdPaths: seq<string> := ["messageId", "_id", "data.messageId", "payload.messageId"]
  const ContentPaths: seq<string> := ["content", "text", "data.content", "payload.messageSnippet", "messageSnippet"]
  const AuthorPaths: seq<string> := ["author", "sender", "data.author", "payload.messageAuthor", "messageAuthor"]

  const DefaultSessionTemplate: string := "{groupId}:{converseId}"

  function EventType(payload: Json): Json {
    Or(FirstOr(payload, EventPaths, Null), Str(""))
  }

  function RequireMention(config: Json): bool {
    Truthy(ConfigLookup(config, "features.require_mention", Bool(true)))
  }

  function BotUserId(config: Json): Json {
    ConfigLookup(config, "tailchat.bot_user_id", Null)
  }

  /** The mention gate: with `require_mention`, the field must be present, and then it must hold the configured
      bot user id, or, with none configured, be non-empty. */
  predicate MentionGate(requireMention: bool, botUserId: Json, mentions: seq<string>, present: bool) {
    requireMention ==> present && Extract.Addressed(botUserId, mentions)
  }

  /** The keyword arguments of the session-key template, each as `str` renders it. */
  function SessionArgs(groupId: Json, converseId: Json, messageId: Json, robotId: string): map<string, string> {
    map["groupId" := PyStr(groupId), "converseId" := PyStr(converseId),
        "messageId" := PyStr(Or(messageId, Str(""))), "robotId" := robotId]
  }

  /** The three drop conditions of `build_incoming_from_payload`, in the order they are tested. */
  predicate Admitted(payload: Json, config: Json) {
    && Extract.IsMessageEvent(EventType(payload))
    && Truthy(FirstOr(payload, GroupPaths, Null))
    && Truthy(FirstOr(payload, ConversePaths, Null))
    && var m := Extract.MentionsOf(payload, MentionPaths);
       MentionGate(RequireMention(config), BotUserId(config), m.0, m.1)
  }

  function SessionTemplate(config: Json): Json {
    ConfigLookup(config, "defaults.session_key_template", Str(DefaultSessionTemplate))
  }

  /** `metadata`: the raw event type, whether the mentions field was present, and the robot id. */
  function Metadata(eventType: Json, mentionsPresent: bool, robotId: string): (md: map<string, Json>)
    ensures md.Keys == {"event_type", "mentions_present", "robot_id"}
    ensures md["event_type"] == eventType && md["mentions_present"] == Bool(mentionsPresent)
    ensures md["robot_id"] == Str(robotId)
  {
    map["event_type" := eventType, "mentions_present" := Bool(mentionsPresent), "robot_id" := Str(robotId)]
  }

  /** The sender, read from the author value only when that is a dict. */
  function SenderOf(author: Json): (Json, Json) {
    if author.Obj? then (FirstOr(author, ["userId", "id", "_id"], Null), FirstOr(author, ["nickname", "name", "username"], Null))
    else (Null, Null)
  }

  /** The message text: the content (an empty string for null or another falsy value), stripped of mentions. */
  function TextOf(payload: Json): (text: string)
    ensures Text.NormalSpacing(text)
  {
    StripMentionText(PyStr(Or(FirstOr(payload, ContentPaths, Str("")), Str(""))))
  }

  /** The message, given its attachments and its session key. */
  function MessageOf(payload: Json, robotId: string, attachments: seq<Attachment>, sessionKey: string): IncomingMessage {
    var m := Extract.MentionsOf(payload, MentionPaths);
    var sender := SenderOf(FirstOr(payload, AuthorPaths, Obj(map[])));
    IncomingMessage(
      text := TextOf(payload),
      attachments := attachments,
      senderId := sender.0,
      senderName := sender.1,
      groupId := FirstOr(payload, GroupPaths, Null),
      converseId := FirstOr(payload, ConversePaths, Null),
      messageId := FirstOr(payload, MessageIdPaths, Null),
      mentions := m.0,
      sessionKey := sessionKey,
      reply := ExtractReply(payload),
      metadata := Metadata(EventType(payload), m.1, robotId))
  }

  /** The template arguments read from the payload. */
  function PayloadArgs(payload: Json, robotId: string): map<string, string> {
    SessionArgs(FirstOr(payload, GroupPaths, Null), FirstOr(payload, ConversePaths, Null),
                FirstOr(payload, MessageIdPaths, Null), robotId)
  }

  /** The admitted branch: attachments (which may raise), then the session key (which may raise). */
  function Assemble(payload: Json, config: Json, robotId: string): (r: Result<IncomingMessage>)
    ensures r.Success? ==>
      && r.value == MessageOf(payload, robotId, r.value.attachments, r.value.sessionKey)
      && Extract.AttachmentsOf(payload, AttachmentPaths) == Success(r.value.attachments)
      && Template.FormatValue(SessionTemplate(config),
           SessionArgs(r.value.groupId, r.value.converseId, r.value.messageId, robotId)) == Success(r.value.sessionKey)
    ensures r.Failure? ==>
      (r.error.TypeError? || r.error.AttributeError? || r.error.KeyError? || r.error.IndexError? || r.error.ValueError?)
    ensures r.Success? <==>
      && Extract.AttachmentsOf(payload, AttachmentPaths).Success?
      && Template.FormatValue(SessionTemplate(config), PayloadArgs(payload, robotId)).Success?
    ensures Extract.AttachmentsOf(payload, AttachmentPaths).Failure? ==>
      r == Failure(Extract.AttachmentsOf(payload, AttachmentPaths).error)
    ensures Extract.AttachmentsOf(payload, AttachmentPaths).Success? && r.Failure? ==>
      r == Failure(Template.FormatValue(SessionTemplate(config), PayloadArgs(payload, robotId)).error)
  {
    var attachments :- Extract.AttachmentsOf(payload, AttachmentPaths);
    var args := PayloadArgs(payload, robotId);
    Template.FormatValueErrors(SessionTemplate(config), args);
    var sessionKey :- Template.FormatValue(SessionTemplate(config), args);
    Success(MessageOf(payload, robotId, attachments, sessionKey))
  }

  /** `build_incoming_from_payload`: Success(None) for a dropped payload, Failure for an exception Python raises. */
  function BuildIncomingFromPayload(payload: Json, config: Json, robotId: string): (r: Result<Option<IncomingMessage>>)
    ensures !Admitted(payload, config) ==> r == Success(None)
    ensures Admitted(payload, config) ==> r.Failure? || r.value.Some?
    ensures r.Failure? ==>
      (r.error.TypeError? || r.error.AttributeError? || r.error.KeyError? || r.error.IndexError? || r.error.ValueError?)
    ensures Admitted(payload, config) ==>
      && (r.Success? <==> Assemble(payload, config, robotId).Success?)
      && (r.Success? ==> r.value == Some(Assemble(payload, config, robotId).value))
      && (r.Failure? ==> r.error == Assemble(payload, config, robotId).error)
  {
    if !Admitted(payload, config) then Success(None)
    else
      var msg :- Assemble(payload, config, robotId);
      Success(Some(msg))
  }

  /** A message that comes out passed every gate: it is a message event with a group and a converse, and with
      `require_mention` it was addressed to the configured bot (or, with none configured, to someone); its text is
      collapsed and its session key is the configured template formatted with the message's own ids. */
  lemma BuildIncomingDelivered(payload: Json, config: Json, robotId: string)
    requires BuildIncomingFromPayload(payload, config, robotId).Success?
    requires BuildIncomingFromPayload(payload, config, robotId).value.Some?
    ensures var msg := BuildIncomingFromPayload(payload, config, robotId).value.value;
      && Extract.IsMessageEvent(EventType(payload))
      && Truthy(msg.groupId) && Truthy(msg.converseId)
      && "mentions_present" in msg.metadata && "robot_id" in msg.metadata
      && (RequireMention(config) ==> msg.metadata["mentions_present"] == Bool(true))
      && (RequireMention(config) && Truthy(BotUserId(config)) ==> BotUserId(config).Str? && BotUserId(config).s in msg.mentions)
      && (RequireMention(config) && !Truthy(BotUserId(config)) ==> msg.mentions != [])
      && Text.NormalSpacing(msg.text)
      && msg.metadata["robot_id"] == Str(robotId)
      && Template.FormatValue(SessionTemplate(config),
           SessionArgs(msg.groupId, msg.converseId, msg.messageId, robotId)) == Success(msg.sessionKey)
  {
    var msg := Assemble(payload, config, robotId).value;
    assert Admitted(payload, config);
    assert msg == MessageOf(payload, robotId, msg.attachments, msg.sessionKey);
  }

  /** Under the default template and with a files list, the admitted branch raises nothing. */
  lemma AssembleDefault(payload: Json, config: Json, robotId: string) returns (m: IncomingMessage)
    requires SessionTemplate(config) == Str("{groupId}:{converseId}")
    requires FirstOr(payload, AttachmentPaths, Arr([])).Arr?
    ensures Assemble(payload, config, robotId) == Success(m)
    ensures m.attachments == Extract.AttachmentsFrom(FirstOr(payload, AttachmentPaths, Arr([])).items)
    ensures m.sessionKey == PayloadArgs(payload, robotId)["groupId"] + ":" + PayloadArgs(payload, robotId)["converseId"]
  {
    var args := PayloadArgs(payload, robotId);
    Template.GroupConverseValue(SessionTemplate(config), args);
    Extract.AttachmentsOfList(payload, AttachmentPaths);
    var r := Assemble(payload, config, robotId);
    assert r.Success?;
    m := r.value;
    assert m == MessageOf(payload, robotId, m.attachments, m.sessionKey);
    assert SessionArgs(m.groupId, m.converseId, m.messageId, robotId) == args;
  }

  /** An admitted payload with a files list under the default template `{groupId}:{converseId}` is delivered,
      with one attachment per object item and the two ids joined by a colon as its session key. */
  lemma AdmittedBuilds(payload: Json, config: Json, robotId: string)
    requires Admitted(payload, config)
    requires SessionTemplate(config) == Str("{groupId}:{converseId}")
    requires FirstOr(payload, AttachmentPaths, Arr([])).Arr?
    ensures BuildIncomingFromPayload(payload, config, robotId).Success?
    ensures BuildIncomingFromPayload(payload, config, robotId).value.Some?
    ensures var m := BuildIncomingFromPayload(payload, config, robotId).value.value;
      && m.attachments == Extract.AttachmentsFrom(FirstOr(payload, AttachmentPaths, Arr([])).items)
      && m.sessionKey == PayloadArgs(payload, robotId)["groupId"] + ":" + PayloadArgs(payload, robotId)["converseId"]
  {
    var m := AssembleDefault(payload, config, robotId);
    assert BuildIncomingFromPayload(payload, config, robotId) == Success(Some(m));
  }
}
