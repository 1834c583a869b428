/**
 * The multi-bot adapter `TailchatPlatformAdapter`: `convert_message` with
 * strict mention gating, its extract helpers, the optional download pass, and
 * the decision flow of `handle_incoming`.
 */
module Adapter {
  import opened Wrappers
  import opened JsonModel
  import opened Paths
  import opened TailchatTypes
  import Text
  import Template
  import Extract
  import AdapterUtils
  import Download
  import Redaction

  /** `TailchatAdapterConfig`. Its values come from the configuration file unchecked, so they are `Json`. */
  datatype AdapterConfig = AdapterConfig(
    botKey: Json,
    host: Json,
    appId: Json,
    appSecret: Json,
    requireMention: Json,
    attachmentMode: Json,
    downloadDir: Json,
    maxAttachmentMb: Json,
    sessionKeyTemplate: Json,
    botUserId: Json,
    openapiBase: Json,
    loginPath: Json,
    sendMessagePath: Json,
    fileUrlPath: Json,
    uploadPath: Json)

  const EventPaths: seq<string> := ["type", "eventType", "data.type"]
  const GroupPaths: seq<string> := ["groupId", "group_id", "data.groupId"]
  const ConversePaths: seq<string> := ["converseId", "converse_id", "data.converseId"]
  const MessageIdPaths: seq<string> := ["messageId", "_id", "data.messageId"]
  const SenderPaths: seq<string> := ["author", "sender", "data.author"]
  const ContentPaths: seq<string> := ["content", "text", "data.content"]
  const MentionPaths: seq<string> := ["mentions", "meta.mentions", "data.meta.mentions"]
  const FilePaths: seq<string> := ["files", "attachments", "meta.files", "data.meta.files"]
  const ReplyPaths: seq<string> := ["reply", "meta.reply", "data.meta.reply"]

  /** `_extract_mentions`. */
  method ExtractMentions(payload: Json) returns (mentions: seq<string>, present: bool)
    ensures (mentions, present) == Extract.MentionsOf(payload, MentionPaths)
  {
    var value;
    value, present := AdapterUtils.GetFirstWithPresence(payload, MentionPaths);
    if !present || !Truthy(value) {
      return [], present;
    }
    mentions := [];
    if value.Arr? {
      mentions := Extract.CollectMentions(value.items);
    }
  }

  /** `_extract_attachments`: a truthy value that is not iterable raises TypeError. */
  method ExtractAttachments(payload: Json) returns (r: Result<seq<Attachment>>)
    ensures r == Extract.AttachmentsOf(payload, FilePaths)
  {
    var value := AdapterUtils.GetFirst(payload, FilePaths, Arr([]));
    if !Truthy(value) {
      return Success([]);
    }
    var looped := Extract.LoopItems(value);
    if looped.Failure? {
      return Failure(looped.error);
    }
    var attachments := Extract.CollectAttachments(looped.value);
    return Success(attachments);
  }

  function EventType(payload: Json): Json {
    Or(FirstOr(payload, EventPaths, Null), Str(""))
  }

  /** The drop conditions of `convert_message`: event type, addressing ids, then (with `require_mention`)
      the mention test, which an absent mentions field fails. */
  predicate Admitted(config: AdapterConfig, payload: Json) {
    && Extract.IsMessageEvent(EventType(payload))
    && Truthy(FirstOr(payload, GroupPaths, Null))
    && Truthy(FirstOr(payload, ConversePaths, Null))
    && (Truthy(config.requireMention) ==>
         Extract.Addressed(config.botUserId, Extract.MentionsOf(payload, MentionPaths).0))
  }

  /** The template arguments `groupId`, `converseId`, `messageId` (or "") and `botKey`. */
  function SessionArgs(config: AdapterConfig, payload: Json): map<string, string> {
    map["groupId" := PyStr(FirstOr(payload, GroupPaths, Null)),
        "converseId" := PyStr(FirstOr(payload, ConversePaths, Null)),
        "messageId" := PyStr(Or(FirstOr(payload, MessageIdPaths, Null), Str(""))),
        "botKey" := PyStr(config.botKey)]
  }

  /** One `{"name", "file_id", "url"}` entry per attachment, in order. */
  function AttachmentSummary(atts: seq<Attachment>): (r: Json)
    ensures r.Arr? && |r.items| == |atts|
    ensures forall i :: 0 <= i < |atts| ==> r.items[i].Obj? && r.items[i].fields.Keys == {"name", "file_id", "url"}
    ensures forall i :: 0 <= i < |atts| ==>
      (r.items[i].fields["name"] == Str(atts[i].name)
       && r.items[i].fields["file_id"] == atts[i].fileId && r.items[i].fields["url"] == atts[i].url)
  {
    Arr(seq(|atts|, i requires 0 <= i < |atts| =>
      Obj(map["name" := Str(atts[i].name), "file_id" := atts[i].fileId, "url" := atts[i].url])))
  }

  function Metadata(botKey: Json, eventType: Json, mentionsPresent: bool, atts: seq<Attachment>): (md: map<string, Json>)
    ensures md.Keys == {"bot_key", "event_type", "mentions_present", "attachments"}
    ensures md["bot_key"] == botKey && md["event_type"] == eventType
    ensures md["mentions_present"] == Bool(mentionsPresent) && md["attachments"] == AttachmentSummary(atts)
  {
    map["bot_key" := botKey, "event_type" := eventType, "mentions_present" := Bool(mentionsPresent),
        "attachments" := AttachmentSummary(atts)]
  }

  function TextOf(payload: Json): (text: string)
    ensures Text.NormalSpacing(text)
  {
    AdapterUtils.StripMentionText(PyStr(Or(FirstOr(payload, ContentPaths, Str("")), Str(""))))
  }

  function SenderOf(payload: Json): (Json, Json) {
    var sender := FirstOr(payload, SenderPaths, Obj(map[]));
    if sender.Obj? then (FirstOr(sender, ["_id", "id", "userId"], Null), FirstOr(sender, ["nickname", "name", "username"], Null))
    else (Null, Null)
  }

  function MessageOf(config: AdapterConfig, payload: Json, atts: seq<Attachment>, reply: Option<ReplyInfo>,
                     sessionKey: string): IncomingMessage
  {
    var sender := SenderOf(payload);
    IncomingMessage(
      text := TextOf(payload),
      attachments := atts,
      senderId := sender.0,
      senderName := sender.1,
      groupId := FirstOr(payload, GroupPaths, Null),
      converseId := FirstOr(payload, ConversePaths, Null),
      messageId := FirstOr(payload, MessageIdPaths, Null),
      mentions := Extract.MentionsOf(payload, MentionPaths).0,
      sessionKey := sessionKey,
      reply := reply,
      metadata := Metadata(config.botKey, EventType(payload), Extract.MentionsOf(payload, MentionPaths).1, atts))
  }

  /** The admitted branch: attachments, reply and session key, each of which may raise, in that order. */
  function Assemble(config: AdapterConfig, payload: Json): (r: Result<IncomingMessage>)
    ensures r.Success? ==>
      && Extract.AttachmentsOf(payload, FilePaths) == Success(r.value.attachments)
      && Template.FormatValue(config.sessionKeyTemplate, SessionArgs(config, payload)) == Success(r.value.sessionKey)
      && r.value == MessageOf(config, payload, r.value.attachments, r.value.reply, r.value.sessionKey)
    ensures r.Failure? ==>
      (r.error.TypeError? || r.error.AttributeError? || r.error.KeyError? || r.error.IndexError? || r.error.ValueError?)
    ensures r.Success? <==>
      && Extract.AttachmentsOf(payload, FilePaths).Success?
      && Extract.StrippedReply(payload, ReplyPaths).Success?
      && Template.FormatValue(config.sessionKeyTemplate, SessionArgs(config, payload)).Success?
    ensures Extract.AttachmentsOf(payload, FilePaths).Failure? ==> r == Failure(Extract.AttachmentsOf(payload, FilePaths).error)
    ensures Extract.AttachmentsOf(payload, FilePaths).Success? && Extract.StrippedReply(payload, ReplyPaths).Failure? ==>
      r == Failure(Extract.StrippedReply(payload, ReplyPaths).error)
    ensures r.Success? ==> Extract.StrippedReply(payload, ReplyPaths) == Success(r.value.reply)
  {
    var atts :- Extract.AttachmentsOf(payload, FilePaths);
    var reply :- Extract.StrippedReply(payload, ReplyPaths);
    Template.FormatValueErrors(config.sessionKeyTemplate, SessionArgs(config, payload));
    var sessionKey :- Template.FormatValue(config.sessionKeyTemplate, SessionArgs(config, payload));
    Success(MessageOf(config, payload, atts, reply, sessionKey))
  }

  /** `convert_message` up to the download pass: Success(None) exactly for a dropped payload. */
  function ConvertMessage(config: AdapterConfig, payload: Json): (r: Result<Option<IncomingMessage>>)
    ensures !Admitted(config, payload) ==> r == Success(None)
    ensures Admitted(config, payload) ==> r.Failure? || r.value.Some?
    ensures r.Success? && r.value.Some? ==> Assemble(config, payload) == Success(r.value.value)
    ensures Admitted(config, payload) ==>
      (r.Success? <==> Assemble(config, payload).Success?) && (r.Failure? ==> r.error == Assemble(config, payload).error)
  {
    if !Admitted(config, payload) then Success(None)
    else
      var a := Assemble(config, payload);
      if a.Failure? then Failure(a.error) else Success(Some(a.value))
  }

  /** With `require_mention`, a payload without a mentions field is dropped whatever the bot user id. */
  lemma AbsentMentionsDropped(config: AdapterConfig, payload: Json)
    requires Truthy(config.requireMention) && !Extract.MentionsOf(payload, MentionPaths).1
    ensures ConvertMessage(config, payload) == Success(None)
  {
    assert Extract.MentionsOf(payload, MentionPaths).0 == [];
  }

  /** Without `require_mention` the mentions never decide: a message event with both ids is not dropped. */
  lemma NoMentionFilter(config: AdapterConfig, payload: Json)
    requires !Truthy(config.requireMention)
    requires Extract.IsMessageEvent(EventType(payload))
    requires Truthy(FirstOr(payload, GroupPaths, Null)) && Truthy(FirstOr(payload, ConversePaths, Null))
    ensures ConvertMessage(config, payload) != Success(None)
  {
  }

  /** An admitted payload with a files list and no reply dict is converted under the default template
      `{groupId}:{converseId}`: the attachments are one per object item and the key joins the two ids. */
  lemma AdmittedConverts(config: AdapterConfig, payload: Json)
    requires Admitted(config, payload)
    requires config.sessionKeyTemplate == Str("{groupId}:{converseId}")
    requires FirstOr(payload, FilePaths, Arr([])).Arr?
    requires !FirstOr(payload, ReplyPaths, Null).Obj?
    ensures ConvertMessage(config, payload).Success? && ConvertMessage(config, payload).value.Some?
    ensures var m := ConvertMessage(config, payload).value.value;
      && m.attachments == Extract.AttachmentsFrom(FirstOr(payload, FilePaths, Arr([])).items)
      && m.reply.None?
      && m.sessionKey == SessionArgs(config, payload)["groupId"] + ":" + SessionArgs(config, payload)["converseId"]
  {
    var args := SessionArgs(config, payload);
    Template.GroupConverseTemplate(args);
    var key := args["groupId"] + ":" + args["converseId"];
    assert Template.FormatValue(config.sessionKeyTemplate, args) == Success(key);
    var files := FirstOr(payload, FilePaths, Arr([]));
    Extract.AttachmentsOfList(payload, FilePaths);
    Extract.NoReplyDict(payload, ReplyPaths);
    var m := MessageOf(config, payload, Extract.AttachmentsFrom(files.items), None, key);
    assert Assemble(config, payload) == Success(m);
    assert ConvertMessage(config, payload) == Success(Some(m));
  }

  /** What a converted message carries: collapsed text without `@` mentions, the formatted session key, and
      metadata with the bot key, the raw event type, the presence flag and one summary per attachment. */
  lemma ConvertedMessage(config: AdapterConfig, payload: Json)
    requires ConvertMessage(config, payload).Success? && ConvertMessage(config, payload).value.Some?
    ensures var m := ConvertMessage(config, payload).value.value;
      && Admitted(config, payload)
      && Text.NormalSpacing(m.text)
      && m.attachments == Extract.AttachmentsOf(payload, FilePaths).value
      && Template.FormatValue(config.sessionKeyTemplate, SessionArgs(config, payload)) == Success(m.sessionKey)
      && m.metadata.Keys == {"bot_key", "event_type", "mentions_present", "attachments"}
      && m.metadata["bot_key"] == config.botKey
      && m.metadata["attachments"].Arr? && |m.metadata["attachments"].items| == |m.attachments|
  {
    var m := Assemble(config, payload).value;
    assert m == MessageOf(config, payload, m.attachments, m.reply, m.sessionKey);
  }

  /** `convert_message` with the download pass in download mode. */
  function ConvertSpec(config: AdapterConfig, payload: Json, env: Download.Env): Result<Option<IncomingMessage>> {
    Download.DownloadPassSpec(config.attachmentMode, config.downloadDir, config.maxAttachmentMb,
                              ConvertMessage(config, payload), env)
  }

  method Convert(config: AdapterConfig, payload: Json, env: Download.Env) returns (r: Result<Option<IncomingMessage>>)
    ensures r == ConvertSpec(config, payload, env)
  {
    var converted := ConvertMessage(config, payload);
    r := Download.DownloadPass(config.attachmentMode, config.downloadDir, config.maxAttachmentMb, converted, env);
  }

  /** What `handle_incoming` does with a conversion: an exception writes the redacted payload (only for a
      non-empty request id); a dropped payload is ignored; a message gets `request_id` and is handed on. */
  function HandleSpec(converted: Result<Option<IncomingMessage>>, payload: Json, requestId: string): Outcome {
    match converted
    case Failure(_) => Failed(if requestId == "" then None else Some(Redaction.RedactPayload(payload)))
    case Success(None) => Ignored
    case Success(Some(m)) => Delivered(m.(metadata := m.metadata["request_id" := Str(requestId)]))
  }

  method HandleIncoming(config: AdapterConfig, payload: Json, requestId: string, env: Download.Env) returns (o: Outcome)
    ensures o == HandleSpec(ConvertSpec(config, payload, env), payload, requestId)
  {
    var converted := Convert(config, payload, env);
    if converted.Failure? {
      if requestId == "" {
        return Failed(None);
      }
      return Failed(Some(Redaction.RedactPayload(payload)));
    }
    if converted.value.None? {
      return Ignored;
    }
    var message := converted.value.value;
    message := message.(metadata := message.metadata["request_id" := Str(requestId)]);
    return Delivered(message);
  }

  /** A delivered message is the converted one with `request_id` added and nothing else changed; a dump, when
      written, has every secret masked. */
  lemma HandleOutcome(converted: Result<Option<IncomingMessage>>, payload: Json, requestId: string)
    ensures var o := HandleSpec(converted, payload, requestId);
      && (o.Delivered? <==> converted.Success? && converted.value.Some?)
      && (o.Delivered? ==>
           var m := converted.value.value;
           && o.message.metadata["request_id"] == Str(requestId)
           && o.message.metadata.Keys == m.metadata.Keys + {"request_id"}
           && (forall k :: k in m.metadata && k != "request_id" ==> o.message.metadata[k] == m.metadata[k])
           && o.message.(metadata := m.metadata) == m)
      && (o.Failed? ==> (o.dump.Some? <==> requestId != "") && (o.dump.Some? ==> Redaction.Clean(o.dump.value)))
  {
    Redaction.RedactIsClean(payload);
  }
}
