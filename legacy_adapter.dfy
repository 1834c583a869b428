/**
 * The single-tenant adapter (plugins/tailchat_adapter/adapter.py). It reads
 * the same candidate paths as the multi-bot adapter, but mention gating
 * applies only when a mentions field is present, the text is not stripped of
 * mentions, the metadata is just the raw payload, the session template has no
 * `botKey` argument, and a conversion error is only logged.
 */
module LegacyAdapter {
  import opened Wrappers
  import opened JsonModel
  import opened Paths
  import opened TailchatTypes
  import Template
  import Extract
  import Adapter
  import Download

  /** `TailchatAdapterConfig` of this variant: no bot key. */
  datatype LegacyConfig = LegacyConfig(
    host: Json,
    appId: Json,
    appSecret: Json,
    requireMention: Json,
    attachmentMode: Json,
    downloadDir: Json,
    maxAttachmentMb: Json,
    sessionKeyTemplate: Json,
    botUserId: Json,
    openapiBase: Json,
    loginPath: Json,
    sendMessagePath: Json,
    fileUrlPath: Json,
    uploadPath: Json)

  /** The drop conditions: event type and addressing ids as in the multi-bot adapter; the mention test only
      when `require_mention` is set and the mentions field is present. */
  predicate Admitted(config: LegacyConfig, payload: Json) {
    && Extract.IsMessageEvent(Adapter.EventType(payload))
    && Truthy(FirstOr(payload, Adapter.GroupPaths, Null))
    && Truthy(FirstOr(payload, Adapter.ConversePaths, Null))
    && (Truthy(config.requireMention) && Extract.MentionsOf(payload, Adapter.MentionPaths).1 ==>
         Extract.Addressed(config.botUserId, Extract.MentionsOf(payload, Adapter.MentionPaths).0))
  }

  /** The template arguments: `groupId`, `converseId` and `messageId` (or ""), nothing else. */
  function SessionArgs(payload: Json): (args: map<string, string>)
    ensures args.Keys == {"groupId", "converseId", "messageId"}
  {
    map["groupId" := PyStr(FirstOr(payload, Adapter.GroupPaths, Null)),
        "converseId" := PyStr(FirstOr(payload, Adapter.ConversePaths, Null)),
        "messageId" := PyStr(Or(FirstOr(payload, Adapter.MessageIdPaths, Null), Str("")))]
  }

  /** `str(content or "")`, mentions left in. */
  function TextOf(payload: Json): string {
    PyStr(Or(FirstOr(payload, Adapter.ContentPaths, Str("")), Str("")))
  }

  function MessageOf(payload: Json, atts: seq<Attachment>, reply: Option<ReplyInfo>, sessionKey: string): IncomingMessage {
    var sender := Adapter.SenderOf(payload);
    IncomingMessage(
      text := TextOf(payload),
      attachments := atts,
      senderId := sender.0,
      senderName := sender.1,
      groupId := FirstOr(payload, Adapter.GroupPaths, Null),
      converseId := FirstOr(payload, Adapter.ConversePaths, Null),
      messageId := FirstOr(payload, Adapter.MessageIdPaths, Null),
      mentions := Extract.MentionsOf(payload, Adapter.MentionPaths).0,
      sessionKey := sessionKey,
      reply := reply,
      metadata := map["raw" := payload])
  }

  /** The admitted branch: attachments, reply and session key, each of which may raise, in that order. */
  function Assemble(config: LegacyConfig, payload: Json): (r: Result<IncomingMessage>)
    ensures r.Success? ==>
      && Extract.AttachmentsOf(payload, Adapter.FilePaths) == Success(r.value.attachments)
      && Template.FormatValue(config.sessionKeyTemplate, SessionArgs(payload)) == Success(r.value.sessionKey)
      && r.value == MessageOf(payload, r.value.attachments, r.value.reply, r.value.sessionKey)
    ensures r.Failure? ==>
      (r.error.TypeError? || r.error.AttributeError? || r.error.KeyError? || r.error.IndexError? || r.error.ValueError?)
    ensures r.Success? <==>
      && Extract.AttachmentsOf(payload, Adapter.FilePaths).Success?
      && Extract.StrippedReply(payload, Adapter.ReplyPaths).Success?
      && Template.FormatValue(config.sessionKeyTemplate, SessionArgs(payload)).Success?
    ensures Extract.AttachmentsOf(payload, Adapter.FilePaths).Failure? ==>
      r == Failure(Extract.AttachmentsOf(payload, Adapter.FilePaths).error)
    ensures Extract.AttachmentsOf(payload, Adapter.FilePaths).Success? && Extract.StrippedReply(payload, Adapter.ReplyPaths).Failure? ==>
      r == Failure(Extract.StrippedReply(payload, Adapter.ReplyPaths).error)
    ensures r.Success? ==> Extract.StrippedReply(payload, Adapter.ReplyPaths) == Success(r.value.reply)
  {
    var atts :- Extract.AttachmentsOf(payload, Adapter.FilePaths);
    var reply :- Extract.StrippedReply(payload, Adapter.ReplyPaths);
    Template.FormatValueErrors(config.sessionKeyTemplate, SessionArgs(payload));
    var sessionKey :- Template.FormatValue(config.sessionKeyTemplate, SessionArgs(payload));
    Success(MessageOf(payload, atts, reply, sessionKey))
  }

  /** `convert_message` up to the download pass: Success(None) exactly for a dropped payload. */
  function ConvertMessage(config: LegacyConfig, payload: Json): (r: Result<Option<IncomingMessage>>)
    ensures !Admitted(config, payload) ==> r == Success(None)
    ensures Admitted(config, payload) ==> r.Failure? || r.value.Some?
    ensures r.Success? && r.value.Some? ==> Assemble(config, payload) == Success(r.value.value)
    ensures Admitted(config, payload) ==>
      (r.Success? <==> Assemble(config, payload).Success?) && (r.Failure? ==> r.error == Assemble(config, payload).error)
  {
    if !Admitted(config, payload) then Success(None)
    else
      var a := Assemble(config, payload);
      if a.Failure? then Failure(a.error) else Success(Some(a.value))
  }

  /** An admitted payload with a files list and no reply dict is converted under the default template
      `{groupId}:{converseId}`: the attachments are one per object item and the key joins the two ids. */
  lemma AdmittedConverts(config: LegacyConfig, payload: Json)
    requires Admitted(config, payload)
    requires config.sessionKeyTemplate == Str("{groupId}:{converseId}")
    requires FirstOr(payload, Adapter.FilePaths, Arr([])).Arr?
    requires !FirstOr(payload, Adapter.ReplyPaths, Null).Obj?
    ensures ConvertMessage(config, payload).Success? && ConvertMessage(config, payload).value.Some?
    ensures var m := ConvertMessage(config, payload).value.value;
      && m.attachments == Extract.AttachmentsFrom(FirstOr(payload, Adapter.FilePaths, Arr([])).items)
      && m.reply.None?
      && m.sessionKey == SessionArgs(payload)["groupId"] + ":" + SessionArgs(payload)["converseId"]
  {
    var args := SessionArgs(payload);
    Template.GroupConverseTemplate(args);
    var key := args["groupId"] + ":" + args["converseId"];
    assert Template.FormatValue(config.sessionKeyTemplate, args) == Success(key);
    var files := FirstOr(payload, Adapter.FilePaths, Arr([]));
    Extract.AttachmentsOfList(payload, Adapter.FilePaths);
    Extract.NoReplyDict(payload, Adapter.ReplyPaths);
    var m := MessageOf(payload, Extract.AttachmentsFrom(files.items), None, key);
    assert Assemble(config, payload) == Success(m);
    assert ConvertMessage(config, payload) == Success(Some(m));
  }

  /** A payload without a mentions field is never dropped for mentions, even with `require_mention`. */
  lemma AbsentMentionsPass(config: LegacyConfig, payload: Json)
    requires !Extract.MentionsOf(payload, Adapter.MentionPaths).1
    requires Extract.IsMessageEvent(Adapter.EventType(payload))
    requires Truthy(FirstOr(payload, Adapter.GroupPaths, Null)) && Truthy(FirstOr(payload, Adapter.ConversePaths, Null))
    ensures ConvertMessage(config, payload) != Success(None)
  {
  }

  /** Only a present mentions field that misses the bot (or, with no bot id, is empty) drops a message event
      that has both ids. */
  lemma MentionDrop(config: LegacyConfig, payload: Json)
    requires Extract.IsMessageEvent(Adapter.EventType(payload))
    requires Truthy(FirstOr(payload, Adapter.GroupPaths, Null)) && Truthy(FirstOr(payload, Adapter.ConversePaths, Null))
    ensures ConvertMessage(config, payload) == Success(None) <==>
      && Truthy(config.requireMention)
      && Extract.MentionsOf(payload, Adapter.MentionPaths).1
      && !Extract.Addressed(config.botUserId, Extract.MentionsOf(payload, Adapter.MentionPaths).0)
  {
  }

  /** What a converted message carries: the content as a string, mentions included, the formatted session
      key, and the raw payload as the only metadata. */
  lemma ConvertedMessage(config: LegacyConfig, payload: Json)
    requires ConvertMessage(config, payload).Success? && ConvertMessage(config, payload).value.Some?
    ensures var m := ConvertMessage(config, payload).value.value;
      && Admitted(config, payload)
      && m.text == PyStr(Or(FirstOr(payload, Adapter.ContentPaths, Str("")), Str("")))
      && m.attachments == Extract.AttachmentsOf(payload, Adapter.FilePaths).value
      && Template.FormatValue(config.sessionKeyTemplate, SessionArgs(payload)) == Success(m.sessionKey)
      && m.metadata == map["raw" := payload]
  {
    var m := Assemble(config, payload).value;
    assert m == MessageOf(payload, m.attachments, m.reply, m.sessionKey);
  }

  /** A template that opens with any other placeholder, such as `{botKey}`, raises KeyError for every
      admitted payload whose attachments and reply convert. */
  lemma UnknownPlaceholderRaises(config: LegacyConfig, payload: Json, name: string, rest: string)
    requires config.sessionKeyTemplate == Str("{" + name + "}" + rest)
    requires name !in {"groupId", "converseId", "messageId"} && !Template.Positional(name)
    requires '{' !in name && '}' !in name && !Template.Unsupported(name)
    requires Admitted(config, payload)
    requires Extract.AttachmentsOf(payload, Adapter.FilePaths).Success?
    requires Extract.StrippedReply(payload, Adapter.ReplyPaths).Success?
    ensures ConvertMessage(config, payload) == Failure(KeyError(name))
  {
    var args := SessionArgs(payload);
    assert name !in args;
    Template.UnknownFieldRaises(name, rest, args);
    SessionKeyErrorRaises(config, payload, KeyError(name));
  }

  /** An error from the session template is the error of the admitted conversion. */
  lemma SessionKeyErrorRaises(config: LegacyConfig, payload: Json, e: Exc)
    requires Admitted(config, payload)
    requires Extract.AttachmentsOf(payload, Adapter.FilePaths).Success?
    requires Extract.StrippedReply(payload, Adapter.ReplyPaths).Success?
    requires Template.FormatValue(config.sessionKeyTemplate, SessionArgs(payload)) == Failure(e)
    ensures ConvertMessage(config, payload) == Failure(e)
  {
    assert Assemble(config, payload) == Failure(e);
  }

  /** `convert_message` with the download pass in download mode. */
  function ConvertSpec(config: LegacyConfig, payload: Json, env: Download.Env): Result<Option<IncomingMessage>> {
    Download.DownloadPassSpec(config.attachmentMode, config.downloadDir, config.maxAttachmentMb,
                              ConvertMessage(config, payload), env)
  }

  method Convert(config: LegacyConfig, payload: Json, env: Download.Env) returns (r: Result<Option<IncomingMessage>>)
    ensures r == ConvertSpec(config, payload, env)
  {
    var converted := ConvertMessage(config, payload);
    r := Download.DownloadPass(config.attachmentMode, config.downloadDir, config.maxAttachmentMb, converted, env);
  }

  /** What `handle_incoming` does with a conversion: an exception is logged and nothing is written; a dropped
      payload is ignored; a message is handed on as converted. */
  function HandleSpec(converted: Result<Option<IncomingMessage>>): (o: Outcome)
    ensures o.Delivered? <==> converted.Success? && converted.value.Some?
    ensures o.Delivered? ==> o.message == converted.value.value
    ensures o.Failed? <==> converted.Failure?
    ensures o.Failed? ==> o.dump.None?
  {
    match converted
    case Failure(_) => Failed(None)
    case Success(None) => Ignored
    case Success(Some(m)) => Delivered(m)
  }

  method HandleIncoming(config: LegacyConfig, payload: Json, env: Download.Env) returns (o: Outcome)
    ensures o == HandleSpec(ConvertSpec(config, payload, env))
  {
    var converted := Convert(config, payload, env);
    if converted.Failure? {
      return Failed(None);
    }
    if converted.value.None? {
      return Ignored;
    }
    return Delivered(converted.value.value);
  }

  /** An unknown placeholder in the session template therefore drops every such message without a dump. */
  lemma UnknownPlaceholderDropped(config: LegacyConfig, payload: Json, env: Download.Env, name: string, rest: string)
    requires config.sessionKeyTemplate == Str("{" + name + "}" + rest)
    requires name !in {"groupId", "converseId", "messageId"} && !Template.Positional(name)
    requires '{' !in name && '}' !in name && !Template.Unsupported(name)
    requires Admitted(config, payload)
    requires Extract.AttachmentsOf(payload, Adapter.FilePaths).Success?
    requires Extract.StrippedReply(payload, Adapter.ReplyPaths).Success?
    ensures HandleSpec(ConvertSpec(config, payload, env)) == Failed(None)
  {
    UnknownPlaceholderRaises(config, payload, name, rest);
  }
}
