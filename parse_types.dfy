/**
 * The message shapes of the standalone adapter (tailchat_adapter/types.py).
 * The dataclasses are annotated `str`, but Python stores whatever the parser
 * passes; fields copied from the payload unconverted are therefore `Json`,
 * and only the fields the parser converts with `str()` are strings.
 */
module ParseTypes {
  import opened Wrappers
  import opened JsonModel

  datatype ReplyInfo = ReplyInfo(messageId: Json, authorId: Json, content: Json)

  /** `kind` is "image" or "file". */
  datatype Attachment = Attachment(name: Json, url: Json, mime: Json, sizeBytes: int, kind: string)

  datatype IncomingMessage = IncomingMessage(
    selfId: string,
    groupId: Json,
    converseId: Json,
    messageId: Json,
    senderId: string,
    senderName: string,
    text: string,
    sessionKey: Json,
    attachments: seq<Attachment>,
    reply: Option<ReplyInfo>)
}
