/**
 * The message shapes handed from the plugin normalizers to AstrBot
 * (the `Attachment`, `ReplyInfo` and `IncomingMessage` dataclasses).
 * Fields the Python code fills with whatever the payload held are `Json`.
 */
module TailchatTypes {
  import opened Wrappers
  import opened JsonModel

  datatype Attachment = Attachment(
    name: string,
    mime: Json,
    sizeBytes: Json,
    url: Json,
    fileId: Json)

  datatype ReplyInfo = ReplyInfo(
    messageId: Json,
    authorId: Json,
    authorName: Json,
    content: Json)

  datatype IncomingMessage = IncomingMessage(
    text: string,
    attachments: seq<Attachment>,
    senderId: Json,
    senderName: Json,
    groupId: Json,
    converseId: Json,
    messageId: Json,
    mentions: seq<string>,
    sessionKey: string,
    reply: Option<ReplyInfo>,
    metadata: map<string, Json>)

  /** What `handle_incoming` does with one payload: a failed conversion (with the redacted dump it writes, if
      any), a dropped payload, or a message handed to the event callback. */
  datatype Outcome = Failed(dump: Option<Json>) | Ignored | Delivered(message: IncomingMessage)
}
