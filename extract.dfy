/**
 * The mention and attachment extraction that the plugin utilities and both
 * adapter variants share (each variant has its own candidate paths).
 */
module Extract {
  import opened Wrappers
  import opened JsonModel
  import opened Paths
  import opened TailchatTypes
  import Text

  const MessageEvents: set<string> := {"message", "message.created", "message.create"}

  /** `str(event_type).lower() in {"message", "message.created", "message.create"}`. */
  predicate IsMessageEvent(eventType: Json) {
    Text.Lower(PyStr(eventType)) in MessageEvents
  }

  /** The mention test behind `require_mention`: a configured (truthy) bot user id must be among the mentions;
      with none configured, some mention must be present. */
  predicate Addressed(botUserId: Json, mentions: seq<string>) {
    if Truthy(botUserId) then InStrings(botUserId, mentions) else mentions != []
  }

  const MentionIdPaths: seq<string> := ["_id", "id", "userId"]

  /** What one mentions item contributes: a string as it is, an object through its truthy `_id`/`id`/`userId`. */
  function MentionOf(item: Json): Option<string> {
    match item
    case Str(s) => Some(s)
    case Obj(_) =>
      var id := FirstOr(item, MentionIdPaths, Null);
      if Truthy(id) then Some(PyStr(id)) else None
    case _ => None
  }

  /** The mention ids of a list, in order. */
  function MentionsFrom(items: seq<Json>): seq<string>
    decreases |items|
  {
    if items == [] then []
    else
      var last := items[|items| - 1];
      MentionsFrom(items[..|items| - 1]) + (match MentionOf(last) case Some(id) => [id] case None => [])
  }

  /** Extraction over a concatenation is the concatenation of the extractions: order is kept. */
  lemma {:induction false} MentionsFromAppend(a: seq<Json>, b: seq<Json>)
    ensures MentionsFrom(a + b) == MentionsFrom(a) + MentionsFrom(b)
    decreases |b|
  {
    if b == [] {
      assert a + b == a;
    } else {
      var b' := b[..|b| - 1];
      assert (a + b)[..|a + b| - 1] == a + b';
      MentionsFromAppend(a, b');
    }
  }

  /** A list of plain strings is kept exactly. */
  lemma {:induction false} MentionsFromStrings(items: seq<Json>)
    requires forall i :: 0 <= i < |items| ==> items[i].Str?
    ensures |MentionsFrom(items)| == |items|
    ensures forall i :: 0 <= i < |items| ==> MentionsFrom(items)[i] == items[i].s
    decreases |items|
  {
    if items != [] {
      MentionsFromStrings(items[..|items| - 1]);
    }
  }

  /** An id is extracted exactly when some item contributes it. */
  lemma {:induction false} MentionsFromMember(items: seq<Json>, x: string)
    ensures x in MentionsFrom(items) <==> exists i :: 0 <= i < |items| && MentionOf(items[i]) == Some(x)
    decreases |items|
  {
    if items != [] {
      var init := items[..|items| - 1];
      MentionsFromMember(init, x);
      if x in MentionsFrom(init) {
        var i :| 0 <= i < |init| && MentionOf(init[i]) == Some(x);
        assert items[i] == init[i];
      }
      if exists i :: 0 <= i < |items| && MentionOf(items[i]) == Some(x) {
        var i :| 0 <= i < |items| && MentionOf(items[i]) == Some(x);
        if i < |init| { assert init[i] == items[i]; }
      }
    }
  }

  /** The mention list for a looked-up value: empty unless it was present, truthy and a list. */
  function MentionList(l: Lookup): seq<string> {
    if !l.found || !Truthy(l.value) then []
    else if l.value.Arr? then MentionsFrom(l.value.items)
    else []
  }

  /** `_extract_mentions(payload)` with the variant's candidate paths: the mentions and whether the field was present. */
  function MentionsOf(payload: Json, paths: seq<string>): (seq<string>, bool) {
    var l := FirstPresent(payload, paths);
    (MentionList(l), l.found)
  }

  /** `for item in value` on a truthy value: a list yields its items; a dict its keys and a string its
      characters, all strings, which the attachment loop skips; numbers and booleans are not iterable. */
  function LoopItems(v: Json): Result<seq<Json>> {
    match v
    case Arr(xs) => Success(xs)
    case Obj(_) => Success([])
    case Str(_) => Success([])
    case _ => Failure(TypeError("object is not iterable"))
  }

  const NamePaths: seq<string> := ["name", "filename"]
  const MimePaths: seq<string> := ["mime", "mimetype", "type"]
  const SizePaths: seq<string> := ["size", "sizeBytes", "length"]
  const UrlPaths: seq<string> := ["url", "src", "downloadUrl"]
  const FileIdPaths: seq<string> := ["fileId", "file_id", "_id"]

  /** The attachment built from one object item; nothing is required of it. */
  function AttachmentOf(item: Json): Attachment {
    Attachment(
      name := PyStr(FirstOr(item, NamePaths, Str(""))),
      mime := FirstOr(item, MimePaths, Null),
      sizeBytes := FirstOr(item, SizePaths, Null),
      url := FirstOr(item, UrlPaths, Null),
      fileId := FirstOr(item, FileIdPaths, Null))
  }

  /** One attachment per object item, in order; other items are skipped. */
  function AttachmentsFrom(items: seq<Json>): seq<Attachment>
    decreases |items|
  {
    if items == [] then []
    else
      var last := items[|items| - 1];
      AttachmentsFrom(items[..|items| - 1]) + (if last.Obj? then [AttachmentOf(last)] else [])
  }

  lemma {:induction false} AttachmentsFromAppend(a: seq<Json>, b: seq<Json>)
    ensures AttachmentsFrom(a + b) == AttachmentsFrom(a) + AttachmentsFrom(b)
    decreases |b|
  {
    if b == [] {
      assert a + b == a;
    } else {
      var b' := b[..|b| - 1];
      assert (a + b)[..|a + b| - 1] == a + b';
      AttachmentsFromAppend(a, b');
    }
  }

  /** The number of object items in a list. */
  function ObjectCount(items: seq<Json>): nat
    decreases |items|
  {
    if items == [] then 0 else ObjectCount(items[..|items| - 1]) + (if items[|items| - 1].Obj? then 1 else 0)
  }

  /** Every object item yields exactly one attachment, even without a url or file id. */
  lemma {:induction false} AttachmentsFromCount(items: seq<Json>)
    ensures |AttachmentsFrom(items)| == ObjectCount(items)
    decreases |items|
  {
    if items != [] {
      AttachmentsFromCount(items[..|items| - 1]);
    }
  }

  /** A list of objects gives one attachment per item at the same position. */
  lemma {:induction false} AttachmentsFromObjects(items: seq<Json>)
    requires forall i :: 0 <= i < |items| ==> items[i].Obj?
    ensures |AttachmentsFrom(items)| == |items|
    ensures forall i :: 0 <= i < |items| ==> AttachmentsFrom(items)[i] == AttachmentOf(items[i])
    decreases |items|
  {
    if items != [] {
      var init := items[..|items| - 1];
      AttachmentsFromObjects(init);
      var last := items[|items| - 1];
      assert AttachmentsFrom(items) == AttachmentsFrom(init) + [AttachmentOf(last)];
      forall i | 0 <= i < |items| ensures AttachmentsFrom(items)[i] == AttachmentOf(items[i]) {
        if i < |init| {
          assert items[i] == init[i];
          assert AttachmentsFrom(items)[i] == AttachmentsFrom(init)[i];
        }
      }
    }
  }

  /** `_extract_attachments` on the looked-up files value: [] when it is falsy. */
  function AttachmentList(v: Json): Result<seq<Attachment>> {
    if !Truthy(v) then Success([])
    else
      var items :- LoopItems(v);
      Success(AttachmentsFrom(items))
  }

  function AttachmentsOf(payload: Json, paths: seq<string>): Result<seq<Attachment>> {
    AttachmentList(FirstOr(payload, paths, Arr([])))
  }

  /** A files value that is a list never raises: one attachment per object item. */
  lemma AttachmentsOfList(payload: Json, paths: seq<string>)
    requires FirstOr(payload, paths, Arr([])).Arr?
    ensures AttachmentsOf(payload, paths) == Success(AttachmentsFrom(FirstOr(payload, paths, Arr([])).items))
  {
    var items := FirstOr(payload, paths, Arr([])).items;
    if items == [] {
      assert AttachmentsFrom(items) == [];
    }
  }

  /** Without a reply dict there is no reply, and nothing raises. */
  lemma NoReplyDict(payload: Json, paths: seq<string>)
    requires !FirstOr(payload, paths, Null).Obj?
    ensures StrippedReply(payload, paths) == Success(None)
  {
  }

  /** The loop of `_extract_mentions` over a list value, shared by every variant. */
  method CollectMentions(items: seq<Json>) returns (mentions: seq<string>)
    ensures mentions == MentionsFrom(items)
  {
    mentions := [];
    var i := 0;
    while i < |items|
      invariant 0 <= i <= |items|
      invariant mentions == MentionsFrom(items[..i])
    {
      assert items[..i + 1][..i] == items[..i];
      var item := items[i];
      if item.Str? {
        mentions := mentions + [item.s];
      } else if item.Obj? {
        var mentionId := FirstOr(item, MentionIdPaths, Null);
        if Truthy(mentionId) {
          mentions := mentions + [PyStr(mentionId)];
        }
      }
      i := i + 1;
    }
    assert items[..|items|] == items;
  }

  /** The loop of `_extract_attachments` over the items of a truthy files value, shared by every variant. */
  method CollectAttachments(items: seq<Json>) returns (attachments: seq<Attachment>)
    ensures attachments == AttachmentsFrom(items)
  {
    attachments := [];
    var i := 0;
    while i < |items|
      invariant 0 <= i <= |items|
      invariant attachments == AttachmentsFrom(items[..i])
    {
      assert items[..i + 1][..i] == items[..i];
      var item := items[i];
      if item.Obj? {
        var url := FirstOr(item, UrlPaths, Null);
        var fileId := FirstOr(item, FileIdPaths, Null);
        attachments := attachments + [Attachment(
          name := PyStr(FirstOr(item, NamePaths, Str(""))),
          mime := FirstOr(item, MimePaths, Null),
          sizeBytes := FirstOr(item, SizePaths, Null),
          url := url,
          fileId := fileId)];
      }
      i := i + 1;
    }
    assert items[..|items|] == items;
  }

  /** `reply.get("author")` when that is a dict, else `{}`. */
  function ReplyAuthor(reply: map<string, Json>): Json {
    var a := Get(reply, "author", Null);
    if a.Obj? then a else Obj(map[])
  }

  const ReplyAuthorIdPaths: seq<string> := ["_id", "id", "userId"]
  const ReplyAuthorNamePaths: seq<string> := ["nickname", "name"]

  /** The adapters' `author_name`: the nickname/name stripped when it is truthy (only a string has `.strip()`),
      else None. */
  function StrippedAuthorName(author: Json): (r: Result<Json>)
    ensures r.Success? <==> !Truthy(FirstOr(author, ReplyAuthorNamePaths, Str(""))) || FirstOr(author, ReplyAuthorNamePaths, Str("")).Str?
    ensures r.Success? && r.value != Null ==>
      (r.value.Str? && (r.value.s == [] || (!Text.IsSpace(r.value.s[0]) && !Text.IsSpace(r.value.s[|r.value.s| - 1]))))
    ensures r.Success? && r.value == Null <==> r.Success? && !Truthy(FirstOr(author, ReplyAuthorNamePaths, Str("")))
    ensures r.Success? && r.value != Null ==>
      var name := FirstOr(author, ReplyAuthorNamePaths, Str(""));
      name.Str? && r.value == Str(Text.Strip(name.s))
  {
    var name := FirstOr(author, ReplyAuthorNamePaths, Str(""));
    if !Truthy(name) then Success(Null)
    else if name.Str? then
      Text.StripShape(name.s);
      Success(Str(Text.Strip(name.s)))
    else Failure(AttributeError("strip"))
  }

  /** The adapters' `_extract_reply`: None unless the reply value is a dict; ids and content unconverted. */
  function StrippedReply(payload: Json, paths: seq<string>): (r: Result<Option<ReplyInfo>>)
    ensures r.Success? && r.value.Some? <==> FirstOr(payload, paths, Null).Obj? && r.Success?
    ensures r.Failure? ==> r.error.AttributeError?
    ensures r.Failure? <==>
      (FirstOr(payload, paths, Null).Obj? && StrippedAuthorName(ReplyAuthor(FirstOr(payload, paths, Null).fields)).Failure?)
    ensures r.Success? && r.value.Some? ==>
      var reply := FirstOr(payload, paths, Null);
      var author := ReplyAuthor(reply.fields);
      && r.value.value.messageId == FirstOr(reply, ["messageId", "_id"], Null)
      && r.value.value.authorId == FirstOr(author, ReplyAuthorIdPaths, Null)
      && StrippedAuthorName(author) == Success(r.value.value.authorName)
      && r.value.value.content == FirstOr(reply, ["content", "text"], Null)
  {
    var reply := FirstOr(payload, paths, Null);
    if !reply.Obj? then Success(None)
    else
      var author := ReplyAuthor(reply.fields);
      var authorName :- StrippedAuthorName(author);
      Success(Some(ReplyInfo(
        messageId := FirstOr(reply, ["messageId", "_id"], Null),
        authorId := FirstOr(author, ReplyAuthorIdPaths, Null),
        authorName := authorName,
        content := FirstOr(reply, ["content", "text"], Null))))
  }
}
