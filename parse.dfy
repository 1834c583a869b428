/**
 * The standalone adapter's payload parser `parse_incoming` and its lookup
 * `_get_first`, which skips candidates that resolve to null or "".
 */
module Parse {
  import opened Wrappers
  import opened JsonModel
  import opened Paths
  import opened ParseTypes
  import Text

  /** `_get_first`: the first candidate that resolves to something other than null or "", else null. */
  method GetFirst(obj: Json, paths: seq<string>) returns (r: Json)
    ensures r == FirstNonEmpty(obj, paths)
  {
    var i := 0;
    while i < |paths|
      invariant 0 <= i <= |paths|
      invariant FirstNonEmpty(obj, paths) == FirstNonEmpty(obj, paths[i..])
    {
      var parts := Parts(paths[i]);
      var cur := obj;
      var ok := true;
      var j := 0;
      while j < |parts|
        invariant 0 <= j <= |parts| && ok
        invariant Walk(obj, parts) == Walk(cur, parts[j..])
      {
        if cur.Obj? && parts[j] in cur.fields {
          cur := cur.fields[parts[j]];
        } else {
          ok := false;
          break;
        }
        j := j + 1;
      }
      assert paths[i..][0] == paths[i] && paths[i..][1..] == paths[i + 1..];
      if ok && !NullOrEmpty(cur) {
        return cur;
      }
      i := i + 1;
    }
    return Null;
  }

  // ----- int() -----

  function DigitsValue(s: string): nat
    requires forall i :: 0 <= i < |s| ==> '0' <= s[i] <= '9'
    decreases |s|
  {
    if s == [] then 0 else DigitsValue(s[..|s| - 1]) * 10 + (s[|s| - 1] as int - '0' as int)
  }

  predicate AllDigits(s: string) {
    s != [] && forall i :: 0 <= i < |s| ==> '0' <= s[i] <= '9'
  }

  /** `int(s)` for a string: surrounding whitespace, an optional sign, then decimal digits. */
  function ParseInt(s: string): Result<int> {
    var t := Text.Strip(s);
    if t != [] && (t[0] == '-' || t[0] == '+') && AllDigits(t[1..]) then
      var v: int := DigitsValue(t[1..]);
      Success(if t[0] == '-' then -v else v)
    else if AllDigits(t) then Success(DigitsValue(t))
    else Failure(ValueError("invalid literal for int()"))
  }

  /** `int(v)`: integers as they are, booleans as 0/1, strings parsed; anything else is a TypeError. */
  function PyInt(v: Json): Result<int> {
    match v
    case Int(i) => Success(i)
    case Bool(b) => Success(if b then 1 else 0)
    case Str(s) => ParseInt(s)
    case _ => Failure(TypeError("int() argument must be a string or a number"))
  }

  lemma DigitIsAscii(d: nat)
    requires d < 10
    ensures Digit(d) as int == '0' as int + d
  {
    if d == 0 {} else if d == 1 {} else if d == 2 {} else if d == 3 {} else if d == 4 {}
    else if d == 5 {} else if d == 6 {} else if d == 7 {} else if d == 8 {} else {}
  }

  /** Decimal digits of a natural number read back as that number. */
  lemma {:induction false} NatToStringDigits(n: nat)
    ensures AllDigits(NatToString(n))
    ensures DigitsValue(NatToString(n)) == n
    decreases n
  {
    var s := NatToString(n);
    if n < 10 {
      DigitIsAscii(n);
      assert s[..|s| - 1] == [];
    } else {
      NatToStringDigits(n / 10);
      DigitIsAscii(n % 10);
      assert s[..|s| - 1] == NatToString(n / 10);
    }
  }

  /** `int(str(i)) == i`: the parser reads back every integer the code prints. */
  lemma ParseIntRoundTrip(i: int)
    ensures ParseInt(IntToString(i)) == Success(i)
  {
    var s := IntToString(i);
    NatToStringDigits(if i < 0 then -i else i);
    assert Text.Strip(s) == s by {
      assert !Text.IsSpace(s[0]) && !Text.IsSpace(s[|s| - 1]);
      assert Text.LStrip(s) == s;
    }
    if i < 0 {
      assert s[1..] == NatToString(-i);
    } else {
      assert s[0] != '-' && s[0] != '+';
    }
  }

  // ----- attachments -----

  predicate HasImageSuffix(name: string) {
    Text.EndsWith(name, ".png") || Text.EndsWith(name, ".jpg") || Text.EndsWith(name, ".jpeg")
    || Text.EndsWith(name, ".webp") || Text.EndsWith(name, ".gif")
  }

  /** The `kind` expression: `mime.startswith` needs a string mime, and `name.lower()` (reached only when the mime
      is not an image type) a string name. */
  function Kind(name: Json, mime: Json): (r: Result<string>)
    ensures r == Success("image") <==>
      mime.Str? && (Text.StartsWith(mime.s, "image/") || (name.Str? && HasImageSuffix(Text.Lower(name.s))))
    ensures r.Success? ==> r.value == "image" || r.value == "file"
    ensures r.Failure? <==> !mime.Str? || (!Text.StartsWith(mime.s, "image/") && !name.Str?)
  {
    if !mime.Str? then Failure(AttributeError("startswith"))
    else if Text.StartsWith(mime.s, "image/") then Success("image")
    else if !name.Str? then Failure(AttributeError("lower"))
    else if HasImageSuffix(Text.Lower(name.s)) then Success("image")
    else Success("file")
  }

  function UrlOf(f: map<string, Json>): Json {
    Or(Get(f, "url", Null), Or(Get(f, "src", Null), Or(Get(f, "downloadUrl", Null), Str(""))))
  }

  function NameOf(f: map<string, Json>): Json {
    Or(Get(f, "name", Null), Or(Get(f, "filename", Null), Str("file")))
  }

  function MimeOf(f: map<string, Json>): Json {
    Or(Get(f, "mime", Null), Or(Get(f, "type", Null), Str("")))
  }

  /** One files item: every field is computed (and may raise) before the url decides whether it is kept. */
  function AttachmentItem(f: Json): Result<Option<Attachment>> {
    if !f.Obj? then Success(None)
    else
      var url := UrlOf(f.fields);
      var name := NameOf(f.fields);
      var mime := MimeOf(f.fields);
      var size :- PyInt(Or(Get(f.fields, "size", Null), Int(0)));
      var kind :- Kind(name, mime);
      if Truthy(url) then Success(Some(Attachment(name, url, mime, size, kind))) else Success(None)
  }

  /** A kept attachment has a non-empty url and a truthy name (defaulting to "file"), and a missing size is 0. */
  lemma AttachmentItemShape(f: Json)
    ensures AttachmentItem(f).Success? && AttachmentItem(f).value.Some? ==>
      var a := AttachmentItem(f).value.value;
      && f.Obj? && Truthy(a.url) && a.url == UrlOf(f.fields) && Truthy(a.name)
      && (!Truthy(Get(f.fields, "name", Null)) && !Truthy(Get(f.fields, "filename", Null)) ==> a.name == Str("file"))
      && (!Truthy(Get(f.fields, "size", Null)) ==> a.sizeBytes == 0)
      && (a.kind == "image" <==> Kind(a.name, a.mime) == Success("image"))
    ensures !f.Obj? ==> AttachmentItem(f) == Success(None)
    ensures f.Obj? && AttachmentItem(f).Success? ==> (AttachmentItem(f).value.Some? <==> Truthy(UrlOf(f.fields)))
  {
  }

  /** The kept attachments of a files list, in order; the first item that raises decides the error. */
  function AttachmentsFrom(items: seq<Json>): Result<seq<Attachment>>
    decreases |items|
  {
    if items == [] then Success([])
    else
      var init :- AttachmentsFrom(items[..|items| - 1]);
      var last :- AttachmentItem(items[|items| - 1]);
      Success(init + (match last case Some(a) => [a] case None => []))
  }

  /** `raw_files` is used only when it is a list. */
  function AttachmentsOf(rawFiles: Json): Result<seq<Attachment>> {
    if rawFiles.Arr? then AttachmentsFrom(rawFiles.items) else Success([])
  }

  /** Once a prefix raises, the whole list raises with the same error. */
  lemma {:induction false} AttachmentsFailureSticks(items: seq<Json>, k: nat)
    requires k <= |items| && AttachmentsFrom(items[..k]).Failure?
    ensures AttachmentsFrom(items) == AttachmentsFrom(items[..k])
    decreases |items| - k
  {
    if k < |items| {
      var n := |items|;
      assert items[..n][..k] == items[..k];
      assert items[..k + 1][..k] == items[..k];
      assert AttachmentsFrom(items[..k + 1]) == AttachmentsFrom(items[..k]);
      AttachmentsFailureSticks(items, k + 1);
    } else {
      assert items[..k] == items;
    }
  }

  /** A successful parse keeps exactly the object items with a url: one attachment per such item, each the
      attachment built from an item, and the attachment of every kept item among them. */
  lemma {:induction false} AttachmentsFromKept(items: seq<Json>)
    requires AttachmentsFrom(items).Success?
    ensures forall i :: 0 <= i < |items| ==> AttachmentItem(items[i]).Success?
    ensures |AttachmentsFrom(items).value| == KeptCount(items)
    ensures forall a :: a in AttachmentsFrom(items).value ==> Truthy(a.url)
    ensures forall a :: a in AttachmentsFrom(items).value ==>
      exists i :: 0 <= i < |items| && AttachmentItem(items[i]) == Success(Some(a))
    ensures forall i :: 0 <= i < |items| && AttachmentItem(items[i]).value.Some? ==>
      AttachmentItem(items[i]).value.value in AttachmentsFrom(items).value
    decreases |items|
  {
    if items != [] {
      var init := items[..|items| - 1];
      AttachmentsFromKept(init);
      forall i | 0 <= i < |items| ensures AttachmentItem(items[i]).Success? {
        if i < |init| { assert items[i] == init[i]; }
      }
      AttachmentItemShape(items[|items| - 1]);
    }
    AttachmentsFromSources(items);
    AttachmentsFromKeepsAll(items);
  }

  lemma {:induction false} AttachmentsFromSources(items: seq<Json>)
    requires AttachmentsFrom(items).Success?
    ensures forall a :: a in AttachmentsFrom(items).value ==>
      exists i :: 0 <= i < |items| && AttachmentItem(items[i]) == Success(Some(a))
    decreases |items|
  {
    if items != [] {
      var init := items[..|items| - 1];
      AttachmentsFromSources(init);
      var last := AttachmentItem(items[|items| - 1]).value;
      var tail := if last.Some? then [last.value] else [];
      assert AttachmentsFrom(items).value == AttachmentsFrom(init).value + tail;
      forall a | a in AttachmentsFrom(items).value
        ensures exists i :: 0 <= i < |items| && AttachmentItem(items[i]) == Success(Some(a))
      {
        if a in AttachmentsFrom(init).value {
          var i :| 0 <= i < |init| && AttachmentItem(init[i]) == Success(Some(a));
          assert items[i] == init[i];
        } else {
          assert AttachmentItem(items[|items| - 1]) == Success(Some(a));
        }
      }
    }
  }

  lemma {:induction false} AttachmentsFromKeepsAll(items: seq<Json>)
    requires AttachmentsFrom(items).Success?
    ensures forall i :: 0 <= i < |items| && AttachmentItem(items[i]).Success? && AttachmentItem(items[i]).value.Some? ==>
      AttachmentItem(items[i]).value.value in AttachmentsFrom(items).value
  {
    forall i | 0 <= i < |items| && AttachmentItem(items[i]).Success? && AttachmentItem(items[i]).value.Some?
      ensures AttachmentItem(items[i]).value.value in AttachmentsFrom(items).value
    {
      AttachmentKeptAt(items, i, AttachmentItem(items[i]).value.value);
    }
  }

  lemma {:induction false} AttachmentKeptAt(items: seq<Json>, i: nat, a: Attachment)
    requires AttachmentsFrom(items).Success?
    requires i < |items| && AttachmentItem(items[i]) == Success(Some(a))
    ensures a in AttachmentsFrom(items).value
    decreases |items|
  {
    var init := items[..|items| - 1];
    AttachmentsFromLast(items);
    var xs := AttachmentsFrom(init).value;
    if i < |init| {
      assert a in xs by {
        assert items[i] == init[i];
        AttachmentKeptAt(init, i, a);
      }
      InConcatLeft(a, xs, AttachmentsFrom(items).value);
    } else {
      InConcatRight(a, xs, AttachmentsFrom(items).value);
    }
  }

  /** A successful parse is the parse of all items but the last, followed by the last item's attachment. */
  lemma AttachmentsFromLast(items: seq<Json>)
    requires items != [] && AttachmentsFrom(items).Success?
    ensures AttachmentsFrom(items[..|items| - 1]).Success? && AttachmentItem(items[|items| - 1]).Success?
    ensures var last := AttachmentItem(items[|items| - 1]).value;
      AttachmentsFrom(items).value == AttachmentsFrom(items[..|items| - 1]).value + (if last.Some? then [last.value] else [])
  {
  }

  lemma InConcatLeft(a: Attachment, xs: seq<Attachment>, ys: seq<Attachment>)
    requires a in xs && |xs| <= |ys| && ys[..|xs|] == xs
    ensures a in ys
  {
    var k :| 0 <= k < |xs| && xs[k] == a;
    assert ys[k] == a;
  }

  lemma InConcatRight(a: Attachment, xs: seq<Attachment>, ys: seq<Attachment>)
    requires ys == xs + [a]
    ensures a in ys
  {
    assert ys[|xs|] == a;
  }

  /** Parsing keeps the input order: the attachments of two lists in a row are those of the first followed by
      those of the second, and the concatenation parses exactly when both parts do. */
  lemma {:induction false} AttachmentsFromAppend(a: seq<Json>, b: seq<Json>)
    ensures AttachmentsFrom(a + b).Success? <==> AttachmentsFrom(a).Success? && AttachmentsFrom(b).Success?
    ensures AttachmentsFrom(a + b).Success? ==>
      AttachmentsFrom(a + b).value == AttachmentsFrom(a).value + AttachmentsFrom(b).value
    decreases |b|
  {
    if b == [] {
      assert a + b == a;
    } else {
      var init := b[..|b| - 1];
      assert (a + b)[..|a + b| - 1] == a + init;
      assert (a + b)[|a + b| - 1] == b[|b| - 1];
      AttachmentsFromAppend(a, init);
      if AttachmentsFrom(a + b).Success? {
        var last := AttachmentItem(b[|b| - 1]).value;
        var tail := match last case Some(x) => [x] case None => [];
        assert AttachmentsFrom(a + b).value == AttachmentsFrom(a + init).value + tail;
        assert AttachmentsFrom(b).value == AttachmentsFrom(init).value + tail;
      }
    }
  }

  /** The number of items that yield an attachment. */
  function KeptCount(items: seq<Json>): nat
    requires forall i :: 0 <= i < |items| ==> AttachmentItem(items[i]).Success?
    decreases |items|
  {
    if items == [] then 0
    else
      KeptCount(items[..|items| - 1]) + (if AttachmentItem(items[|items| - 1]).value.Some? then 1 else 0)
  }

  /** One more item: its attachment, if any, is appended to those of the items before it. */
  lemma AttachmentsFromStep(items: seq<Json>, i: nat)
    requires i < |items| && AttachmentsFrom(items[..i]).Success? && AttachmentItem(items[i]).Success?
    ensures var item := AttachmentItem(items[i]).value;
      AttachmentsFrom(items[..i + 1]) ==
        Success(AttachmentsFrom(items[..i]).value + (if item.Some? then [item.value] else []))
  {
    assert items[..i + 1][..i] == items[..i] && items[..i + 1][i] == items[i];
  }

  /** `atts.append` in a loop over the files list. */
  method CollectAttachments(rawFiles: Json) returns (r: Result<seq<Attachment>>)
    ensures r == AttachmentsOf(rawFiles)
  {
    if !rawFiles.Arr? {
      return Success([]);
    }
    var items := rawFiles.items;
    var atts: seq<Attachment> := [];
    var i := 0;
    while i < |items|
      invariant 0 <= i <= |items|
      invariant AttachmentsFrom(items[..i]) == Success(atts)
    {
      var item := AttachmentItem(items[i]);
      if item.Failure? {
        assert AttachmentsFrom(items) == Failure(item.error) by {
          assert items[..i + 1][..i] == items[..i] && items[..i + 1][i] == items[i];
          AttachmentsFailureSticks(items, i + 1);
        }
        return Failure(item.error);
      }
      var next := if item.value.Some? then atts + [item.value.value] else atts;
      assert AttachmentsFrom(items[..i + 1]) == Success(next) by {
        AttachmentsFromStep(items, i);
        assert atts + [] == atts;
      }
      atts := next;
      i := i + 1;
    }
    assert items[..|items|] == items;
    return Success(atts);
  }

  // ----- reply and session key -----

  /** The reply: only a dict with a truthy `_id` or `id`; missing author and content become "". */
  function ReplyOf(replyObj: Json): (r: Option<ReplyInfo>)
    ensures r.Some? <==> replyObj.Obj? && (Truthy(Get(replyObj.fields, "_id", Null)) || Truthy(Get(replyObj.fields, "id", Null)))
    ensures r.Some? ==> Truthy(r.value.messageId) && r.value.authorId != Null && r.value.content != Null
    ensures r.Some? ==>
      var o := replyObj.fields;
      && r.value.messageId == Or(Get(o, "_id", Null), Get(o, "id", Null))
      && r.value.authorId == Or(Get(o, "author", Null), Str(""))
      && r.value.content == Or(Get(o, "content", Null), Str(""))
  {
    if !replyObj.Obj? then None
    else
      var o := replyObj.fields;
      var rid := Or(Get(o, "_id", Null), Or(Get(o, "id", Null), Str("")));
      var rauthor := Or(Get(o, "author", Null), Str(""));
      var rcontent := Or(Get(o, "content", Null), Str(""));
      if Truthy(rid) then Some(ReplyInfo(rid, rauthor, rcontent)) else None
  }

  /** `f"{group_id}:{converse_id}"` when both are truthy, else the converse id, else the sender id, else "tailchat". */
  function SessionKey(groupId: Json, converseId: Json, senderId: Json): (k: Json)
    ensures Truthy(k)
    ensures Truthy(groupId) && Truthy(converseId) ==> k == Str(PyStr(groupId) + ":" + PyStr(converseId))
    ensures !Truthy(groupId) && Truthy(converseId) ==> k == converseId
    ensures !Truthy(converseId) && Truthy(senderId) ==> k == senderId
    ensures !Truthy(converseId) && !Truthy(senderId) ==> k == Str("tailchat")
  {
    if Truthy(groupId) && Truthy(converseId) then
      var g := PyStr(groupId);
      assert g != [] by { PyStrOfTruthy(groupId); }
      Str(g + ":" + PyStr(converseId))
    else Or(converseId, Or(senderId, Str("tailchat")))
  }

  lemma PyStrOfTruthy(v: Json)
    requires Truthy(v)
    ensures PyStr(v) != ""
  {
    if v.Int? {
      if v.i < 0 {
      } else {
        assert NatToString(v.i) != [];
      }
    }
  }

  /** With two colon-free ids the combined key splits back into exactly those ids. */
  lemma SessionKeySplits(groupId: Json, converseId: Json, senderId: Json)
    requires Truthy(groupId) && Truthy(converseId)
    requires ':' !in PyStr(groupId) && ':' !in PyStr(converseId)
    ensures Text.Split(SessionKey(groupId, converseId, senderId).s, ':') == [PyStr(groupId), PyStr(converseId)]
  {
    var g := PyStr(groupId);
    var c := PyStr(converseId);
    var s := g + ":" + c;
    Text.IndexOfIsFirst(s, ':', |g|);
    assert s[..|g|] == g;
    assert s[|g| + 1..] == c;
  }

  // ----- parse_incoming -----

  const GroupPaths: seq<string> := ["groupId", "group_id", "group.id"]
  const ConversePaths: seq<string> := ["converseId", "converse_id", "panelId", "panel_id"]
  const MessageIdPaths: seq<string> := ["messageId", "_id", "id"]
  const SenderIdPaths: seq<string> := ["messageAuthor", "author", "sender.userId", "sender._id", "userId"]
  const SenderNamePaths: seq<string> := ["messageAuthorName", "sender.nickname", "sender.name", "authorName", "username"]
  const TextPaths: seq<string> := ["messageSnippet", "content", "plain", "text"]
  const MentionPaths: seq<string> := ["mentions", "meta.mentions"]
  const FilePaths: seq<string> := ["files", "attachments", "meta.files", "meta.attachments"]
  const ReplyPaths: seq<string> := ["meta.reply", "reply"]

  /** `payload.get("type") or payload.get("event") or _get_first(payload, ["data.type"])`. */
  function EventType(payload: map<string, Json>): Json {
    Or(Get(payload, "type", Null), Or(Get(payload, "event", Null), FirstNonEmpty(Obj(payload), ["data.type"])))
  }

  /** A truthy type other than exactly "message" drops the payload; no type at all is accepted. */
  predicate TypeRejected(payload: map<string, Json>) {
    Truthy(EventType(payload)) && EventType(payload) != Str("message")
  }

  /** `payload.get("payload") or payload.get("data") or payload`. */
  function Body(payload: map<string, Json>): Json {
    Or(Get(payload, "payload", Null), Or(Get(payload, "data", Null), Obj(payload)))
  }

  /** `config.get("features") or {}`. */
  function Features(config: map<string, Json>): Json {
    Or(Get(config, "features", Null), Obj(map[]))
  }

  /** The two `.get` calls on the configuration succeed. */
  predicate ConfigUsable(config: Json) {
    config.Obj? && Features(config.fields).Obj?
  }

  function RequireMention(config: Json): bool
    requires ConfigUsable(config)
  {
    Truthy(Get(Features(config.fields).fields, "require_mention", Bool(true)))
  }

  /** Only an empty mentions list rejects; absent or non-list mentions pass. */
  predicate MentionRejected(p: Json, config: Json)
    requires ConfigUsable(config)
  {
    RequireMention(config) && FirstNonEmpty(p, MentionPaths) == Arr([])
  }

  /** `sender_name`: the looked-up name, else `str(sender_id or "")`, converted with `str`. */
  function SenderName(p: Json): (name: string)
    ensures !Truthy(FirstNonEmpty(p, SenderNamePaths)) ==> name == PyStr(Or(FirstNonEmpty(p, SenderIdPaths), Str("")))
    ensures Truthy(FirstNonEmpty(p, SenderNamePaths)) ==> name == PyStr(FirstNonEmpty(p, SenderNamePaths))
  {
    var fallback := Str(PyStr(Or(FirstNonEmpty(p, SenderIdPaths), Str(""))));
    PyStr(Or(Or(FirstNonEmpty(p, SenderNamePaths), fallback), Str("")))
  }

  /** The message read from the body `p`, given its attachments. */
  function MessageOf(p: Json, atts: seq<Attachment>): (m: IncomingMessage)
    ensures m.selfId == "tailchat-bot" && m.attachments == atts && Truthy(m.sessionKey)
    ensures m.groupId == Or(FirstNonEmpty(p, GroupPaths), Str(""))
    ensures m.converseId == Or(FirstNonEmpty(p, ConversePaths), Str(""))
    ensures m.messageId == Or(FirstNonEmpty(p, MessageIdPaths), Str(""))
    ensures m.senderId == PyStr(Or(FirstNonEmpty(p, SenderIdPaths), Str("")))
    ensures m.text == PyStr(Or(FirstNonEmpty(p, TextPaths), Str("")))
    ensures m.senderName == SenderName(p)
    ensures m.sessionKey == SessionKey(FirstNonEmpty(p, GroupPaths), FirstNonEmpty(p, ConversePaths), FirstNonEmpty(p, SenderIdPaths))
    ensures m.reply == ReplyOf(FirstNonEmpty(p, ReplyPaths))
  {
    var groupId := FirstNonEmpty(p, GroupPaths);
    var converseId := FirstNonEmpty(p, ConversePaths);
    var senderId := FirstNonEmpty(p, SenderIdPaths);
    IncomingMessage(
      selfId := "tailchat-bot",
      groupId := Or(groupId, Str("")),
      converseId := Or(converseId, Str("")),
      messageId := Or(FirstNonEmpty(p, MessageIdPaths), Str("")),
      senderId := PyStr(Or(senderId, Str(""))),
      senderName := SenderName(p),
      text := PyStr(Or(FirstNonEmpty(p, TextPaths), Str(""))),
      sessionKey := SessionKey(groupId, converseId, senderId),
      attachments := atts,
      reply := ReplyOf(FirstNonEmpty(p, ReplyPaths)))
  }

  /** `parse_incoming`: Success(None) for a dropped payload; Failure where Python raises (a payload or
      configuration that is not a dict, a non-dict `features`, a bad size, a non-string mime or name). */
  function ParseIncoming(payload: Json, config: Json): (r: Result<Option<IncomingMessage>>)
    ensures !payload.Obj? ==> r.Failure?
    ensures payload.Obj? && TypeRejected(payload.fields) ==> r == Success(None)
    ensures r == Success(None) <==>
      payload.Obj? && (TypeRejected(payload.fields)
        || (ConfigUsable(config) && MentionRejected(Body(payload.fields), config)))
    ensures r.Success? && r.value.Some? ==>
      && payload.Obj? && ConfigUsable(config)
      && r.value.value == MessageOf(Body(payload.fields), r.value.value.attachments)
      && AttachmentsOf(FirstNonEmpty(Body(payload.fields), FilePaths)) == Success(r.value.value.attachments)
    ensures payload.Obj? && !TypeRejected(payload.fields) && !ConfigUsable(config) ==> r.Failure?
    ensures payload.Obj? && !TypeRejected(payload.fields) && ConfigUsable(config) && !MentionRejected(Body(payload.fields), config) ==>
      var atts := AttachmentsOf(FirstNonEmpty(Body(payload.fields), FilePaths));
      && (r.Success? <==> atts.Success?)
      && (r.Success? ==> r.value.Some?)
      && (r.Failure? ==> r.error == atts.error)
  {
    if !payload.Obj? then Failure(AttributeError("get"))
    else if TypeRejected(payload.fields) then Success(None)
    else
      var p := Body(payload.fields);
      if !ConfigUsable(config) then Failure(AttributeError("get"))
      else if MentionRejected(p, config) then Success(None)
      else
        var atts :- AttachmentsOf(FirstNonEmpty(p, FilePaths));
        Success(Some(MessageOf(p, atts)))
  }

  /** Fields come from the `payload` key when it is truthy, else from `data`, else from the payload itself. */
  lemma BodyChoice(payload: map<string, Json>)
    ensures "payload" in payload && Truthy(payload["payload"]) ==> Body(payload) == payload["payload"]
    ensures !("payload" in payload && Truthy(payload["payload"])) && "data" in payload && Truthy(payload["data"]) ==>
      Body(payload) == payload["data"]
    ensures !("payload" in payload && Truthy(payload["payload"])) && !("data" in payload && Truthy(payload["data"])) ==>
      Body(payload) == Obj(payload)
  {
  }
}
