/**
 * `TailchatAstrMessageEvent.send` of the standalone adapter
 * (tailchat_adapter/event.py): the text pieces of an outgoing chain, their
 * join into one message that is never empty, the reply reference, and the
 * hand-over to the client's `send_message` (through the platform's
 * `send_text`). The framework's own `send` that follows is not modelled.
 */
module Event {
  import opened Wrappers
  import opened JsonModel
  import opened ParseTypes
  import opened Platform
  import Text
  import StandaloneApi

  /** The zero-width space sent in place of an empty text. */
  const ZeroWidthSpace: string := "\U{200B}"

  /** `reply_to`: None without a reply, else a dict of the reply's three fields. */
  function ReplyTo(m: IncomingMessage): Json {
    if m.reply.None? then Null
    else Obj(map["message_id" := m.reply.value.messageId, "author_id" := m.reply.value.authorId,
                 "content" := m.reply.value.content])
  }

  /** The `out_text` list: the text of each Plain segment and the truthy file of each Image, in order. */
  function Pieces(chain: seq<Segment>): seq<Json>
    decreases |chain|
  {
    if chain == [] then []
    else
      var seg := chain[|chain| - 1];
      Pieces(chain[..|chain| - 1]) +
        (match seg
         case Plain(t) => [Str(t)]
         case Image(f) => if Truthy(f) then [f] else []
         case Other => [])
  }

  /** The loop over the chain that fills `out_text`. */
  method CollectPieces(chain: seq<Segment>) returns (out: seq<Json>)
    ensures out == Pieces(chain)
  {
    out := [];
    var i := 0;
    while i < |chain|
      invariant 0 <= i <= |chain|
      invariant out == Pieces(chain[..i])
    {
      assert chain[..i + 1][..i] == chain[..i];
      match chain[i] {
        case Plain(t) =>
          out := out + [Str(t)];
        case Image(f) =>
          if Truthy(f) {
            out := out + [f];
          }
        case Other =>
      }
      i := i + 1;
    }
    assert chain[..i] == chain;
  }

  /** The pieces of two chains in a row are the pieces of the first followed by those of the second. */
  lemma {:induction false} PiecesAppend(a: seq<Segment>, b: seq<Segment>)
    ensures Pieces(a + b) == Pieces(a) + Pieces(b)
    decreases |b|
  {
    if b != [] {
      var init := b[..|b| - 1];
      assert (a + b)[..|a + b| - 1] == a + init;
      assert (a + b)[|a + b| - 1] == b[|b| - 1];
      PiecesAppend(a, init);
    } else {
      assert a + b == a;
    }
  }

  /** `piece` is what `seg` adds to `out_text`. */
  predicate Contributes(seg: Segment, piece: Json) {
    || (seg.Plain? && piece == Str(seg.text))
    || (seg.Image? && piece == seg.file && Truthy(piece))
  }

  /** Every piece comes from a segment of the chain: a Plain segment's text or an Image segment's truthy file. */
  lemma {:induction false} PiecesFromSegments(chain: seq<Segment>, j: nat)
    requires j < |Pieces(chain)|
    ensures exists i :: 0 <= i < |chain| && Contributes(chain[i], Pieces(chain)[j])
    decreases |chain|
  {
    var init := chain[..|chain| - 1];
    if j < |Pieces(init)| {
      PiecesFromSegments(init, j);
      var i :| 0 <= i < |init| && Contributes(init[i], Pieces(init)[j]);
      assert chain[i] == init[i];
    } else {
      assert Contributes(chain[|chain| - 1], Pieces(chain)[j]);
    }
  }

  /** Conversely, every Plain segment's text and every truthy Image file is among the pieces. */
  lemma {:induction false} SegmentsContribute(chain: seq<Segment>, i: nat)
    requires i < |chain| && (chain[i].Plain? || (chain[i].Image? && Truthy(chain[i].file)))
    ensures exists j :: 0 <= j < |Pieces(chain)| && Contributes(chain[i], Pieces(chain)[j])
    decreases |chain|
  {
    var init := chain[..|chain| - 1];
    if i < |init| {
      SegmentsContribute(init, i);
      var j :| 0 <= j < |Pieces(init)| && Contributes(init[i], Pieces(init)[j]);
      assert Pieces(chain)[j] == Pieces(init)[j];
    } else {
      assert Contributes(chain[i], Pieces(chain)[|Pieces(init)|]);
    }
  }

  /** `[t for t in out_text if t]`. */
  function Kept(pieces: seq<Json>): (r: seq<Json>)
    ensures forall k :: 0 <= k < |r| ==> Truthy(r[k])
    ensures |r| <= |pieces|
    decreases |pieces|
  {
    if pieces == [] then []
    else Kept(pieces[..|pieces| - 1]) + (if Truthy(pieces[|pieces| - 1]) then [pieces[|pieces| - 1]] else [])
  }

  predicate AllStrings(xs: seq<Json>) {
    forall k :: 0 <= k < |xs| ==> xs[k].Str?
  }

  /** The strings of a list, or the TypeError `str.join` raises at the first item that is not one. */
  function Strings(xs: seq<Json>): (r: Result<seq<string>>)
    ensures r.Success? <==> AllStrings(xs)
    ensures r.Success? ==> |r.value| == |xs| && forall k :: 0 <= k < |xs| ==> xs[k] == Str(r.value[k])
    decreases |xs|
  {
    if xs == [] then Success([])
    else
      var init :- Strings(xs[..|xs| - 1]);
      var last := xs[|xs| - 1];
      if last.Str? then Success(init + [last.s]) else Failure(TypeError("sequence item: expected str instance"))
  }

  /** `"\n".join(kept).strip()`, replaced by the zero-width space when that is empty. */
  function OutText(pieces: seq<Json>): (r: Result<string>)
    ensures r.Success? ==> r.value != ""
    ensures r.Success? <==> AllStrings(Kept(pieces))
  {
    var kept := Kept(pieces);
    var strs := Strings(kept);
    if strs.Failure? then Failure(strs.error)
    else
      var text := Text.Strip(Text.Join(strs.value, "\n"));
      Success(if text == "" then ZeroWidthSpace else text)
  }

  /** The sent text is the zero-width space, or a text with no whitespace at either end. */
  lemma OutTextTrimmed(pieces: seq<Json>)
    requires OutText(pieces).Success?
    ensures var t := OutText(pieces).value;
      t == ZeroWidthSpace || (!Text.IsSpace(t[0]) && !Text.IsSpace(t[|t| - 1]))
  {
    var strs := Strings(Kept(pieces)).value;
    Text.StripShape(Text.Join(strs, "\n"));
  }

  /** A chain that contributes no text, the empty chain included, is sent as the zero-width space. */
  lemma {:induction false} NoTextSendsZeroWidthSpace(pieces: seq<Json>)
    requires forall k :: 0 <= k < |pieces| ==> !Truthy(pieces[k])
    ensures OutText(pieces) == Success(ZeroWidthSpace)
  {
    NothingKept(pieces);
  }

  lemma {:induction false} NothingKept(pieces: seq<Json>)
    requires forall k :: 0 <= k < |pieces| ==> !Truthy(pieces[k])
    ensures Kept(pieces) == []
    decreases |pieces|
  {
    if pieces != [] {
      NothingKept(pieces[..|pieces| - 1]);
    }
  }

  /** What `send` hands to `send_text`: the incoming message's group and converse, the text and the reply. */
  datatype SendText = SendText(groupId: Json, converseId: Json, text: string, replyTo: Json)

  function SendCall(m: IncomingMessage, chain: seq<Segment>): Result<SendText> {
    var text :- OutText(Pieces(chain));
    Success(SendText(m.groupId, m.converseId, text, ReplyTo(m)))
  }

  /** The call goes to the incoming message's group and converse, with a non-empty text, and a reply reference
      exactly when the incoming message has a reply. */
  lemma SendCallTarget(m: IncomingMessage, chain: seq<Segment>)
    requires SendCall(m, chain).Success?
    ensures var call := SendCall(m, chain).value;
      && call.groupId == m.groupId && call.converseId == m.converseId && call.text != ""
      && (call.replyTo == Null <==> m.reply.None?)
  {
  }

  /** A reply of the incoming message with a truthy id reaches the client's body as `meta.reply`, with its id, its
      author (or "") and its content (or ""), and the author mentioned when truthy. */
  lemma ReplyCarried(m: IncomingMessage, content: string)
    requires m.reply.Some? && Truthy(m.reply.value.messageId)
    ensures var r := m.reply.value;
      var p := StandaloneApi.MessagePayload(m.groupId, m.converseId, content, ReplyTo(m));
      && p.Success?
      && p.value.fields["meta"] == Obj(map[
           "mentions" := Arr(if Truthy(r.authorId) then [r.authorId] else []),
           "reply" := Obj(map["_id" := r.messageId, "author" := Or(r.authorId, Str("")), "content" := Or(r.content, Str(""))])])
  {
    var reply := ReplyTo(m);
    assert "message_id" in reply.fields && Get(reply.fields, "message_id", Null) == m.reply.value.messageId;
  }

  /** A single Plain segment is sent as its text stripped, or as the zero-width space when nothing is left. */
  lemma OnePlain(t: string)
    ensures var stripped := Text.Strip(t);
      OutText(Pieces([Plain(t)])) == Success(if stripped == "" then ZeroWidthSpace else stripped)
  {
    var chain := [Plain(t)];
    assert chain[..|chain| - 1] == [];
    var xs := [Str(t)];
    assert Pieces(chain) == xs;
    assert xs[..|xs| - 1] == [];
    if t != "" {
      assert Kept(xs) == xs;
      assert Strings(xs[..|xs| - 1]) == Success([]);
      assert [] + [t] == [t];
      assert Strings(xs) == Success([t]);
      assert Text.Join([t], "\n") == t;
    } else {
      assert Kept(xs) == [];
      assert Text.Strip("") == "";
    }
  }

  /** The text-only chain that `convert_message` builds for an incoming message without attachments is sent
      back as that text stripped, or as the zero-width space when nothing is left. */
  lemma EchoOfText(m: IncomingMessage, raw: Json)
    requires m.attachments == []
    ensures var stripped := Text.Strip(m.text);
      OutText(Pieces(ConvertSpec(m, raw).message)) == Success(if stripped == "" then ZeroWidthSpace else stripped)
  {
    var chain := ConvertSpec(m, raw).message;
    assert AttachmentChain(m.attachments) == [];
    if m.text != "" {
      assert chain == [Plain(m.text)];
      OnePlain(m.text);
    } else {
      assert chain == [];
      assert Text.Strip("") == "";
    }
  }

  /** `send(message)`: the pieces, the text, and the client's `send_message` with the incoming message's group
      and converse and the reply reference. A chain whose text cannot be joined raises before anything is sent. */
  method Send(api: StandaloneApi.Client, m: IncomingMessage, chain: seq<Segment>) returns (r: Result<Json>)
    modifies api, api.http
    ensures SendCall(m, chain).Failure? ==> r == Failure(SendCall(m, chain).error) && api.State() == old(api.State())
    ensures SendCall(m, chain).Success? ==>
      var call := SendCall(m, chain).value;
      (api.State(), r) == StandaloneApi.SendSpec(api.config, api.md5, old(api.State()), call.groupId, call.converseId, call.text, call.replyTo)
  {
    var replyTo := ReplyTo(m);
    var out := CollectPieces(chain);
    var text := OutText(out);
    if text.Failure? {
      return Failure(text.error);
    }
    r := api.SendMessage(m.groupId, m.converseId, text.value, replyTo);
  }
}
