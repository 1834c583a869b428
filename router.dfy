/**
 * `TailchatMessageRouter`: a converted message is routed by its metadata
 * `bot_key` either to the AstrBot message handler ("profile" mode) or to an
 * HTTP backend ("backend" mode), and whatever reply comes back is sent
 * through the bot's adapter. The handler's result and the backend's response
 * are parameters; the model computes the metadata the message ends with, the
 * backend request made, and the ordered texts handed to `send_text`.
 */
module Router {
  import opened Wrappers
  import opened JsonModel
  import opened TailchatTypes
  import Text
  import opened Http

  /** `AstrBotRouteConfig`. */
  datatype RouteConfig = RouteConfig(mode: Json, profileId: Json, backendUrl: Json)

  /** The router's maps: the bot keys that have an adapter, the route per bot key, and whether a message
      handler is installed. */
  datatype Router = Router(adapters: set<Json>, routes: map<Json, RouteConfig>, hasHandler: bool)

  /** What routing one message did: the message's metadata afterwards, whether the handler was called, the
      backend request (endpoint and body) if one was made, and the texts sent, in order. */
  datatype Routed = Routed(metadata: map<string, Json>, handled: bool, posted: Option<(string, Json)>, sends: seq<string>)

  const IngestSuffix: string := "/api/tailchat/ingest"

  /** The strings a handler or backend result sends: a non-empty string once, the string items of a list in
      order; anything else nothing. */
  function Replies(result: Json): (texts: seq<string>)
    ensures !Truthy(result) ==> texts == []
    ensures result.Str? && result.s != "" ==> texts == [result.s]
    ensures !result.Str? && !result.Arr? ==> texts == []
  {
    if !Truthy(result) then []
    else if result.Str? then [result.s]
    else if result.Arr? then StringItems(result.items)
    else []
  }

  /** The string items of a list, in order. */
  function StringItems(items: seq<Json>): seq<string>
    decreases |items|
  {
    if items == [] then []
    else StringItems(items[..|items| - 1]) + (if items[|items| - 1].Str? then [items[|items| - 1].s] else [])
  }

  /** Exactly the string items are sent, each as often as it occurs, with nothing added. */
  lemma {:induction false} StringItemsCount(items: seq<Json>, s: string)
    ensures multiset(StringItems(items))[s] == multiset(items)[Str(s)]
    decreases |items|
  {
    if items != [] {
      var init := items[..|items| - 1];
      StringItemsCount(init, s);
      assert items == init + [items[|items| - 1]];
    }
  }

  /** A list of strings is sent item by item. */
  lemma {:induction false} StringItemsOfStrings(items: seq<Json>)
    requires forall i :: 0 <= i < |items| ==> items[i].Str?
    ensures |StringItems(items)| == |items|
    ensures forall i :: 0 <= i < |items| ==> StringItems(items)[i] == items[i].s
    decreases |items|
  {
    if items != [] {
      StringItemsOfStrings(items[..|items| - 1]);
    }
  }

  /** `_send_reply_if_present`: nothing for a falsy result or when the bot key has no adapter. */
  function ReplySends(router: Router, metadata: map<string, Json>, result: Json): seq<string> {
    if !Truthy(result) || Get(metadata, "bot_key", Str("")) !in router.adapters then [] else Replies(result)
  }

  /** The loop of `_send_reply_if_present` over a list result: one send per string item. */
  method SendListItems(items: seq<Json>) returns (sends: seq<string>)
    ensures sends == StringItems(items)
  {
    sends := [];
    var i := 0;
    while i < |items|
      invariant 0 <= i <= |items|
      invariant sends == StringItems(items[..i])
    {
      assert items[..i + 1][..i] == items[..i];
      if items[i].Str? {
        sends := sends + [items[i].s];
      }
      i := i + 1;
    }
    assert items[..|items|] == items;
  }

  method SendReplyIfPresent(router: Router, metadata: map<string, Json>, result: Json) returns (sends: seq<string>)
    ensures sends == ReplySends(router, metadata, result)
  {
    if !Truthy(result) {
      return [];
    }
    if Get(metadata, "bot_key", Str("")) !in router.adapters {
      return [];
    }
    if result.Str? {
      return [result.s];
    }
    sends := [];
    if result.Arr? {
      sends := SendListItems(result.items);
    }
  }

  function AttachmentDict(a: Attachment): Json {
    Obj(map["name" := Str(a.name), "mime" := a.mime, "size_bytes" := a.sizeBytes, "url" := a.url,
            "file_id" := a.fileId])
  }

  function ReplyDict(r: ReplyInfo): Json {
    Obj(map["message_id" := r.messageId, "author_id" := r.authorId, "author_name" := r.authorName,
            "content" := r.content])
  }

  /** The JSON body posted to the backend. */
  function BackendPayload(m: IncomingMessage): (p: Json)
    ensures p.Obj? && p.fields.Keys == {"text", "attachments", "session_key", "metadata", "reply"}
    ensures p.fields["text"] == Str(m.text) && p.fields["session_key"] == Str(m.sessionKey)
    ensures p.fields["metadata"] == Obj(m.metadata)
    ensures p.fields["reply"] == (if m.reply.Some? then ReplyDict(m.reply.value) else Null)
    ensures p.fields["attachments"].Arr? && |p.fields["attachments"].items| == |m.attachments|
  {
    Obj(map["text" := Str(m.text),
            "attachments" := Arr(seq(|m.attachments|, i requires 0 <= i < |m.attachments| => AttachmentDict(m.attachments[i]))),
            "session_key" := Str(m.sessionKey),
            "metadata" := Obj(m.metadata),
            "reply" := if m.reply.Some? then ReplyDict(m.reply.value) else Null])
  }

  /** The backend endpoint: the url without trailing slashes, then `/api/tailchat/ingest`. */
  function Endpoint(backendUrl: string): (e: string)
    ensures Text.EndsWith(e, IngestSuffix)
    ensures var base := e[..|e| - |IngestSuffix|]; Text.StartsWith(backendUrl, base) && (base == [] || base[|base| - 1] != '/')
    ensures forall i :: |e| - |IngestSuffix| <= i < |backendUrl| ==> backendUrl[i] == '/'
  {
    Text.RStripCharShape(backendUrl, '/');
    var e := Text.RStripChar(backendUrl, '/') + IngestSuffix;
    assert e[..|e| - |IngestSuffix|] == Text.RStripChar(backendUrl, '/');
    assert e[|e| - |IngestSuffix|..] == IngestSuffix;
    e
  }

  /** The backend's reply text: `text_reply`, falling back to `text`; a failed or non-2xx call gives none,
      an empty body is `{}`, and a body that is not JSON or not a dict raises. */
  function BackendReply(response: HttpResponse): Result<Json> {
    match response
    case TransportFailed => Success(Null)
    case Response(status, body) =>
      if !(200 <= status < 300) then Success(Null)
      else
        match body
        case Empty => Success(Null)
        case Invalid => Failure(JsonDecodeError)
        case Parsed(data) =>
          if !data.Obj? then Failure(AttributeError("get"))
          else Success(Or(Get(data.fields, "text_reply", Null), Get(data.fields, "text", Null)))
  }

  /** `_route_backend`. */
  function RouteBackend(router: Router, m: IncomingMessage, route: RouteConfig, response: HttpResponse): Result<Routed> {
    if !Truthy(route.backendUrl) then Success(Routed(m.metadata, false, None, []))
    else if !route.backendUrl.Str? then Failure(AttributeError("rstrip"))
    else
      var posted := Some((Endpoint(route.backendUrl.s), BackendPayload(m)));
      var reply :- BackendReply(response);
      Success(Routed(m.metadata, false, posted, ReplySends(router, m.metadata, reply)))
  }

  /** `_route_profile`: the profile id goes into the metadata if set; without a handler nothing is sent. */
  function RouteProfile(router: Router, m: IncomingMessage, route: RouteConfig, handlerResult: Json): Routed {
    var metadata := if Truthy(route.profileId) then m.metadata["astrbot_profile_id" := route.profileId] else m.metadata;
    if !router.hasHandler then Routed(metadata, false, None, [])
    else Routed(metadata, true, None, ReplySends(router, metadata, handlerResult))
  }

  /** `route_incoming`: a message without a truthy bot key, or whose key has no route, goes nowhere; "backend"
      selects the backend and every other mode the profile route. */
  function RouteIncoming(router: Router, m: IncomingMessage, handlerResult: Json, response: HttpResponse): Result<Routed> {
    var botKey := Get(m.metadata, "bot_key", Null);
    if !Truthy(botKey) then Success(Routed(m.metadata, false, None, []))
    else if !Hashable(botKey) then Failure(TypeError("unhashable type"))
    else if botKey !in router.routes then Success(Routed(m.metadata, false, None, []))
    else
      var route := router.routes[botKey];
      if route.mode == Str("backend") then RouteBackend(router, m, route, response)
      else Success(RouteProfile(router, m, route, handlerResult))
  }

  /** Without a truthy bot key or a route for it, nothing happens at all. */
  lemma UnroutedDoesNothing(router: Router, m: IncomingMessage, handlerResult: Json, response: HttpResponse)
    requires !Truthy(Get(m.metadata, "bot_key", Null)) || Get(m.metadata, "bot_key", Null) !in router.routes
    requires Hashable(Get(m.metadata, "bot_key", Null))
    ensures RouteIncoming(router, m, handlerResult, response) == Success(Routed(m.metadata, false, None, []))
  {
  }

  /** The mode decides the route: "backend" never calls the handler, and every other mode never posts. */
  lemma ModeSelectsRoute(router: Router, m: IncomingMessage, handlerResult: Json, response: HttpResponse)
    requires RouteIncoming(router, m, handlerResult, response).Success?
    ensures var r := RouteIncoming(router, m, handlerResult, response).value;
      var k := Get(m.metadata, "bot_key", Null);
      && (r.handled ==> k in router.routes && router.routes[k].mode != Str("backend") && router.hasHandler)
      && (r.posted.Some? ==> k in router.routes && router.routes[k].mode == Str("backend"))
      && (r.sends != [] ==> r.handled || r.posted.Some?)
  {
  }

  /** Profile mode records a truthy profile id and otherwise leaves the metadata as it was; with a handler,
      the handler's result is what gets sent. */
  lemma ProfileRoute(router: Router, m: IncomingMessage, handlerResult: Json, response: HttpResponse)
    requires var k := Get(m.metadata, "bot_key", Null);
      Truthy(k) && Hashable(k) && k in router.routes && router.routes[k].mode != Str("backend")
    ensures var r := RouteIncoming(router, m, handlerResult, response);
      var route := router.routes[Get(m.metadata, "bot_key", Null)];
      && r.Success?
      && (Truthy(route.profileId) ==> r.value.metadata == m.metadata["astrbot_profile_id" := route.profileId])
      && (!Truthy(route.profileId) ==> r.value.metadata == m.metadata)
      && r.value.handled == router.hasHandler
      && (router.hasHandler && Get(m.metadata, "bot_key", Null) in router.adapters ==> r.value.sends == Replies(handlerResult))
  {
    var route := router.routes[Get(m.metadata, "bot_key", Null)];
    if Truthy(route.profileId) {
      var md := m.metadata["astrbot_profile_id" := route.profileId];
      assert Get(md, "bot_key", Str("")) == Get(m.metadata, "bot_key", Null);
    }
  }

  /** Backend mode posts exactly when the backend url is set (to the url's ingest endpoint); a failed or
      non-2xx call then sends nothing. */
  lemma BackendRoute(router: Router, m: IncomingMessage, handlerResult: Json, response: HttpResponse)
    requires var k := Get(m.metadata, "bot_key", Null);
      Truthy(k) && Hashable(k) && k in router.routes && router.routes[k].mode == Str("backend")
    requires RouteIncoming(router, m, handlerResult, response).Success?
    ensures var r := RouteIncoming(router, m, handlerResult, response).value;
      var route := router.routes[Get(m.metadata, "bot_key", Null)];
      && r.metadata == m.metadata && !r.handled
      && (r.posted.Some? <==> Truthy(route.backendUrl))
      && (r.posted.Some? ==> r.posted.value == (Endpoint(route.backendUrl.s), BackendPayload(m)))
      && (response.TransportFailed? || (response.Response? && !(200 <= response.status < 300)) ==> r.sends == [])
  {
  }
}
