/**
 * The synchronous `TailchatAPI` client, of which the code holds two copies:
 * the multi-robot plugin's (plugins/tailchat/tailchat/tailchat_api.py), which
 * takes full paths and repairs a missing leading '/', and the adapter's
 * (plugins/tailchat_adapter/tailchat_adapter/tailchat_api.py), which puts
 * every path after an OpenAPI base and names the reply id `messageId`. The
 * rest of the two files is the same code: the login, `_post` with its one
 * re-login and retry, `resolve_file_url` and the size-capped download.
 * The md5 digest of the login token is a parameter; the network is a script
 * of responses (see Http).
 */
module TailchatApi {
  import opened Wrappers
  import opened JsonModel
  import opened Paths
  import opened Http
  import opened TailchatTypes
  import Text
  import TailchatUtils
  import AdapterUtils
  import Adapter
  import PluginConfig

  /** Which copy of the client: full paths (the multi-robot plugin) or paths under the OpenAPI base (the adapter). */
  datatype Variant = FullPath | UnderBase

  /** The client's settings after `__init__`: host and OpenAPI base with trailing '/' removed. */
  datatype ApiConfig = ApiConfig(
    variant: Variant,
    host: string,
    openapiBase: string,
    appId: Json,
    appSecret: Json,
    loginPath: Json,
    sendMessagePath: Json,
    fileUrlPath: Json,
    uploadPath: Json)

  /** The default paths of the full-path copy. */
  const LoginPath: string := "/api/openapi/bot/login"
  const SendMessagePath: string := "/api/chat/message/sendMessage"
  const FileUrlPath: string := "/api/openapi/bot/file"
  const UploadPath: string := "/api/openapi/bot/upload"

  /** Where `login` looks for the token, and `resolve_file_url` for the url. */
  const TokenPaths: seq<string> := ["data.token", "data.jwt", "token", "jwt"]
  const FileUrlPaths: seq<string> := ["data.url", "url", "data.downloadUrl"]

  /** A string without a trailing '/'. */
  predicate NoTrailingSlash(s: string) {
    s == [] || s[|s| - 1] != '/'
  }

  /** `s.rstrip("/")`, which only a string has. */
  function StripSlashes(v: Json): (r: Result<string>)
    ensures r.Success? <==> v.Str?
    ensures r.Success? ==> NoTrailingSlash(r.value) && Text.StartsWith(v.s, r.value)
    ensures r.Success? ==> forall i :: |r.value| <= i < |v.s| ==> v.s[i] == '/'
  {
    if !v.Str? then Failure(AttributeError("rstrip"))
    else
      Text.RStripCharShape(v.s, '/');
      Success(Text.RStripChar(v.s, '/'))
  }

  /** `__init__` of the full-path copy. */
  function FullPathConfig(host: Json, appId: Json, appSecret: Json, loginPath: Json, sendMessagePath: Json,
                          fileUrlPath: Json, uploadPath: Json): (r: Result<ApiConfig>)
    ensures r.Success? <==> host.Str?
    ensures r.Success? ==> r.value.variant == FullPath && NoTrailingSlash(r.value.host)
  {
    var h :- StripSlashes(host);
    Success(ApiConfig(FullPath, h, "", appId, appSecret, loginPath, sendMessagePath, fileUrlPath, uploadPath))
  }

  /** `__init__` of the adapter's copy: the OpenAPI base is stripped too. */
  function UnderBaseConfig(host: Json, appId: Json, appSecret: Json, openapiBase: Json, loginPath: Json,
                           sendMessagePath: Json, fileUrlPath: Json, uploadPath: Json): (r: Result<ApiConfig>)
    ensures r.Success? <==> host.Str? && openapiBase.Str?
    ensures r.Success? ==> r.value.variant == UnderBase && NoTrailingSlash(r.value.host) && NoTrailingSlash(r.value.openapiBase)
  {
    var h :- StripSlashes(host);
    var b :- StripSlashes(openapiBase);
    Success(ApiConfig(UnderBase, h, b, appId, appSecret, loginPath, sendMessagePath, fileUrlPath, uploadPath))
  }

  /** The client an adapter of the multi-bot plugin creates from its configuration. */
  function ApiOf(a: Adapter.AdapterConfig): Result<ApiConfig> {
    UnderBaseConfig(a.host, a.appId, a.appSecret, a.openapiBase, a.loginPath, a.sendMessagePath, a.fileUrlPath, a.uploadPath)
  }

  /** The plugin's test before it builds adapters is exactly the condition under which each adapter's client can
      be created. */
  lemma ApiBuildsIsConstructible(bot: PluginConfig.BotConfig)
    ensures PluginConfig.ApiBuilds(bot) <==> ApiOf(PluginConfig.AdapterOf(bot)).Success?
  {
  }

  /** `_build_url`: the full-path copy needs a string path and adds a missing leading '/'; the adapter's copy
      formats any path after the base, with no repair. */
  function BuildUrl(c: ApiConfig, path: Json): Result<string> {
    match c.variant
    case FullPath =>
      if !path.Str? then Failure(AttributeError("startswith"))
      else Success(c.host + (if Text.StartsWith(path.s, "/") then path.s else "/" + path.s))
    case UnderBase => Success(c.host + c.openapiBase + PyStr(path))
  }

  /** In the full-path copy the host is followed by exactly one added or kept '/', then the path. */
  lemma FullPathUrl(c: ApiConfig, path: string)
    requires c.variant == FullPath
    ensures BuildUrl(c, Str(path)).Success?
    ensures var u := BuildUrl(c, Str(path)).value;
      && Text.StartsWith(u, c.host) && |u| > |c.host| && u[|c.host|] == '/'
      && Text.EndsWith(u, path)
      && (Text.StartsWith(path, "/") ==> u == c.host + path)
      && (!Text.StartsWith(path, "/") ==> |u| == |c.host| + |path| + 1)
  {
    var u := BuildUrl(c, Str(path)).value;
    if Text.StartsWith(path, "/") {
      assert u == c.host + path;
    } else {
      assert u == c.host + "/" + path;
      assert u[|u| - |path|..] == path;
    }
  }

  /** In the adapter's copy a path without a leading '/' is glued to the base as it is. */
  lemma UnderBaseUrl(c: ApiConfig, path: string)
    requires c.variant == UnderBase
    ensures BuildUrl(c, Str(path)) == Success(c.host + c.openapiBase + path)
  {
  }

  /** `login`: one POST without a token header, then the first present candidate of `tokenPaths` (the client
      passes TokenPaths), which must be truthy and becomes the held token. */
  function LoginSpec(c: ApiConfig, md5: string -> string, tokenPaths: seq<string>, s: Session): (Session, Result<Json>) {
    var url := BuildUrl(c, c.loginPath);
    if url.Failure? then (s, Failure(url.error))
    else
      var sent := Send(s, Post(url.value, None, LoginPayload(c.appId, c.appSecret, md5)));
      var data := JsonAnswer(sent.1);
      if data.Failure? then (sent.0, Failure(data.error))
      else
        var tok := FirstOr(data.value, tokenPaths, Null);
        if !Truthy(tok) then (sent.0, Failure(RuntimeError("Unable to parse login token")))
        else (sent.0.(token := tok), Success(tok))
  }

  /** A login makes at most one exchange, a POST without a token header carrying LoginPayload. It succeeds exactly
      when that POST is answered with JSON whose first present token candidate is truthy; then that value is
      returned and held, and otherwise the held token is unchanged. */
  lemma LoginOutcome(c: ApiConfig, md5: string -> string, tokenPaths: seq<string>, s: Session)
    ensures var r := LoginSpec(c, md5, tokenPaths, s);
      && (BuildUrl(c, c.loginPath).Failure? ==> r == (s, Failure(BuildUrl(c, c.loginPath).error)))
      && (BuildUrl(c, c.loginPath).Success? ==>
            && |r.0.log| == |s.log| + 1 && r.0.log[..|s.log|] == s.log
            && r.0.log[|s.log|].post == Post(BuildUrl(c, c.loginPath).value, None, LoginPayload(c.appId, c.appSecret, md5)))
      && (r.1.Success? <==>
            && |r.0.log| == |s.log| + 1
            && JsonAnswer(r.0.log[|s.log|].response).Success?
            && Truthy(FirstOr(JsonAnswer(r.0.log[|s.log|].response).value, tokenPaths, Null)))
      && (r.1.Success? ==>
            r.1.value == FirstOr(JsonAnswer(r.0.log[|s.log|].response).value, tokenPaths, Null) && r.0.token == r.1.value)
      && (r.1.Failure? ==> r.0.token == s.token)
  {
    var url := BuildUrl(c, c.loginPath);
    if url.Success? {
      var sent := Send(s, Post(url.value, None, LoginPayload(c.appId, c.appSecret, md5)));
      assert sent.0.log[|s.log|] == Exchange(Post(url.value, None, LoginPayload(c.appId, c.appSecret, md5)), sent.1);
    }
  }

  /** The re-login and the one retry after a 401 or 403. */
  function RetrySpec(c: ApiConfig, md5: string -> string, tokenPaths: seq<string>, s: Session, url: string, payload: Json): (Session, Result<Json>) {
    var login := LoginSpec(c, md5, tokenPaths, s);
    if login.1.Failure? then (login.0, Failure(login.1.error))
    else
      var sent := Send(login.0, Post(url, TokenHeader(login.0), payload));
      (sent.0, JsonAnswer(sent.1))
  }

  /** The request with the held token, and what follows its answer: a 401 or 403 leads to the retry, any other
      answer is final. */
  function RequestSpec(c: ApiConfig, md5: string -> string, tokenPaths: seq<string>, s: Session, url: string, payload: Json): (Session, Result<Json>) {
    var sent := Send(s, Post(url, TokenHeader(s), payload));
    match sent.1
    case TransportFailed => (sent.0, Failure(TransportError))
    case Response(status, body) =>
      if status == 401 || status == 403 then RetrySpec(c, md5, tokenPaths, sent.0, url, payload)
      else (sent.0, JsonOf(status, body))
  }

  /** `_post(path, payload)`: log in when no token is held, then the request and its one possible retry. */
  function PostSpec(c: ApiConfig, md5: string -> string, tokenPaths: seq<string>, s: Session, path: Json, payload: Json): (Session, Result<Json>) {
    var first := if Truthy(s.token) then (s, Success(s.token)) else LoginSpec(c, md5, tokenPaths, s);
    if first.1.Failure? then (first.0, Failure(first.1.error))
    else
      var url := BuildUrl(c, path);
      if url.Failure? then (first.0, Failure(url.error))
      else RequestSpec(c, md5, tokenPaths, first.0, url.value, payload)
  }

  /** A login adds at most one exchange, and it is not a request. */
  lemma LoginAddsNoRequest(c: ApiConfig, md5: string -> string, tokenPaths: seq<string>, s: Session)
    ensures var t := LoginSpec(c, md5, tokenPaths, s).0;
      Extends(s, t) && |t.log| <= |s.log| + 1 && Requests(t.log) == Requests(s.log)
  {
    var url := BuildUrl(c, c.loginPath);
    if url.Success? {
      var t := LoginSpec(c, md5, tokenPaths, s).0;
      assert t.log[..|t.log| - 1] == s.log;
    }
  }

  /** The retry adds a login and at most one request. */
  lemma RetryBound(c: ApiConfig, md5: string -> string, tokenPaths: seq<string>, s: Session, url: string, payload: Json)
    ensures var t := RetrySpec(c, md5, tokenPaths, s, url, payload).0;
      Extends(s, t) && |t.log| <= |s.log| + 2 && Requests(t.log) <= Requests(s.log) + 1
  {
    var login := LoginSpec(c, md5, tokenPaths, s);
    LoginAddsNoRequest(c, md5, tokenPaths, s);
    if login.1.Success? {
      var p := Post(url, TokenHeader(login.0), payload);
      SendAddsOne(login.0, p);
      ExtendsTrans(s, login.0, Send(login.0, p).0);
    }
  }

  /** The request and its retry add one to three exchanges, of which at most two are requests. */
  lemma RequestBound(c: ApiConfig, md5: string -> string, tokenPaths: seq<string>, s: Session, url: string, payload: Json)
    ensures var t := RequestSpec(c, md5, tokenPaths, s, url, payload).0;
      Extends(s, t) && |s.log| < |t.log| <= |s.log| + 3 && Requests(t.log) <= Requests(s.log) + 2
  {
    var p := Post(url, TokenHeader(s), payload);
    var sent := Send(s, p);
    SendAddsOne(s, p);
    if sent.1.Response? && (sent.1.status == 401 || sent.1.status == 403) {
      RetryBound(c, md5, tokenPaths, sent.0, url, payload);
      ExtendsTrans(s, sent.0, RetrySpec(c, md5, tokenPaths, sent.0, url, payload).0);
    }
  }

  /** `_post` makes at most four POSTs, of which at most two are requests: there is never a third request. */
  lemma AtMostTwoRequests(c: ApiConfig, md5: string -> string, tokenPaths: seq<string>, s: Session, path: Json, payload: Json)
    ensures var t := PostSpec(c, md5, tokenPaths, s, path, payload).0;
      Extends(s, t) && |t.log| <= |s.log| + 4 && Requests(t.log) <= Requests(s.log) + 2
  {
    var first := if Truthy(s.token) then (s, Success(s.token)) else LoginSpec(c, md5, tokenPaths, s);
    if !Truthy(s.token) {
      LoginAddsNoRequest(c, md5, tokenPaths, s);
    }
    var url := BuildUrl(c, path);
    if first.1.Success? && url.Success? {
      RequestBound(c, md5, tokenPaths, first.0, url.value, payload);
      ExtendsTrans(s, first.0, RequestSpec(c, md5, tokenPaths, first.0, url.value, payload).0);
    }
  }

  /** The last exchange of `t` is a request with `payload` answered by 2xx JSON `v`. */
  predicate AnsweredBy(t: Session, payload: Json, v: Json) {
    && |t.log| > 0
    && var last := t.log[|t.log| - 1];
    && IsRequest(last.post) && last.post.payload == payload
    && last.response.Response? && Is2xx(last.response.status) && last.response.body == Parsed(v)
  }

  lemma RequestSuccess(c: ApiConfig, md5: string -> string, tokenPaths: seq<string>, s: Session, url: string, payload: Json)
    requires RequestSpec(c, md5, tokenPaths, s, url, payload).1.Success?
    ensures AnsweredBy(RequestSpec(c, md5, tokenPaths, s, url, payload).0, payload, RequestSpec(c, md5, tokenPaths, s, url, payload).1.value)
  {
    var sent := Send(s, Post(url, TokenHeader(s), payload));
    if sent.1.Response? && (sent.1.status == 401 || sent.1.status == 403) {
      var login := LoginSpec(c, md5, tokenPaths, sent.0);
      assert login.1.Success?;
    }
  }

  /** `_post` returns only what the last request of the call got as a 2xx JSON answer: a non-2xx final status,
      like any other failure, raises. */
  lemma SuccessMeans2xx(c: ApiConfig, md5: string -> string, tokenPaths: seq<string>, s: Session, path: Json, payload: Json)
    requires PostSpec(c, md5, tokenPaths, s, path, payload).1.Success?
    ensures var r := PostSpec(c, md5, tokenPaths, s, path, payload);
      |r.0.log| > |s.log| && AnsweredBy(r.0, payload, r.1.value)
  {
    AtMostTwoRequests(c, md5, tokenPaths, s, path, payload);
    var first := if Truthy(s.token) then (s, Success(s.token)) else LoginSpec(c, md5, tokenPaths, s);
    var url := BuildUrl(c, path);
    assert first.1.Success? && url.Success?;
    if !Truthy(s.token) {
      LoginAddsNoRequest(c, md5, tokenPaths, s);
    }
    RequestBound(c, md5, tokenPaths, first.0, url.value, payload);
    RequestSuccess(c, md5, tokenPaths, first.0, url.value, payload);
  }

  /** With a token held and a first answer other than 401 or 403, `_post` makes exactly one POST, with that token,
      and returns what `raise_for_status` and `json()` make of the answer. */
  lemma NoRetryOtherwise(c: ApiConfig, md5: string -> string, tokenPaths: seq<string>, s: Session, path: Json, payload: Json)
    requires Truthy(s.token) && BuildUrl(c, path).Success? && s.script != []
    requires !(s.script[0].Response? && (s.script[0].status == 401 || s.script[0].status == 403))
    ensures PostSpec(c, md5, tokenPaths, s, path, payload) ==
      (Session(s.token, s.script[1..], s.log + [Exchange(Post(BuildUrl(c, path).value, Some(s.token), payload), s.script[0])]),
       JsonAnswer(s.script[0]))
  {
  }

  /** A login answered by 2xx JSON with a truthy token: one exchange, and the token is held. */
  lemma LoginAccepted(c: ApiConfig, md5: string -> string, tokenPaths: seq<string>, s: Session, status: int, data: Json)
    requires BuildUrl(c, c.loginPath).Success? && s.script != []
    requires s.script[0] == Response(status, Parsed(data)) && Is2xx(status) && Truthy(FirstOr(data, tokenPaths, Null))
    ensures var tok := FirstOr(data, tokenPaths, Null);
      LoginSpec(c, md5, tokenPaths, s) == (Session(tok, s.script[1..],
        s.log + [Exchange(Post(BuildUrl(c, c.loginPath).value, None, LoginPayload(c.appId, c.appSecret, md5)), s.script[0])]), Success(tok))
  {
  }

  /** The retry after a successful login: one login exchange, then one request with the new token, whose answer
      is final. */
  lemma RetryAfterLogin(c: ApiConfig, md5: string -> string, tokenPaths: seq<string>, s: Session, url: string, payload: Json, data: Json, status: int)
    requires BuildUrl(c, c.loginPath).Success? && |s.script| >= 2
    requires s.script[0] == Response(status, Parsed(data)) && Is2xx(status) && Truthy(FirstOr(data, tokenPaths, Null))
    ensures var tok := FirstOr(data, tokenPaths, Null);
      RetrySpec(c, md5, tokenPaths, s, url, payload) ==
        (Session(tok, s.script[2..], s.log + [
           Exchange(Post(BuildUrl(c, c.loginPath).value, None, LoginPayload(c.appId, c.appSecret, md5)), s.script[0]),
           Exchange(Post(url, Some(tok), payload), s.script[1])]),
         JsonAnswer(s.script[1]))
  {
    var tok := FirstOr(data, tokenPaths, Null);
    var l := Exchange(Post(BuildUrl(c, c.loginPath).value, None, LoginPayload(c.appId, c.appSecret, md5)), s.script[0]);
    var q := Exchange(Post(url, Some(tok), payload), s.script[1]);
    LoginAccepted(c, md5, tokenPaths, s, status, data);
    var s1 := LoginSpec(c, md5, tokenPaths, s).0;
    assert s1 == Session(tok, s.script[1..], s.log + [l]);
    assert s.script[1..][1..] == s.script[2..] && s.script[1..][0] == s.script[1];
    assert TokenHeader(s1) == Some(tok);
    assert s.log + [l] + [q] == s.log + [l, q];
  }

  /** With a token held, a 401 or 403 followed by a successful login gives exactly one retry with the new token,
      and its answer is final whatever it is (another 401 included). */
  lemma RetryOnce(c: ApiConfig, md5: string -> string, tokenPaths: seq<string>, s: Session, path: Json, payload: Json, data: Json, status: int)
    requires Truthy(s.token) && BuildUrl(c, path).Success? && BuildUrl(c, c.loginPath).Success?
    requires |s.script| >= 3 && s.script[0].Response? && (s.script[0].status == 401 || s.script[0].status == 403)
    requires s.script[1] == Response(status, Parsed(data)) && Is2xx(status) && Truthy(FirstOr(data, tokenPaths, Null))
    ensures var tok := FirstOr(data, tokenPaths, Null);
      var url := BuildUrl(c, path).value;
      PostSpec(c, md5, tokenPaths, s, path, payload) ==
        (Session(tok, s.script[3..], s.log + [
           Exchange(Post(url, Some(s.token), payload), s.script[0]),
           Exchange(Post(BuildUrl(c, c.loginPath).value, None, LoginPayload(c.appId, c.appSecret, md5)), s.script[1]),
           Exchange(Post(url, Some(tok), payload), s.script[2])]),
         JsonAnswer(s.script[2]))
  {
    var url := BuildUrl(c, path).value;
    var q1 := Exchange(Post(url, Some(s.token), payload), s.script[0]);
    var s1 := Session(s.token, s.script[1..], s.log + [q1]);
    PostWithToken(c, md5, tokenPaths, s, path, payload);
    AuthFailureRetries(c, md5, tokenPaths, s, url, payload);
    RetryAfterLogin(c, md5, tokenPaths, s1, url, payload, data, status);
    assert s1.script[2..] == s.script[3..] && s1.script[0] == s.script[1] && s1.script[1] == s.script[2];
    var l := Exchange(Post(BuildUrl(c, c.loginPath).value, None, LoginPayload(c.appId, c.appSecret, md5)), s.script[1]);
    var q2 := Exchange(Post(url, Some(FirstOr(data, tokenPaths, Null)), payload), s.script[2]);
    assert s1.log + [l, q2] == s.log + [q1, l, q2];
  }

  /** With a token held and a buildable path, `_post` goes straight to the request. */
  lemma PostWithToken(c: ApiConfig, md5: string -> string, tokenPaths: seq<string>, s: Session, path: Json, payload: Json)
    requires Truthy(s.token) && BuildUrl(c, path).Success?
    ensures PostSpec(c, md5, tokenPaths, s, path, payload) == RequestSpec(c, md5, tokenPaths, s, BuildUrl(c, path).value, payload)
  {
  }

  /** A 401 or 403 to the request leads to the retry, after the request is logged. */
  lemma AuthFailureRetries(c: ApiConfig, md5: string -> string, tokenPaths: seq<string>, s: Session, url: string, payload: Json)
    requires s.script != [] && s.script[0].Response? && (s.script[0].status == 401 || s.script[0].status == 403)
    ensures RequestSpec(c, md5, tokenPaths, s, url, payload) ==
      RetrySpec(c, md5, tokenPaths, Session(s.token, s.script[1..], s.log + [Exchange(Post(url, TokenHeader(s), payload), s.script[0])]), url, payload)
  {
  }

  /** Without a token, the first exchange of `_post` is a login. */
  lemma LoginFirstWithoutToken(c: ApiConfig, md5: string -> string, tokenPaths: seq<string>, s: Session, path: Json, payload: Json)
    requires !Truthy(s.token)
    ensures var t := PostSpec(c, md5, tokenPaths, s, path, payload).0;
      |t.log| > |s.log| ==> t.log[|s.log|].post == Post(BuildUrl(c, c.loginPath).value, None, LoginPayload(c.appId, c.appSecret, md5))
  {
    LoginOutcome(c, md5, tokenPaths, s);
    var first := LoginSpec(c, md5, tokenPaths, s);
    var url := BuildUrl(c, path);
    if first.1.Success? && url.Success? {
      RequestBound(c, md5, tokenPaths, first.0, url.value, payload);
      var t := RequestSpec(c, md5, tokenPaths, first.0, url.value, payload).0;
      assert t.log[|s.log|] == t.log[..|first.0.log|][|s.log|];
    }
  }

  /** The key of the reply id in `meta.reply`. */
  function ReplyIdKey(v: Variant): string {
    if v == FullPath then "_id" else "messageId"
  }

  /** The `send_message` payload: group, converse and content always; `meta.reply` only for a reply whose message id
      is truthy. */
  function SendPayload(v: Variant, groupId: Json, converseId: Json, content: string, reply: Option<ReplyInfo>): (p: Json)
    ensures p.Obj? && "groupId" in p.fields && "converseId" in p.fields && "content" in p.fields
    ensures p.fields["groupId"] == groupId && p.fields["converseId"] == converseId && p.fields["content"] == Str(content)
    ensures "meta" in p.fields <==> reply.Some? && Truthy(reply.value.messageId)
    ensures "meta" in p.fields ==> p.fields["meta"] == Obj(map["reply" := Obj(map[
      ReplyIdKey(v) := reply.value.messageId, "author" := reply.value.authorId, "content" := reply.value.content])])
    ensures p.fields.Keys <= {"groupId", "converseId", "content", "meta"}
  {
    var base := map["groupId" := groupId, "converseId" := converseId, "content" := Str(content)];
    if reply.Some? && Truthy(reply.value.messageId) then
      Obj(base["meta" := Obj(map["reply" := Obj(map[
        ReplyIdKey(v) := reply.value.messageId, "author" := reply.value.authorId, "content" := reply.value.content])])])
    else Obj(base)
  }

  /** `resolve_file_url`: nothing is asked for a falsy file id; any failure of the POST gives None; otherwise the
      first present of FileUrlPaths (possibly None) in the answer. */
  function ResolveSpec(c: ApiConfig, md5: string -> string, tokenPaths: seq<string>, s: Session, fileId: Json): (Session, Json) {
    if !Truthy(fileId) then (s, Null)
    else
      var r := PostSpec(c, md5, tokenPaths, s, c.fileUrlPath, Obj(map["fileId" := fileId]));
      if r.1.Failure? then (r.0, Null) else (r.0, FirstOr(r.1.value, FileUrlPaths, Null))
  }

  /** A falsy file id gives None without any request; a failing request gives None instead of raising. */
  lemma ResolveOutcome(c: ApiConfig, md5: string -> string, tokenPaths: seq<string>, s: Session, fileId: Json)
    ensures !Truthy(fileId) ==> ResolveSpec(c, md5, tokenPaths, s, fileId) == (s, Null)
    ensures Truthy(fileId) && PostSpec(c, md5, tokenPaths, s, c.fileUrlPath, Obj(map["fileId" := fileId])).1.Failure? ==>
      ResolveSpec(c, md5, tokenPaths, s, fileId).1 == Null
    ensures Truthy(fileId) ==> ResolveSpec(c, md5, tokenPaths, s, fileId).0 == PostSpec(c, md5, tokenPaths, s, c.fileUrlPath, Obj(map["fileId" := fileId])).0
  {
  }

  /** The streamed answer to the download's GET: a transport failure, or a status and the body's chunks. */
  datatype Stream = StreamFailed | Stream(status: int, chunks: seq<seq<bv8>>)

  /** All chunks, in order. */
  function Flatten(chunks: seq<seq<bv8>>): seq<bv8>
    decreases |chunks|
  {
    if chunks == [] then [] else chunks[0] + Flatten(chunks[1..])
  }

  /** The chunk loop from `acc` on: each chunk is appended and the running length checked against the cap. */
  function Gather(acc: seq<bv8>, chunks: seq<seq<bv8>>, maxBytes: int): Result<seq<bv8>>
    decreases |chunks|
  {
    if chunks == [] then Success(acc)
    else
      var data := acc + chunks[0];
      if |data| > maxBytes then Failure(ValueError("Attachment exceeds max size"))
      else Gather(data, chunks[1..], maxBytes)
  }

  /** The chunk loop succeeds exactly when there are no chunks or everything fits the cap, exactly `maxBytes`
      included; it then yields all chunks concatenated. */
  lemma {:induction false} GatherFits(acc: seq<bv8>, chunks: seq<seq<bv8>>, maxBytes: int)
    ensures Gather(acc, chunks, maxBytes).Success? <==> chunks == [] || |acc + Flatten(chunks)| <= maxBytes
    ensures Gather(acc, chunks, maxBytes).Success? ==> Gather(acc, chunks, maxBytes).value == acc + Flatten(chunks)
    decreases |chunks|
  {
    if chunks != [] {
      var data := acc + chunks[0];
      GatherFits(data, chunks[1..], maxBytes);
      assert data + Flatten(chunks[1..]) == acc + Flatten(chunks);
    }
  }

  /** `download_file(url, max_bytes)` on the GET's answer. */
  function DownloadSpec(stream: Stream, maxBytes: int): Result<seq<bv8>> {
    match stream
    case StreamFailed => Failure(TransportError)
    case Stream(status, chunks) => if !Is2xx(status) then Failure(HttpStatusError(status)) else Gather([], chunks, maxBytes)
  }

  /** A 2xx download returns every byte when the body fits the cap and raises ValueError otherwise. */
  lemma DownloadOutcome(status: int, chunks: seq<seq<bv8>>, maxBytes: int)
    requires Is2xx(status)
    ensures chunks == [] || |Flatten(chunks)| <= maxBytes ==> DownloadSpec(Stream(status, chunks), maxBytes) == Success(Flatten(chunks))
    ensures chunks != [] && |Flatten(chunks)| > maxBytes ==>
      DownloadSpec(Stream(status, chunks), maxBytes) == Failure(ValueError("Attachment exceeds max size"))
  {
    GatherFits([], chunks, maxBytes);
    assert [] + Flatten(chunks) == Flatten(chunks);
    if chunks != [] && |Flatten(chunks)| > maxBytes {
      GatherFails([], chunks, maxBytes);
    }
  }

  /** The only failure of the chunk loop is the size error. */
  lemma {:induction false} GatherFails(acc: seq<bv8>, chunks: seq<seq<bv8>>, maxBytes: int)
    ensures Gather(acc, chunks, maxBytes).Failure? ==> Gather(acc, chunks, maxBytes) == Failure(ValueError("Attachment exceeds max size"))
    decreases |chunks|
  {
    if chunks != [] {
      GatherFails(acc + chunks[0], chunks[1..], maxBytes);
    }
  }

  /** A `TailchatAPI` object: its settings, the md5 function, the held token and its httpx client. */
  class Client {
    const config: ApiConfig
    const md5: string -> string
    const http: Connection
    var token: Json

    function State(): Session
      reads this, http
    {
      Session(token, http.script, http.log)
    }

    constructor(config: ApiConfig, md5: string -> string, script: seq<HttpResponse>)
      ensures this.config == config && this.md5 == md5 && State() == Session(Null, script, [])
    {
      this.config := config;
      this.md5 := md5;
      token := Null;
      http := new Connection(script);
    }

    /** One POST through the client. */
    method Transmit(p: Post) returns (resp: HttpResponse)
      modifies http
      ensures (State(), resp) == Send(old(State()), p)
    {
      resp := http.Deliver(p);
    }

    /** `get_first` of the copy's own utils module. */
    method FirstOf(data: Json, paths: seq<string>) returns (r: Json)
      ensures r == FirstOr(data, paths, Null)
    {
      if config.variant == FullPath {
        r := TailchatUtils.GetFirst(data, paths, Null);
      } else {
        r := AdapterUtils.GetFirst(data, paths, Null);
      }
    }

    method Login() returns (r: Result<Json>)
      modifies this, http
      ensures (State(), r) == LoginSpec(config, md5, TokenPaths, old(State()))
    {
      var url := BuildUrl(config, config.loginPath);
      if url.Failure? {
        return Failure(url.error);
      }
      var resp := Transmit(Post(url.value, None, LoginPayload(config.appId, config.appSecret, md5)));
      var data := JsonAnswer(resp);
      if data.Failure? {
        return Failure(data.error);
      }
      var tok := FirstOf(data.value, TokenPaths);
      if !Truthy(tok) {
        return Failure(RuntimeError("Unable to parse login token"));
      }
      token := tok;
      return Success(tok);
    }

    /** `_post`. The URL is built once; the code builds it again for the retry, with the same result. */
    method PostJson(path: Json, payload: Json) returns (r: Result<Json>)
      modifies this, http
      ensures (State(), r) == PostSpec(config, md5, TokenPaths, old(State()), path, payload)
    {
      if !Truthy(token) {
        var login := Login();
        if login.Failure? {
          return Failure(login.error);
        }
      }
      var url := BuildUrl(config, path);
      if url.Failure? {
        return Failure(url.error);
      }
      var resp := Transmit(Post(url.value, TokenHeader(State()), payload));
      if resp.Response? && (resp.status == 401 || resp.status == 403) {
        var login := Login();
        if login.Failure? {
          return Failure(login.error);
        }
        resp := Transmit(Post(url.value, TokenHeader(State()), payload));
      }
      r := JsonAnswer(resp);
    }

    method SendMessage(groupId: Json, converseId: Json, content: string, reply: Option<ReplyInfo>) returns (r: Result<Json>)
      modifies this, http
      ensures (State(), r) == PostSpec(config, md5, TokenPaths, old(State()), config.sendMessagePath,
                                       SendPayload(config.variant, groupId, converseId, content, reply))
    {
      r := PostJson(config.sendMessagePath, SendPayload(config.variant, groupId, converseId, content, reply));
    }

    method ResolveFileUrl(fileId: Json) returns (r: Json)
      modifies this, http
      ensures (State(), r) == ResolveSpec(config, md5, TokenPaths, old(State()), fileId)
    {
      if !Truthy(fileId) {
        return Null;
      }
      var data := PostJson(config.fileUrlPath, Obj(map["fileId" := fileId]));
      if data.Failure? {
        return Null;
      }
      r := FirstOf(data.value, FileUrlPaths);
    }

    /** `download_file`: `stream` is the answer to the GET of the url; the bytes are gathered chunk by chunk. */
    method DownloadFile(stream: Stream, maxBytes: int) returns (r: Result<seq<bv8>>)
      ensures r == DownloadSpec(stream, maxBytes)
    {
      if stream.StreamFailed? {
        return Failure(TransportError);
      }
      if !Is2xx(stream.status) {
        return Failure(HttpStatusError(stream.status));
      }
      var chunks := stream.chunks;
      var data: seq<bv8> := [];
      var i := 0;
      while i < |chunks|
        invariant 0 <= i <= |chunks|
        invariant Gather(data, chunks[i..], maxBytes) == Gather([], chunks, maxBytes)
      {
        assert chunks[i..][1..] == chunks[i + 1..];
        data := data + chunks[i];
        if |data| > maxBytes {
          return Failure(ValueError("Attachment exceeds max size"));
        }
        i := i + 1;
      }
      return Success(data);
    }
  }
}
