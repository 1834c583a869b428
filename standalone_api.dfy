/**
 * The asynchronous Tailchat client of the standalone adapter
 * (tailchat_adapter/api.py): a login whose jwt is the first truthy of four
 * candidates, and `send_message` with login-first, one re-login and retry
 * after a 401 or 403, and `raise_for_status`. The awaits are taken in
 * order; the network is the scripted `Http.Connection`.
 */
module StandaloneApi {
  import opened Wrappers
  import opened JsonModel
  import opened Http
  import Text
  import TailchatApi

  /** The client's settings: the host with trailing slashes removed, the app id and the app secret. */
  datatype ApiConfig = ApiConfig(host: string, appId: Json, appSecret: Json)

  /** `__init__`: `host.rstrip("/")`, which only a string has. */
  function Configure(host: Json, appId: Json, appSecret: Json): (r: Result<ApiConfig>)
    ensures r.Success? <==> host.Str?
    ensures r.Success? ==> r.value == ApiConfig(Text.RStripChar(host.s, '/'), appId, appSecret)
    ensures r.Failure? ==> r.error == AttributeError("rstrip")
  {
    var h :- TailchatApi.StripSlashes(host);
    Success(ApiConfig(h, appId, appSecret))
  }

  /** The login URL: the host followed by the fixed route. */
  function LoginUrl(c: ApiConfig): string {
    c.host + TailchatApi.LoginPath
  }

  /** The message URL: the host followed by the fixed route. */
  function MessageUrl(c: ApiConfig): string {
    c.host + TailchatApi.SendMessagePath
  }

  /** Both URLs are the configured host without its trailing slashes followed by the route, so the host never
      ends in a slash where the route begins. */
  lemma UrlsAfterStrippedHost(host: Json, appId: Json, appSecret: Json)
    requires host.Str?
    ensures var c := Configure(host, appId, appSecret).value;
      && LoginUrl(c) == Text.RStripChar(host.s, '/') + "/api/openapi/bot/login"
      && MessageUrl(c) == Text.RStripChar(host.s, '/') + "/api/chat/message/sendMessage"
      && (c.host == [] || c.host[|c.host| - 1] != '/')
      && Text.StartsWith(host.s, c.host)
  {
    Text.RStripCharShape(host.s, '/');
  }

  /** The four jwt candidates of a login answer, in the order the code tries them: `data.jwt`, `data.token`,
      `jwt`, `token`, where `data` is the answer's "data" value or `{}` when that is falsy. */
  function Candidates(fields: map<string, Json>, inner: map<string, Json>): (cs: seq<Json>)
    ensures |cs| == 4
  {
    [Get(inner, "jwt", Null), Get(inner, "token", Null), Get(fields, "jwt", Null), Get(fields, "token", Null)]
  }

  /** The jwt expression of `login`: an `or` chain over the candidates. A non-dict answer, or a truthy non-dict
      "data" value, has no `.get`. */
  function JwtOf(data: Json): (r: Result<Json>)
    ensures r.Failure? <==> !data.Obj? || !Or(Get(data.fields, "data", Null), Obj(map[])).Obj?
    ensures r.Failure? ==> r.error == AttributeError("get")
  {
    if !data.Obj? then Failure(AttributeError("get"))
    else
      var inner := Or(Get(data.fields, "data", Null), Obj(map[]));
      if !inner.Obj? then Failure(AttributeError("get"))
      else
        Success(Or(Or(Or(Get(inner.fields, "jwt", Null), Get(inner.fields, "token", Null)),
                      Get(data.fields, "jwt", Null)), Get(data.fields, "token", Null)))
  }

  /** The jwt is the first truthy candidate, and it is falsy exactly when every candidate is. */
  lemma JwtFirstTruthy(data: Json)
    requires JwtOf(data).Success?
    ensures var inner := Or(Get(data.fields, "data", Null), Obj(map[])).fields;
      var cs := Candidates(data.fields, inner);
      var jwt := JwtOf(data).value;
      && (Truthy(jwt) <==> exists i :: 0 <= i < 4 && Truthy(cs[i]))
      && (forall i :: 0 <= i < 4 && Truthy(cs[i]) && (forall j :: 0 <= j < i ==> !Truthy(cs[j])) ==> jwt == cs[i])
  {
    var inner := Or(Get(data.fields, "data", Null), Obj(map[])).fields;
    var cs := Candidates(data.fields, inner);
    assert JwtOf(data).value == Or(Or(Or(cs[0], cs[1]), cs[2]), cs[3]);
  }

  /** `login()` from state `s`: the POST, `raise_for_status`, `json()`, the jwt; a falsy jwt raises, a truthy one
      is held. */
  function LoginSpec(c: ApiConfig, md5: string -> string, s: Session): (Session, Result<Json>) {
    var sent := Send(s, Post(LoginUrl(c), None, LoginPayload(c.appId, c.appSecret, md5)));
    var data := JsonAnswer(sent.1);
    if data.Failure? then (sent.0, Failure(data.error))
    else
      var jwt := JwtOf(data.value);
      if jwt.Failure? then (sent.0, Failure(jwt.error))
      else if !Truthy(jwt.value) then (sent.0, Failure(RuntimeError("Tailchat login: cannot find jwt in response")))
      else (sent.0.(token := jwt.value), Success(jwt.value))
  }

  /** A login is exactly one exchange, a POST without a token header; it succeeds exactly when the answer is 2xx
      JSON with a truthy jwt, which is then held; a failed login leaves the held jwt as it was. */
  lemma LoginOutcome(c: ApiConfig, md5: string -> string, s: Session)
    ensures var r := LoginSpec(c, md5, s);
      && |r.0.log| == |s.log| + 1 && r.0.log[..|s.log|] == s.log
      && r.0.log[|s.log|].post == Post(LoginUrl(c), None, LoginPayload(c.appId, c.appSecret, md5))
      && var answer := JsonAnswer(r.0.log[|s.log|].response);
      && (r.1.Success? <==> answer.Success? && JwtOf(answer.value).Success? && Truthy(JwtOf(answer.value).value))
      && (r.1.Success? ==> r.1.value == JwtOf(answer.value).value && r.0.token == r.1.value)
      && (r.1.Failure? ==> r.0.token == s.token)
  {
    var p := Post(LoginUrl(c), None, LoginPayload(c.appId, c.appSecret, md5));
    var sent := Send(s, p);
    assert sent.0.log[|s.log|] == Exchange(p, sent.1);
  }

  /** The `send_message` body: converse, group, content and plain always, `meta` `{}` unless the reply has a
      truthy message id. Only a dict reply has `.get`. */
  function MessagePayload(groupId: Json, converseId: Json, content: string, reply: Json): (r: Result<Json>)
    ensures r.Failure? <==> Truthy(reply) && !reply.Obj?
    ensures r.Success? ==> r.value.Obj? && r.value.fields.Keys == {"converseId", "groupId", "content", "plain", "meta"}
    ensures r.Success? ==> var f := r.value.fields;
      f["converseId"] == converseId && f["groupId"] == groupId && f["content"] == Str(content) && f["plain"] == Str(content)
    ensures r.Success? && !(Truthy(reply) && Truthy(Get(reply.fields, "message_id", Null))) ==>
      r.value.fields["meta"] == Obj(map[])
    ensures r.Success? && Truthy(reply) && Truthy(Get(reply.fields, "message_id", Null)) ==>
      var author := Get(reply.fields, "author_id", Null);
      r.value.fields["meta"] == Obj(map[
        "mentions" := Arr(if Truthy(author) then [author] else []),
        "reply" := Obj(map[
          "_id" := Get(reply.fields, "message_id", Null),
          "author" := if Truthy(author) then author else Str(""),
          "content" := Or(Get(reply.fields, "content", Null), Str(""))])])
  {
    if Truthy(reply) && !reply.Obj? then Failure(AttributeError("get"))
    else
      var meta :=
        if Truthy(reply) && Truthy(Get(reply.fields, "message_id", Null)) then
          var author := Get(reply.fields, "author_id", Null);
          Obj(map[
            "mentions" := Arr(if Truthy(author) then [author] else []),
            "reply" := Obj(map[
              "_id" := Get(reply.fields, "message_id", Null),
              "author" := Or(author, Str("")),
              "content" := Or(Get(reply.fields, "content", Null), Str(""))])])
        else Obj(map[]);
      Success(Obj(map["converseId" := converseId, "groupId" := groupId, "content" := Str(content),
                      "plain" := Str(content), "meta" := meta]))
  }

  /** The re-login after a 401 or 403 and the one retry, whose answer is final. */
  function RetrySpec(c: ApiConfig, md5: string -> string, s: Session, payload: Json): (Session, Result<Json>) {
    var login := LoginSpec(c, md5, s);
    if login.1.Failure? then (login.0, Failure(login.1.error))
    else
      var sent := Send(login.0, Post(MessageUrl(c), TokenHeader(login.0), payload));
      (sent.0, JsonAnswer(sent.1))
  }

  /** The POST with the held jwt, and the retry when it is answered 401 or 403. */
  function DeliverSpec(c: ApiConfig, md5: string -> string, s: Session, payload: Json): (Session, Result<Json>) {
    var sent := Send(s, Post(MessageUrl(c), TokenHeader(s), payload));
    match sent.1
    case TransportFailed => (sent.0, Failure(TransportError))
    case Response(status, body) =>
      if status == 401 || status == 403 then RetrySpec(c, md5, sent.0, payload)
      else (sent.0, JsonOf(status, body))
  }

  /** `send_message(group_id, converse_id, content, reply)`: a login first when no jwt is held, then the body,
      then the POST and its one possible retry. */
  function SendSpec(c: ApiConfig, md5: string -> string, s: Session, groupId: Json, converseId: Json, content: string, reply: Json): (Session, Result<Json>) {
    var first := if Truthy(s.token) then (s, Success(s.token)) else LoginSpec(c, md5, s);
    if first.1.Failure? then (first.0, Failure(first.1.error))
    else
      var payload := MessagePayload(groupId, converseId, content, reply);
      if payload.Failure? then (first.0, Failure(payload.error))
      else DeliverSpec(c, md5, first.0, payload.value)
  }

  /** A login adds one exchange, and it is not a request. */
  lemma LoginAddsNoRequest(c: ApiConfig, md5: string -> string, s: Session)
    ensures var t := LoginSpec(c, md5, s).0;
      Extends(s, t) && |t.log| == |s.log| + 1 && Requests(t.log) == Requests(s.log)
  {
    var t := LoginSpec(c, md5, s).0;
    assert t.log[..|t.log| - 1] == s.log;
  }

  /** The retry adds a login and at most one request. */
  lemma RetryBound(c: ApiConfig, md5: string -> string, s: Session, payload: Json)
    ensures var t := RetrySpec(c, md5, s, payload).0;
      Extends(s, t) && |t.log| <= |s.log| + 2 && Requests(t.log) <= Requests(s.log) + 1
  {
    var login := LoginSpec(c, md5, s);
    LoginAddsNoRequest(c, md5, s);
    if login.1.Success? {
      var p := Post(MessageUrl(c), TokenHeader(login.0), payload);
      SendAddsOne(login.0, p);
      ExtendsTrans(s, login.0, Send(login.0, p).0);
    }
  }

  /** The POST and its retry add one to three exchanges, at most two of them requests. */
  lemma DeliverBound(c: ApiConfig, md5: string -> string, s: Session, payload: Json)
    ensures var t := DeliverSpec(c, md5, s, payload).0;
      Extends(s, t) && |s.log| < |t.log| <= |s.log| + 3 && Requests(t.log) <= Requests(s.log) + 2
  {
    var p := Post(MessageUrl(c), TokenHeader(s), payload);
    var sent := Send(s, p);
    SendAddsOne(s, p);
    if sent.1.Response? && (sent.1.status == 401 || sent.1.status == 403) {
      RetryBound(c, md5, sent.0, payload);
      ExtendsTrans(s, sent.0, RetrySpec(c, md5, sent.0, payload).0);
    }
  }

  /** `send_message` makes at most four POSTs, of which at most two carry the message. */
  lemma AtMostTwoRequests(c: ApiConfig, md5: string -> string, s: Session, groupId: Json, converseId: Json, content: string, reply: Json)
    ensures var t := SendSpec(c, md5, s, groupId, converseId, content, reply).0;
      Extends(s, t) && |t.log| <= |s.log| + 4 && Requests(t.log) <= Requests(s.log) + 2
  {
    var first := if Truthy(s.token) then (s, Success(s.token)) else LoginSpec(c, md5, s);
    if !Truthy(s.token) {
      LoginAddsNoRequest(c, md5, s);
    }
    var payload := MessagePayload(groupId, converseId, content, reply);
    if first.1.Success? && payload.Success? {
      DeliverBound(c, md5, first.0, payload.value);
      ExtendsTrans(s, first.0, DeliverSpec(c, md5, first.0, payload.value).0);
    }
  }

  /** Without a jwt, the first POST of `send_message` is the login. */
  lemma LoginFirst(c: ApiConfig, md5: string -> string, s: Session, groupId: Json, converseId: Json, content: string, reply: Json)
    requires !Truthy(s.token)
    ensures var t := SendSpec(c, md5, s, groupId, converseId, content, reply).0;
      |t.log| > |s.log| && t.log[|s.log|].post == Post(LoginUrl(c), None, LoginPayload(c.appId, c.appSecret, md5))
  {
    LoginOutcome(c, md5, s);
    var first := LoginSpec(c, md5, s);
    var payload := MessagePayload(groupId, converseId, content, reply);
    if first.1.Success? && payload.Success? {
      DeliverBound(c, md5, first.0, payload.value);
      var t := DeliverSpec(c, md5, first.0, payload.value).0;
      assert t.log[|s.log|] == t.log[..|first.0.log|][|s.log|];
    }
  }

  lemma DeliverSuccess(c: ApiConfig, md5: string -> string, s: Session, payload: Json)
    requires DeliverSpec(c, md5, s, payload).1.Success?
    ensures TailchatApi.AnsweredBy(DeliverSpec(c, md5, s, payload).0, payload, DeliverSpec(c, md5, s, payload).1.value)
  {
    var sent := Send(s, Post(MessageUrl(c), TokenHeader(s), payload));
    if sent.1.Response? && (sent.1.status == 401 || sent.1.status == 403) {
      assert LoginSpec(c, md5, sent.0).1.Success?;
    }
  }

  /** `send_message` returns only what the last message POST got as a 2xx JSON answer, and that POST carried the
      body MessagePayload builds: a non-2xx final status raises. */
  lemma SuccessMeans2xx(c: ApiConfig, md5: string -> string, s: Session, groupId: Json, converseId: Json, content: string, reply: Json)
    requires SendSpec(c, md5, s, groupId, converseId, content, reply).1.Success?
    ensures var r := SendSpec(c, md5, s, groupId, converseId, content, reply);
      && MessagePayload(groupId, converseId, content, reply).Success?
      && TailchatApi.AnsweredBy(r.0, MessagePayload(groupId, converseId, content, reply).value, r.1.value)
  {
    var first := if Truthy(s.token) then (s, Success(s.token)) else LoginSpec(c, md5, s);
    var payload := MessagePayload(groupId, converseId, content, reply);
    assert first.1.Success? && payload.Success?;
    DeliverSuccess(c, md5, first.0, payload.value);
  }

  /** With a jwt held and a first answer other than 401 or 403, exactly one POST is made, with that jwt. */
  lemma NoRetryOtherwise(c: ApiConfig, md5: string -> string, s: Session, payload: Json)
    requires Truthy(s.token) && s.script != []
    requires !(s.script[0].Response? && (s.script[0].status == 401 || s.script[0].status == 403))
    ensures DeliverSpec(c, md5, s, payload) ==
      (Session(s.token, s.script[1..], s.log + [Exchange(Post(MessageUrl(c), Some(s.token), payload), s.script[0])]),
       JsonAnswer(s.script[0]))
  {
  }

  /** A 401 or 403 followed by an accepted login gives exactly one retry with the new jwt, and its answer is final,
      another 401 included. */
  lemma RetryOnce(c: ApiConfig, md5: string -> string, s: Session, payload: Json, status: int, data: Json)
    requires |s.script| >= 3 && s.script[0].Response? && (s.script[0].status == 401 || s.script[0].status == 403)
    requires s.script[1] == Response(status, Parsed(data)) && Is2xx(status)
    requires JwtOf(data).Success? && Truthy(JwtOf(data).value)
    ensures var jwt := JwtOf(data).value;
      DeliverSpec(c, md5, s, payload) ==
        (Session(jwt, s.script[3..], s.log + [
           Exchange(Post(MessageUrl(c), TokenHeader(s), payload), s.script[0]),
           Exchange(Post(LoginUrl(c), None, LoginPayload(c.appId, c.appSecret, md5)), s.script[1]),
           Exchange(Post(MessageUrl(c), Some(jwt), payload), s.script[2])]),
         JsonAnswer(s.script[2]))
  {
    var jwt := JwtOf(data).value;
    var q1 := Exchange(Post(MessageUrl(c), TokenHeader(s), payload), s.script[0]);
    var s1 := Session(s.token, s.script[1..], s.log + [q1]);
    assert DeliverSpec(c, md5, s, payload) == RetrySpec(c, md5, s1, payload);
    var l := Exchange(Post(LoginUrl(c), None, LoginPayload(c.appId, c.appSecret, md5)), s.script[1]);
    var s2 := Session(jwt, s.script[2..], s1.log + [l]);
    assert s1.script[0] == s.script[1] && s1.script[1..] == s.script[2..];
    assert LoginSpec(c, md5, s1) == (s2, Success(jwt));
    assert TokenHeader(s2) == Some(jwt);
    assert s2.script[0] == s.script[2] && s2.script[1..] == s.script[3..];
    var q2 := Exchange(Post(MessageUrl(c), Some(jwt), payload), s.script[2]);
    assert s2.log + [q2] == s.log + [q1, l, q2];
  }

  /** A `TailchatAPI` object of the standalone adapter: its settings, the md5 function, the held jwt and its
      httpx client. */
  class Client {
    const config: ApiConfig
    const md5: string -> string
    const http: Connection
    var jwt: Json

    function State(): Session
      reads this, http
    {
      Session(jwt, http.script, http.log)
    }

    constructor(config: ApiConfig, md5: string -> string, script: seq<HttpResponse>)
      ensures this.config == config && this.md5 == md5 && State() == Session(Null, script, [])
    {
      this.config := config;
      this.md5 := md5;
      jwt := Null;
      http := new Connection(script);
    }

    method Login() returns (r: Result<Json>)
      modifies this, http
      ensures (State(), r) == LoginSpec(config, md5, old(State()))
    {
      var resp := http.Deliver(Post(LoginUrl(config), None, LoginPayload(config.appId, config.appSecret, md5)));
      var data := JsonAnswer(resp);
      if data.Failure? {
        return Failure(data.error);
      }
      var found := JwtOf(data.value);
      if found.Failure? {
        return Failure(found.error);
      }
      if !Truthy(found.value) {
        return Failure(RuntimeError("Tailchat login: cannot find jwt in response"));
      }
      jwt := found.value;
      return Success(found.value);
    }

    method SendMessage(groupId: Json, converseId: Json, content: string, reply: Json) returns (r: Result<Json>)
      modifies this, http
      ensures (State(), r) == SendSpec(config, md5, old(State()), groupId, converseId, content, reply)
    {
      if !Truthy(jwt) {
        var login := Login();
        if login.Failure? {
          return Failure(login.error);
        }
      }
      var payload := MessagePayload(groupId, converseId, content, reply);
      if payload.Failure? {
        return Failure(payload.error);
      }
      var resp := http.Deliver(Post(MessageUrl(config), TokenHeader(State()), payload.value));
      if resp.Response? && (resp.status == 401 || resp.status == 403) {
        var login := Login();
        if login.Failure? {
          return Failure(login.error);
        }
        resp := http.Deliver(Post(MessageUrl(config), TokenHeader(State()), payload.value));
      }
      r := JsonAnswer(resp);
    }
  }
}
