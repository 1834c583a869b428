/**
 * One HTTP exchange as the clients see it (httpx): a response with a status
 * code and a body, or a transport failure; `raise_for_status` and
 * `response.json()`. The network itself is not modelled: responses are
 * scripted.
 */
module Http {
  import opened Wrappers
  import opened JsonModel

  /** A response body: empty, JSON, or not JSON. */
  datatype Body = Empty | Parsed(data: Json) | Invalid

  /** A request that failed in transport, or came back with a status and a body. */
  datatype HttpResponse = TransportFailed | Response(status: int, body: Body)

  /** httpx's `is_success`. */
  predicate Is2xx(status: int) {
    200 <= status < 300
  }

  /** `response.raise_for_status(); return response.json()` for a response that arrived: a status outside 2xx
      raises, and so does a body that is not JSON (an empty one included). */
  function JsonOf(status: int, body: Body): (r: Result<Json>)
    ensures !Is2xx(status) ==> r == Failure(HttpStatusError(status))
    ensures Is2xx(status) && body.Parsed? ==> r == Success(body.data)
    ensures Is2xx(status) && !body.Parsed? ==> r == Failure(JsonDecodeError)
  {
    if !Is2xx(status) then Failure(HttpStatusError(status))
    else if body.Parsed? then Success(body.data)
    else Failure(JsonDecodeError)
  }

  /** What a client makes of the response to a POST: a transport failure raises, and a response that arrived
      goes through `raise_for_status()` and `response.json()`. */
  function JsonAnswer(resp: HttpResponse): (r: Result<Json>)
    ensures resp.TransportFailed? ==> r == Failure(TransportError)
    ensures r.Success? ==> resp.Response? && Is2xx(resp.status) && resp.body == Parsed(r.value)
  {
    match resp
    case TransportFailed => Failure(TransportError)
    case Response(status, body) => JsonOf(status, body)
  }

  /** A POST a client made: the URL, the `X-Token` header (None when the request carries none) and the JSON body. */
  datatype Post = Post(url: string, token: Option<Json>, payload: Json)

  /** A request carrying a token header, as opposed to a login. */
  predicate IsRequest(p: Post) {
    p.token.Some?
  }

  /** A POST and the response it got. */
  datatype Exchange = Exchange(post: Post, response: HttpResponse)

  /** A client's state: the token it holds (Null before any login), the responses the server will give, in
      order, and the exchanges made so far. */
  datatype Session = Session(token: Json, script: seq<HttpResponse>, log: seq<Exchange>)

  /** One POST: answered by the next scripted response and logged; with none left it fails in transport. */
  function Send(s: Session, p: Post): (r: (Session, HttpResponse))
    ensures r.0.token == s.token && r.0.log == s.log + [Exchange(p, r.1)]
    ensures s.script != [] ==> r.0.script == s.script[1..] && r.1 == s.script[0]
    ensures s.script == [] ==> r.0.script == [] && r.1 == TransportFailed
  {
    if s.script == [] then (s.(log := s.log + [Exchange(p, TransportFailed)]), TransportFailed)
    else (Session(s.token, s.script[1..], s.log + [Exchange(p, s.script[0])]), s.script[0])
  }

  /** The number of exchanges whose POST carried a token header. */
  function Requests(log: seq<Exchange>): nat
    decreases |log|
  {
    if log == [] then 0 else Requests(log[..|log| - 1]) + (if IsRequest(log[|log| - 1].post) then 1 else 0)
  }

  /** The exchanges of `t` begin with those of `s`. */
  predicate Extends(s: Session, t: Session) {
    |t.log| >= |s.log| && t.log[..|s.log|] == s.log
  }

  lemma ExtendsTrans(s: Session, t: Session, u: Session)
    requires Extends(s, t) && Extends(t, u)
    ensures Extends(s, u)
  {
    assert u.log[..|s.log|] == u.log[..|t.log|][..|s.log|];
  }

  /** One more POST adds one exchange, and one request exactly when it carries a token header. */
  lemma SendAddsOne(s: Session, p: Post)
    ensures var t := Send(s, p).0;
      Extends(s, t) && |t.log| == |s.log| + 1 && Requests(t.log) == Requests(s.log) + (if IsRequest(p) then 1 else 0)
  {
    var t := Send(s, p).0;
    assert t.log[..|t.log| - 1] == s.log;
  }

  /** The header `{"X-Token": token or ""}`. */
  function TokenHeader(s: Session): Option<Json> {
    Some(Or(s.token, Str("")))
  }

  /** The login body of every client: the app id and the md5 hex digest of `f"{app_id}{app_secret}"`. */
  function LoginPayload(appId: Json, appSecret: Json, md5: string -> string): Json {
    Obj(map["appId" := appId, "token" := Str(md5(PyStr(appId) + PyStr(appSecret)))])
  }

  /** An httpx client: the responses the server will give, in order, and the exchanges made. */
  class Connection {
    var script: seq<HttpResponse>
    var log: seq<Exchange>

    constructor(script: seq<HttpResponse>)
      ensures this.script == script && log == []
    {
      this.script := script;
      log := [];
    }

    /** One POST, as `Send` describes it. */
    method Deliver(p: Post) returns (resp: HttpResponse)
      modifies this
      ensures old(script) != [] ==> resp == old(script)[0] && script == old(script)[1..]
      ensures old(script) == [] ==> resp == TransportFailed && script == []
      ensures log == old(log) + [Exchange(p, resp)]
    {
      if script == [] {
        resp := TransportFailed;
      } else {
        resp := script[0];
        script := script[1..];
      }
      log := log + [Exchange(p, resp)];
    }
  }
}
