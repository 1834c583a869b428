/**
 * The standalone package's callback server (tailchat_adapter/server.py):
 * the allowlist is checked first (403), then the token (401), then the JSON
 * body (400); the payload is put on the platform's queue, and the answer says
 * whether that worked.
 */
module StandaloneServer {
  import opened Wrappers
  import opened JsonModel
  import opened Callback
  import Text

  /** `set([ip for ip in allow_ips if ip])`: the configured addresses without empty entries. */
  function AllowSet(allowIps: seq<string>): (s: set<string>)
    ensures forall ip :: ip in s <==> ip in allowIps && ip != ""
  {
    set ip | ip in allowIps && ip != ""
  }

  /** The mounted path: a leading "/" is added when missing. */
  function MountPath(path: string): (p: string)
    ensures Text.StartsWith(p, "/")
    ensures Text.StartsWith(path, "/") ==> p == path
    ensures !Text.StartsWith(path, "/") ==> p == "/" + path
  {
    if Text.StartsWith(path, "/") then path else "/" + path
  }

  /** Mounting an already mounted path changes nothing. */
  lemma MountPathIdempotent(path: string)
    ensures MountPath(MountPath(path)) == MountPath(path)
  {
  }

  /** The response, and the payload the server tried to queue (queuing happens only past every check). */
  datatype Answer = Answer(reply: Reply, enqueued: Option<Json>)

  /** `callback`: `enqueueRaises` says whether putting the payload on the queue raised. */
  function HandleCallback(allow: set<string>, token: Option<string>, req: Request, requestId: string,
                          enqueueRaises: bool): (r: Result<Answer>)
    ensures r.Success? && r.value.reply.status != 403 && allow != {} && req.client.Some? ==> req.client.value in allow
    ensures r.Success? && r.value.enqueued.Some? ==>
      && r.value.reply.status == 200
      && r.value.reply.body.Obj? && "request_id" in r.value.reply.body.fields && "queued" in r.value.reply.body.fields
      && r.value.reply.body.fields["request_id"] == Str(requestId)
      && r.value.reply.body.fields["queued"] == Bool(!enqueueRaises)
    ensures r.Success? && r.value.enqueued.Some? ==> Payload(req).Success? && r.value.enqueued == Some(Payload(req).value)
  {
    if allow != {} && req.client.Some? && req.client.value !in allow then Success(Answer(Refuse(403, "forbidden"), None))
    else if token.Some? && token.value != "" && Query(req, "token") != token then Success(Answer(Refuse(401, "unauthorized"), None))
    else
      var payload := Payload(req);
      if payload.Failure? && payload.error.JsonDecodeError? then Success(Answer(Refuse(400, "invalid json"), None))
      else
        var p :- payload;
        Success(Answer(Reply(200, Obj(map["ok" := Bool(true), "queued" := Bool(!enqueueRaises), "request_id" := Str(requestId)])), Some(p)))
  }

  /** A client outside a non-empty allowlist gets 403 whatever its token and body. */
  lemma ForeignAddressForbidden(allow: set<string>, token: Option<string>, req: Request, requestId: string, enqueueRaises: bool)
    requires allow != {} && req.client.Some? && req.client.value !in allow
    ensures HandleCallback(allow, token, req, requestId, enqueueRaises) == Success(Answer(Refuse(403, "forbidden"), None))
  {
  }

  /** Without client information, or with no allowlist, the address check is skipped. */
  lemma AddressCheckSkipped(allow: set<string>, token: Option<string>, req: Request, requestId: string, enqueueRaises: bool)
    requires allow == {} || req.client.None?
    requires HandleCallback(allow, token, req, requestId, enqueueRaises).Success?
    ensures HandleCallback(allow, token, req, requestId, enqueueRaises).value.reply.status != 403
  {
  }

  /** A configured token that the query does not match is 401 once the address passes. */
  lemma WrongTokenRefused(allow: set<string>, token: Option<string>, req: Request, requestId: string, enqueueRaises: bool)
    requires !(allow != {} && req.client.Some? && req.client.value !in allow)
    requires token.Some? && token.value != "" && Query(req, "token") != token
    ensures HandleCallback(allow, token, req, requestId, enqueueRaises) == Success(Answer(Refuse(401, "unauthorized"), None))
  {
  }

  /** Past both checks: an empty body is queued as `{}`, undecodable JSON is 400, bytes that are not UTF-8
      raise, a decoded body is queued as it is, and a request whose enqueue raises is still answered with
      `ok` (but `queued` false). */
  lemma BodyOutcome(allow: set<string>, token: Option<string>, req: Request, requestId: string, enqueueRaises: bool)
    requires !(allow != {} && req.client.Some? && req.client.value !in allow)
    requires !(token.Some? && token.value != "" && Query(req, "token") != token)
    ensures req.body != [] && req.decoded.InvalidJson? ==>
      HandleCallback(allow, token, req, requestId, enqueueRaises) == Success(Answer(Refuse(400, "invalid json"), None))
    ensures req.body == [] ==>
      var r := HandleCallback(allow, token, req, requestId, enqueueRaises);
      && r.Success? && r.value.enqueued == Some(Obj(map[]))
      && r.value.reply.body.Obj? && "ok" in r.value.reply.body.fields && "queued" in r.value.reply.body.fields
      && r.value.reply.body.fields["ok"] == Bool(true) && r.value.reply.body.fields["queued"] == Bool(!enqueueRaises)
    ensures req.body != [] && req.decoded.InvalidUtf8? ==>
      HandleCallback(allow, token, req, requestId, enqueueRaises) == Failure(ValueError("utf-8"))
    ensures req.body != [] && req.decoded.Decoded? ==>
      HandleCallback(allow, token, req, requestId, enqueueRaises) ==
        Success(Answer(Reply(200, Obj(map["ok" := Bool(true), "queued" := Bool(!enqueueRaises), "request_id" := Str(requestId)])),
                       Some(req.decoded.value)))
  {
  }
}
