/**
 * The shared callback server of the multi-robot plugin
 * (plugins/tailchat/tailchat/server_singleton.py): one route
 * `/tailchat/callback/{robot_id}` for every registered robot, and a start
 * guard that leaves a running server alone.
 */
module SingletonServer {
  import opened Wrappers
  import opened JsonModel
  import opened Callback
  import Registry
  import Redaction

  /** What the server reads from a registered platform: its `callback_token` attribute (Null when absent). */
  datatype Platform = Platform(callbackToken: Json)

  /** The response, the payload handed to the platform's `on_callback`, and the payload dump written. */
  datatype Answer = Answer(reply: Reply, handedOn: Option<Json>, dump: Option<Json>)

  /** `_check_token`: with a truthy token the query's `token` must equal it; with none, anything passes. */
  predicate CheckToken(req: Request, platform: Platform) {
    TokenOk(platform.callbackToken, req)
  }

  /** `callback(robot_id, request)` against the registry's map. The invalid-JSON dump is the body text with
      undecodable bytes dropped, redacted (a string is left as it is), and written for every request since
      the request id is never empty. */
  function HandleCallback(entries: map<string, Platform>, robotId: string, req: Request): (r: Result<Answer>)
    ensures Registry.Lookup(entries, robotId).None? ==> r == Success(Answer(Refuse(404, "unknown robot"), None, None))
    ensures r.Success? && r.value.handedOn.Some? ==>
      (robotId in entries && CheckToken(req, entries[robotId]) && r.value.reply == Accepted)
    ensures r.Success? && r.value.handedOn.Some? ==> Payload(req).Success? && r.value.handedOn == Some(Payload(req).value)
  {
    var platform := Registry.Lookup(entries, robotId);
    if platform.None? then Success(Answer(Refuse(404, "unknown robot"), None, None))
    else if !CheckToken(req, platform.value) then Success(Answer(Refuse(401, "unauthorized"), None, None))
    else
      var payload := Payload(req);
      if payload.Failure? && payload.error.JsonDecodeError? then
        Success(Answer(Refuse(400, "invalid json"), None, Some(Redaction.RedactPayload(Str(req.lenientText)))))
      else
        var p :- payload;
        Success(Answer(Accepted, Some(p), None))
  }

  /** An unknown robot is 404 even when the token would be wrong. */
  lemma UnknownRobotFirst(entries: map<string, Platform>, robotId: string, req: Request)
    requires robotId !in entries
    ensures HandleCallback(entries, robotId, req).value.reply.status == 404
  {
  }

  /** A registered robot with a token rejects a request whose query token differs, with 401. */
  lemma WrongTokenRefused(entries: map<string, Platform>, robotId: string, req: Request)
    requires robotId in entries && Truthy(entries[robotId].callbackToken)
    requires Query(req, "token").None? || Str(Query(req, "token").value) != entries[robotId].callbackToken
    ensures HandleCallback(entries, robotId, req) == Success(Answer(Refuse(401, "unauthorized"), None, None))
  {
  }

  /** Without a configured token every request passes the token check. */
  lemma NoTokenPasses(req: Request, platform: Platform)
    requires !Truthy(platform.callbackToken)
    ensures CheckToken(req, platform)
  {
  }

  /** Past the checks, an empty body is handed on as `{}`, undecodable JSON is 400 with the body text
      dumped unchanged, bytes that are not UTF-8 raise, and a decoded body is handed on as it is with
      `{"ok": True}`. */
  lemma BodyOutcome(entries: map<string, Platform>, robotId: string, req: Request)
    requires robotId in entries && CheckToken(req, entries[robotId])
    ensures req.body == [] ==> HandleCallback(entries, robotId, req) == Success(Answer(Accepted, Some(Obj(map[])), None))
    ensures req.body != [] && req.decoded.InvalidJson? ==>
      HandleCallback(entries, robotId, req) == Success(Answer(Refuse(400, "invalid json"), None, Some(Str(req.lenientText))))
    ensures req.body != [] && req.decoded.InvalidUtf8? ==> HandleCallback(entries, robotId, req) == Failure(ValueError("utf-8"))
    ensures req.body != [] && req.decoded.Decoded? ==>
      HandleCallback(entries, robotId, req) == Success(Answer(Accepted, Some(req.decoded.value), None))
  {
  }

  /** `ensure_server_started`'s globals: whether the server thread is alive, where it listens, and how many
      times a server was created. */
  class ServerState {
    var alive: bool
    var listenHost: string
    var listenPort: int
    var starts: nat

    constructor()
      ensures !alive && starts == 0
    {
      alive := false;
      listenHost := "";
      listenPort := 0;
      starts := 0;
    }

    /** A call while the thread is alive changes nothing; otherwise a server is created on the given address. */
    method EnsureStarted(host: string, port: int)
      modifies this
      ensures old(alive) ==> alive == old(alive) && listenHost == old(listenHost) && listenPort == old(listenPort) && starts == old(starts)
      ensures !old(alive) ==> alive && listenHost == host && listenPort == port && starts == old(starts) + 1
    {
      if alive {
        return;
      }
      listenHost := host;
      listenPort := port;
      starts := starts + 1;
      alive := true;
    }
  }
}
