/**
 * The single-tenant callback server of the plugin (plugins/tailchat_adapter/server.py):
 * one route, a token and allowlist check, the optional body hash, and the
 * JSON body handed to the one adapter.
 */
module PluginServer {
  import opened Wrappers
  import opened JsonModel
  import opened Callback

  /** `SecurityConfig` of this server: the token lives here. */
  datatype SecurityConfig = SecurityConfig(callbackToken: Json, allowIps: Json, enableBodyHash: Json, bodyHashHeader: Json)

  /** The response, and the payload handed to the adapter when the request is accepted. */
  datatype Answer = Answer(reply: Reply, handedOn: Option<Json>)

  /** `_check_security`: the configured token, then the allowlist. */
  function SecurityOk(security: SecurityConfig, req: Request): Result<bool> {
    if !TokenOk(security.callbackToken, req) then Success(false)
    else IpOk(security.allowIps, req)
  }

  /** The decision chain of `callback`: security (401), body hash when enabled (401), JSON (400), accept. */
  function HandleCallback(security: SecurityConfig, req: Request, sha256: seq<bv8> -> string): (r: Result<Answer>)
    ensures r.Success? && r.value.handedOn.Some? ==>
      (SecurityOk(security, req) == Success(true) && r.value.reply == Accepted && Payload(req).Success? && r.value.handedOn == Some(Payload(req).value))
    ensures r.Success? && r.value.handedOn.Some? && Truthy(security.enableBodyHash) ==>
      BodyHashOk(req, security.bodyHashHeader, sha256) == Success(true)
  {
    var secure :- SecurityOk(security, req);
    if !secure then Success(Answer(Refuse(401, "unauthorized"), None))
    else
      var hashOk :- if Truthy(security.enableBodyHash) then BodyHashOk(req, security.bodyHashHeader, sha256) else Success(true);
      if !hashOk then Success(Answer(Refuse(401, "invalid body hash"), None))
      else
        var payload := Payload(req);
        if payload.Failure? && payload.error.JsonDecodeError? then Success(Answer(Refuse(400, "invalid json"), None))
        else
          var p :- payload;
          Success(Answer(Accepted, Some(p)))
  }

  /** A configured token that the query does not match is 401, before the address or the body matter. */
  lemma WrongTokenRefused(security: SecurityConfig, req: Request, sha256: seq<bv8> -> string)
    requires Truthy(security.callbackToken)
    requires Query(req, "token").None? || Str(Query(req, "token").value) != security.callbackToken
    ensures HandleCallback(security, req, sha256) == Success(Answer(Refuse(401, "unauthorized"), None))
  {
  }

  /** With the token accepted, a client outside a non-empty address list is 401, before the body matters. */
  lemma ForeignAddressRefused(security: SecurityConfig, req: Request, sha256: seq<bv8> -> string)
    requires TokenOk(security.callbackToken, req)
    requires security.allowIps.Arr? && security.allowIps.items != [] && Str(ClientHost(req)) !in security.allowIps.items
    ensures HandleCallback(security, req, sha256) == Success(Answer(Refuse(401, "unauthorized"), None))
  {
  }

  /** With the body hash enabled, a missing header or a digest mismatch is 401 once security passes. */
  lemma BadHashRefused(security: SecurityConfig, req: Request, sha256: seq<bv8> -> string)
    requires SecurityOk(security, req) == Success(true) && Truthy(security.enableBodyHash)
    requires BodyHashOk(req, security.bodyHashHeader, sha256) == Success(false)
    ensures HandleCallback(security, req, sha256) == Success(Answer(Refuse(401, "invalid body hash"), None))
  {
  }

  /** Past the checks, an empty body is accepted as `{}` and undecodable JSON is 400. */
  lemma BodyOutcome(security: SecurityConfig, req: Request, sha256: seq<bv8> -> string)
    requires SecurityOk(security, req) == Success(true)
    requires !Truthy(security.enableBodyHash) || BodyHashOk(req, security.bodyHashHeader, sha256) == Success(true)
    ensures req.body == [] ==> HandleCallback(security, req, sha256) == Success(Answer(Accepted, Some(Obj(map[]))))
    ensures req.body != [] && req.decoded.InvalidJson? ==>
      HandleCallback(security, req, sha256) == Success(Answer(Refuse(400, "invalid json"), None))
    ensures req.body != [] && req.decoded.Decoded? ==>
      HandleCallback(security, req, sha256) == Success(Answer(Accepted, Some(req.decoded.value)))
  {
  }
}
