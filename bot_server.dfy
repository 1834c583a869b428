/**
 * The multi-bot callback server (`TailchatCallbackServer` of the adapter
 * package): one POST route per bot, each checking that bot's token and the
 * shared allowlist, the optional body hash and the JSON body, and then
 * handing the payload to the bot's adapter.
 */
module BotServer {
  import opened Wrappers
  import opened JsonModel
  import opened Callback
  import Adapter

  /** `ServerConfig`. */
  datatype ServerConfig = ServerConfig(listenHost: Json, listenPort: Json)

  /** `SecurityConfig`. */
  datatype SecurityConfig = SecurityConfig(allowIps: Json, enableBodyHash: Json, bodyHashHeader: Json)

  /** `BotCallbackConfig`. */
  datatype BotCallback = BotCallback(botKey: Json, callbackPath: Json, callbackToken: Json, adapter: Adapter.AdapterConfig)

  /** The index of the first bot with this key. */
  function FindBot(bots: seq<BotCallback>, key: Json): (r: Option<nat>)
    ensures r.Some? ==> r.value < |bots| && bots[r.value].botKey == key
    ensures r.Some? ==> forall j :: 0 <= j < r.value ==> bots[j].botKey != key
    ensures r.None? ==> forall j :: 0 <= j < |bots| ==> bots[j].botKey != key
    decreases |bots|
  {
    if bots == [] then None
    else if bots[0].botKey == key then Some(0)
    else
      var rest := FindBot(bots[1..], key);
      if rest.Some? then Some(rest.value + 1) else None
  }

  /** `_get_adapter`: the first matching bot's adapter. */
  method GetAdapter(bots: seq<BotCallback>, key: Json) returns (r: Option<Adapter.AdapterConfig>)
    ensures FindBot(bots, key).Some? ==> r == Some(bots[FindBot(bots, key).value].adapter)
    ensures FindBot(bots, key).None? ==> r == None
  {
    var i := 0;
    while i < |bots|
      invariant 0 <= i <= |bots|
      invariant forall j :: 0 <= j < i ==> bots[j].botKey != key
    {
      if bots[i].botKey == key {
        return Some(bots[i].adapter);
      }
      i := i + 1;
    }
    return None;
  }

  /** `_get_callback_token`: the first matching bot's token, `None` (Null) for an unknown key. */
  method GetCallbackToken(bots: seq<BotCallback>, key: Json) returns (token: Json)
    ensures token == TokenOf(bots, key)
  {
    var i := 0;
    while i < |bots|
      invariant 0 <= i <= |bots|
      invariant forall j :: 0 <= j < i ==> bots[j].botKey != key
    {
      if bots[i].botKey == key {
        return bots[i].callbackToken;
      }
      i := i + 1;
    }
    return Null;
  }

  function TokenOf(bots: seq<BotCallback>, key: Json): Json {
    var i := FindBot(bots, key);
    if i.Some? then bots[i.value].callbackToken else Null
  }

  /** `_check_security`: the bot's token (when it has a truthy one), then the allowlist. */
  function SecurityOk(bots: seq<BotCallback>, security: SecurityConfig, req: Request, botKey: Json): Result<bool> {
    if !TokenOk(TokenOf(bots, botKey), req) then Success(false)
    else IpOk(security.allowIps, req)
  }

  /** What one request leads to: the response and, for an accepted request, the index of the bot whose adapter
      receives the payload. */
  datatype Answer = Answer(reply: Reply, handedTo: Option<(nat, Json)>)

  /** The decision chain of `callback` for the bot key in force. */
  function Decide(bots: seq<BotCallback>, security: SecurityConfig, req: Request, botKey: Json,
                  sha256: seq<bv8> -> string): (r: Result<Answer>)
    ensures r.Success? && r.value.handedTo.Some? ==>
      (r.value.handedTo.value.0 < |bots| && bots[r.value.handedTo.value.0].botKey == botKey
       && TokenOk(TokenOf(bots, botKey), req))
  {
    var secure :- SecurityOk(bots, security, req, botKey);
    if !secure then Success(Answer(Refuse(401, "unauthorized"), None))
    else
      var hashOk :- if Truthy(security.enableBodyHash) then BodyHashOk(req, security.bodyHashHeader, sha256) else Success(true);
      if !hashOk then Success(Answer(Refuse(401, "invalid body hash"), None))
      else
        var payload := Payload(req);
        if payload.Failure? && payload.error.JsonDecodeError? then Success(Answer(Refuse(400, "invalid json"), None))
        else
          var p :- payload;
          var i := FindBot(bots, botKey);
          if i.None? then Success(Answer(Refuse(404, "unknown bot"), None))
          else Success(Answer(Accepted, Some((i.value, p))))
  }

  /** `callback` AS WRITTEN: `bot_key` is a parameter of the endpoint with the route's key as its default,
      so the framework fills it from a `bot_key` query parameter when the request carries one. */
  function CallbackAsWritten(bots: seq<BotCallback>, security: SecurityConfig, route: nat, req: Request,
                             sha256: seq<bv8> -> string): Result<Answer>
    requires route < |bots|
  {
    var botKey := if "bot_key" in req.query then Str(req.query["bot_key"]) else bots[route].botKey;
    Decide(bots, security, req, botKey, sha256)
  }

  /** `callback` as evidently intended: the key is the one of the bot whose route was called. */
  function CallbackFixed(bots: seq<BotCallback>, security: SecurityConfig, route: nat, req: Request,
                         sha256: seq<bv8> -> string): (r: Result<Answer>)
    requires route < |bots|
    ensures r.Success? && r.value.handedTo.Some? ==>
      (r.value.handedTo.value.0 < |bots| && bots[r.value.handedTo.value.0].botKey == bots[route].botKey)
    ensures r.Success? && r.value.handedTo.Some? ==> TokenOk(TokenOf(bots, bots[route].botKey), req)
  {
    Decide(bots, security, req, bots[route].botKey, sha256)
  }

  /** Token before allowlist before body: a token mismatch is 401 whatever the client address and body. */
  lemma TokenFirst(bots: seq<BotCallback>, security: SecurityConfig, route: nat, req: Request, sha256: seq<bv8> -> string)
    requires route < |bots| && !TokenOk(TokenOf(bots, bots[route].botKey), req)
    ensures CallbackFixed(bots, security, route, req, sha256) == Success(Answer(Refuse(401, "unauthorized"), None))
  {
  }

  /** An address outside a non-empty allowlist is refused with 401 (not 403) once the token passes. */
  lemma IpRefused(bots: seq<BotCallback>, security: SecurityConfig, route: nat, req: Request, sha256: seq<bv8> -> string)
    requires route < |bots| && TokenOk(TokenOf(bots, bots[route].botKey), req)
    requires IpOk(security.allowIps, req) == Success(false)
    ensures CallbackFixed(bots, security, route, req, sha256) == Success(Answer(Refuse(401, "unauthorized"), None))
  {
  }

  /** The answer for a request that passes security and the hash check: 400 for a body that is not JSON,
      otherwise `{"ok": True}` with the payload (`{}` for an empty body) handed to the route's bot. */
  lemma BodyOutcome(bots: seq<BotCallback>, security: SecurityConfig, route: nat, req: Request, sha256: seq<bv8> -> string)
    requires route < |bots|
    requires SecurityOk(bots, security, req, bots[route].botKey) == Success(true)
    requires !Truthy(security.enableBodyHash) || BodyHashOk(req, security.bodyHashHeader, sha256) == Success(true)
    ensures req.body != [] && req.decoded.InvalidJson? ==>
      CallbackFixed(bots, security, route, req, sha256) == Success(Answer(Refuse(400, "invalid json"), None))
    ensures req.body == [] ==>
      CallbackFixed(bots, security, route, req, sha256) ==
        Success(Answer(Accepted, Some((FindBot(bots, bots[route].botKey).value, Obj(map[])))))
    ensures req.body != [] && req.decoded.Decoded? ==>
      CallbackFixed(bots, security, route, req, sha256) ==
        Success(Answer(Accepted, Some((FindBot(bots, bots[route].botKey).value, req.decoded.value))))
  {
  }

  /** With the body hash enabled, a missing header or a digest mismatch is 401 once security passes. */
  lemma BadHashRefused(bots: seq<BotCallback>, security: SecurityConfig, route: nat, req: Request,
                       sha256: seq<bv8> -> string)
    requires route < |bots|
    requires SecurityOk(bots, security, req, bots[route].botKey) == Success(true) && Truthy(security.enableBodyHash)
    requires BodyHashOk(req, security.bodyHashHeader, sha256) == Success(false)
    ensures CallbackFixed(bots, security, route, req, sha256) == Success(Answer(Refuse(401, "invalid body hash"), None))
  {
  }

  /** A key that no bot has yields no token (`None`), so the token check passes and only the allowlist
      decides. */
  lemma UnknownKeyPassesToken(bots: seq<BotCallback>, security: SecurityConfig, req: Request, botKey: Json)
    requires FindBot(bots, botKey).None?
    ensures TokenOf(bots, botKey) == Null && TokenOk(TokenOf(bots, botKey), req)
    ensures SecurityOk(bots, security, req, botKey) == IpOk(security.allowIps, req)
  {
  }

  /** A key that no bot has is 404 "unknown bot", but only once the body has been read: a failing hash is
      still 401 and a body that is not JSON still 400. */
  lemma UnknownBotRefused(bots: seq<BotCallback>, security: SecurityConfig, req: Request, botKey: Json,
                          sha256: seq<bv8> -> string)
    requires FindBot(bots, botKey).None? && IpOk(security.allowIps, req) == Success(true)
    ensures Truthy(security.enableBodyHash) && BodyHashOk(req, security.bodyHashHeader, sha256) == Success(false) ==>
      Decide(bots, security, req, botKey, sha256) == Success(Answer(Refuse(401, "invalid body hash"), None))
    ensures !Truthy(security.enableBodyHash) && req.body != [] && req.decoded.InvalidJson? ==>
      Decide(bots, security, req, botKey, sha256) == Success(Answer(Refuse(400, "invalid json"), None))
    ensures !Truthy(security.enableBodyHash) && Payload(req).Success? ==>
      Decide(bots, security, req, botKey, sha256) == Success(Answer(Refuse(404, "unknown bot"), None))
  {
    UnknownKeyPassesToken(bots, security, req, botKey);
  }

  /** As written, a `bot_key` query parameter that names no bot is answered 404 on any route, whatever the
      route's own token. */
  lemma UnknownQueryKey(bots: seq<BotCallback>, security: SecurityConfig, route: nat, req: Request,
                        sha256: seq<bv8> -> string)
    requires route < |bots| && "bot_key" in req.query && FindBot(bots, Str(req.query["bot_key"])).None?
    requires IpOk(security.allowIps, req) == Success(true) && !Truthy(security.enableBodyHash)
    requires Payload(req).Success?
    ensures CallbackAsWritten(bots, security, route, req, sha256) == Success(Answer(Refuse(404, "unknown bot"), None))
  {
    UnknownBotRefused(bots, security, req, Str(req.query["bot_key"]), sha256);
  }

  /** The discrepancy: a bot with a token and a bot without one; a request on the first bot's route that
      carries no token but names the second bot is handed to the second bot's adapter as written, and
      refused when the route's own key is used. */
  lemma QueryKeyBypassesToken(a: Adapter.AdapterConfig, b: Adapter.AdapterConfig, security: SecurityConfig,
                              sha256: seq<bv8> -> string)
    requires security.allowIps == Null && security.enableBodyHash == Bool(false)
    ensures var bots := [BotCallback(Str("alpha"), Str("/a"), Str("secret"), a), BotCallback(Str("beta"), Str("/b"), Null, b)];
      var req := Request(map["bot_key" := "beta"], None, map[], [], InvalidJson, "");
      && CallbackAsWritten(bots, security, 0, req, sha256) == Success(Answer(Accepted, Some((1, Obj(map[])))))
      && CallbackFixed(bots, security, 0, req, sha256) == Success(Answer(Refuse(401, "unauthorized"), None))
  {
    var bots := [BotCallback(Str("alpha"), Str("/a"), Str("secret"), a), BotCallback(Str("beta"), Str("/b"), Null, b)];
    var req := Request(map["bot_key" := "beta"], None, map[], [], InvalidJson, "");
    assert FindBot(bots, Str("alpha")) == Some(0);
    assert Str("beta") != Str("alpha");
    assert bots[1..][0].botKey == Str("beta");
    assert FindBot(bots[1..], Str("beta")) == Some(0);
    assert FindBot(bots, Str("beta")) == Some(1);
    assert TokenOf(bots, Str("beta")) == Null;
    assert TokenOf(bots, Str("alpha")) == Str("secret");
    assert Query(req, "token") == None;
  }
}
