/**
 * What the webhook servers see of one POST, and the checks they share:
 * the query token, the client IP against an allowlist, the body-hash header,
 * and the decoding of the body. The HTTP framework, the transport and the
 * SHA-256 digest are not modelled; the digest is a parameter.
 */
module Callback {
  import opened Wrappers
  import opened JsonModel
  import Text

  /** What `json.loads(raw_body.decode("utf-8"))` makes of a non-empty body. */
  datatype Decoded = Decoded(value: Json) | InvalidJson | InvalidUtf8

  /** One POST: query parameters, the client address if the framework knows it, the headers (names in lower
      case), the raw body, how it decodes, and the text of the body decoded with undecodable bytes dropped. */
  datatype Request = Request(
    query: map<string, string>,
    client: Option<string>,
    headers: map<string, string>,
    body: seq<bv8>,
    decoded: Decoded,
    lenientText: string)

  /** A JSON response: status code and body. */
  datatype Reply = Reply(status: int, body: Json)

  /** `{"ok": False, "error": reason}` with a status code. */
  function Refuse(status: int, reason: string): (r: Reply)
    ensures r.status == status && r.body.Obj? && "ok" in r.body.fields && r.body.fields["ok"] == Bool(false)
  {
    Reply(status, Obj(map["ok" := Bool(false), "error" := Str(reason)]))
  }

  const Accepted: Reply := Reply(200, Obj(map["ok" := Bool(true)]))

  /** `query_params.get(name)`. */
  function Query(req: Request, name: string): Option<string> {
    if name in req.query then Some(req.query[name]) else None
  }

  /** `request.client.host if request.client else ""`. */
  function ClientHost(req: Request): string {
    if req.client.Some? then req.client.value else ""
  }

  /** The token test: with a truthy configured token the query's `token` must equal it; otherwise it passes. */
  predicate TokenOk(token: Json, req: Request) {
    Truthy(token) ==> Query(req, "token").Some? && Str(Query(req, "token").value) == token
  }

  /** The allowlist test `client_ip not in allow_ips` under a truthy allowlist; membership follows Python's
      `in` for whatever the configured value is (and raises for a number). */
  function IpOk(allowIps: Json, req: Request): Result<bool> {
    if !Truthy(allowIps) then Success(true) else PyContains(allowIps, ClientHost(req))
  }

  /** `request.headers.get(name)`: header names compare without regard to case; only a string name works. */
  function Header(req: Request, name: Json): Result<Option<string>> {
    if !name.Str? then Failure(AttributeError("lower"))
    else
      var key := Text.Lower(name.s);
      Success(if key in req.headers then Some(req.headers[key]) else None)
  }

  /** `_check_body_hash`: the header must be present, non-empty and equal to the body's hex digest. */
  function BodyHashOk(req: Request, headerName: Json, sha256: seq<bv8> -> string): Result<bool> {
    var header :- Header(req, headerName);
    Success(header.Some? && header.value != "" && sha256(req.body) == header.value)
  }

  /** The payload: `{}` for an empty body; a decode error of the JSON kind is caught by the handlers, one of
      the UTF-8 kind is not. */
  function Payload(req: Request): Result<Json> {
    if req.body == [] then Success(Obj(map[]))
    else
      match req.decoded
      case Decoded(v) => Success(v)
      case InvalidJson => Failure(JsonDecodeError)
      case InvalidUtf8 => Failure(ValueError("utf-8"))
  }

  /** The body hash is rejected whenever the header is missing or empty, whatever the digest. */
  lemma MissingHashHeader(req: Request, headerName: Json, sha256: seq<bv8> -> string)
    requires headerName.Str? && (Text.Lower(headerName.s) !in req.headers || req.headers[Text.Lower(headerName.s)] == "")
    ensures BodyHashOk(req, headerName, sha256) == Success(false)
  {
  }

  /** The hash header's name is matched regardless of its case. */
  lemma HeaderNameCase(req: Request, a: string, b: string)
    requires Text.Lower(a) == Text.Lower(b)
    ensures Header(req, Str(a)) == Header(req, Str(b))
  {
  }
}
