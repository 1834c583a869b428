/**
 * `_download_attachments`, identical in both adapter variants: each
 * attachment without a url gets one resolved from its file id (and keeps it),
 * is fetched with a size cap, and the saved path is appended to the message's
 * `downloaded_files` metadata. The API calls, the hash and the file writes are
 * parameters: `resolve` is `resolve_file_url` (which never raises), `fetch`
 * says whether `download_file(url, max_bytes)` returns, and `md5` is the hex
 * digest used as a default file name.
 */
module Download {
  import opened Wrappers
  import opened JsonModel
  import opened TailchatTypes

  datatype Env = Env(resolve: Json -> Json, fetch: (Json, int) -> bool, md5: string -> string)

  const Mebibyte: int := 1024 * 1024

  /** `max_attachment_mb * 1024 * 1024`; see README for a string or list value. */
  function MaxBytes(mb: Json): (r: Result<int>)
    ensures mb.Int? ==> r == Success(mb.i * 1048576)
    ensures r.Success? ==> mb.Int? || mb.Bool?
  {
    match mb
    case Int(i) => Success(i * Mebibyte)
    case Bool(b) => Success(if b then Mebibyte else 0)
    case _ => Failure(TypeError("unsupported operand type(s) for *"))
  }

  /** POSIX `os.path.join(a, b)`: an absolute `b` replaces `a`; otherwise one '/' separates them. */
  function PathJoin(a: string, b: string): (r: string)
    ensures |b| > 0 && b[0] == '/' ==> r == b
    ensures !(|b| > 0 && b[0] == '/') ==> |r| >= |b| && r[|r| - |b|..] == b
  {
    if |b| > 0 && b[0] == '/' then b
    else if a == [] || a[|a| - 1] == '/' then a + b
    else a + "/" + b
  }

  /** The session directory: the session key, or "default" for an empty one, under the download directory. */
  function SessionDir(downloadDir: string, sessionKey: string): string {
    PathJoin(downloadDir, if sessionKey == "" then "default" else sessionKey)
  }

  /** The url after the resolve step: a falsy url is replaced by the resolved one when there is a file id. */
  function UrlAfterResolve(a: Attachment, env: Env): Json {
    if !Truthy(a.url) && Truthy(a.fileId) then env.resolve(a.fileId) else a.url
  }

  /** One attachment: the attachment as updated, and the saved path when it was downloaded. */
  function Step(a: Attachment, sessionDir: string, maxBytes: int, env: Env): Result<(Attachment, Option<string>)> {
    var url := UrlAfterResolve(a, env);
    var updated := a.(url := url);
    if !Truthy(url) || !env.fetch(url, maxBytes) then Success((updated, None))
    else if a.name == "" && !url.Str? then Failure(AttributeError("encode"))
    else
      var name := if a.name != "" then a.name else env.md5(url.s);
      Success((updated, Some(PathJoin(sessionDir, name))))
  }

  /** The loop over the attachments: the updated attachments, and the saved paths in order. */
  function Steps(atts: seq<Attachment>, sessionDir: string, maxBytes: int, env: Env): Result<(seq<Attachment>, seq<string>)>
    decreases |atts|
  {
    if atts == [] then Success(([], []))
    else
      var init :- Steps(atts[..|atts| - 1], sessionDir, maxBytes, env);
      var last :- Step(atts[|atts| - 1], sessionDir, maxBytes, env);
      Success((init.0 + [last.0], init.1 + (match last.1 case Some(p) => [p] case None => [])))
  }

  /** The whole of `_download_attachments` on a message. */
  function DownloadSpec(msg: IncomingMessage, downloadDir: Json, maxMb: Json, env: Env): Result<IncomingMessage> {
    if msg.attachments == [] then Success(msg)
    else if !downloadDir.Str? then Failure(TypeError("expected str"))
    else
      var maxBytes :- MaxBytes(maxMb);
      var r :- Steps(msg.attachments, SessionDir(downloadDir.s, msg.sessionKey), maxBytes, env);
      Success(msg.(attachments := r.0,
                   metadata := if r.1 == [] then msg.metadata else msg.metadata["downloaded_files" := StrArr(r.1)]))
  }

  /** Once a prefix raises, the whole loop raises with the same error. */
  lemma {:induction false} StepsFailureSticks(atts: seq<Attachment>, k: nat, dir: string, maxBytes: int, env: Env)
    requires k <= |atts| && Steps(atts[..k], dir, maxBytes, env).Failure?
    ensures Steps(atts, dir, maxBytes, env) == Steps(atts[..k], dir, maxBytes, env)
    decreases |atts| - k
  {
    if k < |atts| {
      assert atts[..k + 1][..k] == atts[..k];
      assert Steps(atts[..k + 1], dir, maxBytes, env) == Steps(atts[..k], dir, maxBytes, env);
      StepsFailureSticks(atts, k + 1, dir, maxBytes, env);
    } else {
      assert atts[..k] == atts;
    }
  }

  /** The loop keeps every attachment in place, changing only urls that were falsy; an attachment with neither a
      url nor a resolvable file id, or whose fetch raises, adds no path; every other adds exactly one. */
  lemma {:induction false} StepsShape(atts: seq<Attachment>, dir: string, maxBytes: int, env: Env)
    requires Steps(atts, dir, maxBytes, env).Success?
    ensures var r := Steps(atts, dir, maxBytes, env).value;
      && |r.0| == |atts|
      && (forall i :: 0 <= i < |atts| ==> r.0[i] == atts[i].(url := UrlAfterResolve(atts[i], env)))
      && (forall i :: 0 <= i < |atts| && Truthy(atts[i].url) ==> r.0[i] == atts[i])
      && |r.1| == Fetched(atts, maxBytes, env)
    decreases |atts|
  {
    if atts != [] {
      var init := atts[..|atts| - 1];
      StepsShape(init, dir, maxBytes, env);
      var r := Steps(atts, dir, maxBytes, env).value;
      var ri := Steps(init, dir, maxBytes, env).value;
      forall i | 0 <= i < |atts| ensures r.0[i] == atts[i].(url := UrlAfterResolve(atts[i], env)) {
        if i < |init| {
          assert atts[i] == init[i];
          assert r.0[i] == ri.0[i];
        }
      }
    }
  }

  /** The number of attachments that end up with a truthy url whose fetch returns. */
  function Fetched(atts: seq<Attachment>, maxBytes: int, env: Env): nat
    decreases |atts|
  {
    if atts == [] then 0
    else
      var a := atts[|atts| - 1];
      var url := UrlAfterResolve(a, env);
      Fetched(atts[..|atts| - 1], maxBytes, env) + (if Truthy(url) && env.fetch(url, maxBytes) then 1 else 0)
  }

  /** Saved paths all lie in the session directory unless the attachment's own name is an absolute path. */
  lemma {:induction false} StepsPathsNamed(atts: seq<Attachment>, dir: string, maxBytes: int, env: Env)
    requires Steps(atts, dir, maxBytes, env).Success?
    requires forall i :: 0 <= i < |atts| ==> atts[i].name != "" && atts[i].name[0] != '/'
    ensures forall p :: p in Steps(atts, dir, maxBytes, env).value.1 ==>
      exists i :: 0 <= i < |atts| && p == PathJoin(dir, atts[i].name)
    decreases |atts|
  {
    if atts != [] {
      var init := atts[..|atts| - 1];
      StepsPathsNamed(init, dir, maxBytes, env);
      var r := Steps(atts, dir, maxBytes, env).value;
      var ri := Steps(init, dir, maxBytes, env).value;
      forall p | p in r.1 ensures exists i :: 0 <= i < |atts| && p == PathJoin(dir, atts[i].name) {
        if p in ri.1 {
          var i :| 0 <= i < |init| && p == PathJoin(dir, init[i].name);
          assert atts[i] == init[i];
        } else {
          assert p == PathJoin(dir, atts[|atts| - 1].name);
        }
      }
    }
  }

  /** `_download_attachments`: the message is rebuilt rather than mutated; see README. */
  method DownloadAttachments(msg: IncomingMessage, downloadDir: Json, maxMb: Json, env: Env) returns (r: Result<IncomingMessage>)
    ensures r == DownloadSpec(msg, downloadDir, maxMb, env)
  {
    if msg.attachments == [] {
      return Success(msg);
    }
    if !downloadDir.Str? {
      return Failure(TypeError("expected str"));
    }
    var sessionDir := SessionDir(downloadDir.s, msg.sessionKey);
    var maxBytes := MaxBytes(maxMb);
    if maxBytes.Failure? {
      return Failure(maxBytes.error);
    }
    var atts := msg.attachments;
    var updated: seq<Attachment> := [];
    var files: seq<string> := [];
    var i := 0;
    while i < |atts|
      invariant 0 <= i <= |atts|
      invariant Steps(atts[..i], sessionDir, maxBytes.value, env) == Success((updated, files))
    {
      assert atts[..i + 1][..i] == atts[..i] && atts[..i + 1][i] == atts[i];
      var attachment := atts[i];
      if !Truthy(attachment.url) {
        if Truthy(attachment.fileId) {
          attachment := attachment.(url := env.resolve(attachment.fileId));
        }
      }
      assert attachment == atts[i].(url := UrlAfterResolve(atts[i], env));
      if !Truthy(attachment.url) || !env.fetch(attachment.url, maxBytes.value) {
        assert Step(atts[i], sessionDir, maxBytes.value, env) == Success((attachment, None));
        assert Steps(atts[..i + 1], sessionDir, maxBytes.value, env) == Success((updated + [attachment], files + []));
        assert files + [] == files;
        updated := updated + [attachment];
      } else {
        if attachment.name == "" && !attachment.url.Str? {
          StepsFailureSticks(atts, i + 1, sessionDir, maxBytes.value, env);
          return Failure(AttributeError("encode"));
        }
        var name := if attachment.name != "" then attachment.name else env.md5(attachment.url.s);
        assert Step(atts[i], sessionDir, maxBytes.value, env) == Success((attachment, Some(PathJoin(sessionDir, name))));
        updated := updated + [attachment];
        files := files + [PathJoin(sessionDir, name)];
      }
      i := i + 1;
    }
    assert atts[..|atts|] == atts;
    var metadata := if files == [] then msg.metadata else msg.metadata["downloaded_files" := StrArr(files)];
    return Success(msg.(attachments := updated, metadata := metadata));
  }

  /** The tail of `convert_message`: in "download" mode a converted message goes through the download pass
      (whose exception propagates); otherwise, or for a dropped payload or an exception, the conversion stands. */
  function DownloadPassSpec(mode: Json, downloadDir: Json, maxMb: Json, converted: Result<Option<IncomingMessage>>,
                            env: Env): (r: Result<Option<IncomingMessage>>)
    ensures mode != Str("download") || converted.Failure? || converted.value.None? ==> r == converted
    ensures r.Success? && r.value.Some? ==> converted.Success? && converted.value.Some?
  {
    if mode != Str("download") || converted.Failure? || converted.value.None? then converted
    else
      var d :- DownloadSpec(converted.value.value, downloadDir, maxMb, env);
      Success(Some(d))
  }

  method DownloadPass(mode: Json, downloadDir: Json, maxMb: Json, converted: Result<Option<IncomingMessage>>, env: Env)
    returns (r: Result<Option<IncomingMessage>>)
    ensures r == DownloadPassSpec(mode, downloadDir, maxMb, converted, env)
  {
    if mode != Str("download") || converted.Failure? || converted.value.None? {
      return converted;
    }
    var d := DownloadAttachments(converted.value.value, downloadDir, maxMb, env);
    if d.Failure? {
      return Failure(d.error);
    }
    return Success(Some(d.value));
  }
}
