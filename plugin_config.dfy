/**
 * Configuration of the multi-bot plugin (plugins/tailchat_adapter/__init__.py):
 * `normalize_config` upgrades a legacy single-tenant configuration to one bot,
 * `build_bot_configs` merges section values and defaults into one `BotConfig`
 * per bot entry, and `TailchatPlugin._build` creates the adapters, the
 * router's route map and the callback server's bot list.
 */
module PluginConfig {
  import opened Wrappers
  import opened JsonModel
  import Adapter
  import Router
  import BotServer

  const Empty: Json := Obj(map[])
  const DefaultHost: string := "https://tailchat.msgbyte.com"
  const DefaultCallbackPath: string := "/tailchat/callback"
  const DefaultDownloadDir: string := "./data/tailchat_downloads"
  const DefaultSessionTemplate: string := "{botKey}:{groupId}:{converseId}"

  /** The "defaults" section written for a legacy configuration. */
  function LegacyDefaults(features: map<string, Json>, mapping: map<string, Json>): Json {
    Obj(map[
      "download_dir" := Get(features, "download_dir", Str(DefaultDownloadDir)),
      "max_attachment_mb" := Get(features, "max_attachment_mb", Int(50)),
      "session_key_template" := Get(mapping, "session_key_template", Str(DefaultSessionTemplate))])
  }

  /** The one bot entry a legacy configuration becomes. */
  function LegacyBot(tailchat: map<string, Json>, server: map<string, Json>, security: map<string, Json>,
                     features: map<string, Json>): Json {
    Obj(map[
      "bot_key" := Str("default"),
      "host" := Get(tailchat, "host", Str(DefaultHost)),
      "app_id" := Get(tailchat, "app_id", Str("")),
      "app_secret" := Get(tailchat, "app_secret", Str("")),
      "bot_user_id" := Get(tailchat, "bot_user_id", Null),
      "callback" := Obj(map[
        "path" := Get(server, "callback_path", Str(DefaultCallbackPath)),
        "token" := Get(security, "callback_token", Null)]),
      "features" := Obj(map[
        "require_mention" := Get(features, "require_mention", Bool(true)),
        "attachment_mode" := Get(features, "attachment_mode", Str("url_only"))]),
      "astrbot" := Obj(map["mode" := Str("profile"), "profile_id" := Get(tailchat, "profile_id", Null)])])
  }

  /** A configuration `normalize_config` rewrites: a dict `tailchat` section without truthy `bots` whose app id or
      app secret is truthy. */
  predicate IsLegacy(config: map<string, Json>) {
    && "tailchat" in config && config["tailchat"].Obj?
    && !Truthy(Get(config["tailchat"].fields, "bots", Null))
    && (Truthy(Get(config["tailchat"].fields, "app_id", Null)) || Truthy(Get(config["tailchat"].fields, "app_secret", Null)))
  }

  /** The legacy rewrite: the `server`, `security`, `features` and `mapping` sections are read with `.get`, so
      each must be a dict. */
  function Upgrade(config: map<string, Json>, tailchat: map<string, Json>): Result<map<string, Json>> {
    var server := Get(config, "server", Empty);
    var security := Get(config, "security", Empty);
    var features := Get(config, "features", Empty);
    var mapping := Get(config, "mapping", Empty);
    if !(server.Obj? && security.Obj? && features.Obj? && mapping.Obj?) then Failure(AttributeError("get"))
    else
      var bot := LegacyBot(tailchat, server.fields, security.fields, features.fields);
      Success(config["defaults" := LegacyDefaults(features.fields, mapping.fields)]["tailchat" := Obj(tailchat["bots" := Arr([bot])])])
  }

  /** `normalize_config`. */
  function NormalizeConfig(config: map<string, Json>): (r: Result<map<string, Json>>)
    ensures "tailchat" !in config ==> r == Success(config)
    ensures "tailchat" in config && !config["tailchat"].Obj? ==> r == Failure(AttributeError("get"))
    ensures "tailchat" in config && config["tailchat"].Obj? && !IsLegacy(config) ==> r == Success(config)
  {
    if "tailchat" !in config then Success(config)
    else
      var tailchat := config["tailchat"];
      if !tailchat.Obj? then Failure(AttributeError("get"))
      else if Truthy(Get(tailchat.fields, "bots", Null)) then Success(config)
      else if Truthy(Get(tailchat.fields, "app_id", Null)) || Truthy(Get(tailchat.fields, "app_secret", Null)) then
        Upgrade(config, tailchat.fields)
      else Success(config)
  }

  /** A legacy configuration becomes exactly one bot keyed "default", with the callback path of the `server`
      section (or "/tailchat/callback"), the token of the `security` section and route mode "profile"; every
      other key of the configuration and of its `tailchat` section is kept. */
  lemma LegacyBecomesOneBot(config: map<string, Json>)
    requires IsLegacy(config) && NormalizeConfig(config).Success?
    ensures var n := NormalizeConfig(config).value;
      var server := Get(config, "server", Empty);
      var security := Get(config, "security", Empty);
      && server.Obj? && security.Obj?
      && "tailchat" in n && n["tailchat"].Obj? && "bots" in n["tailchat"].fields
      && n["tailchat"].fields["bots"].Arr? && |n["tailchat"].fields["bots"].items| == 1
      && var bot := n["tailchat"].fields["bots"].items[0];
      && Get(config, "features", Empty).Obj?
      && bot == LegacyBot(config["tailchat"].fields, server.fields, security.fields, Get(config, "features", Empty).fields)
      && bot.Obj? && "bot_key" in bot.fields && bot.fields["bot_key"] == Str("default")
      && "callback" in bot.fields && bot.fields["callback"] == Obj(map[
           "path" := Get(server.fields, "callback_path", Str(DefaultCallbackPath)),
           "token" := Get(security.fields, "callback_token", Null)])
      && "astrbot" in bot.fields && bot.fields["astrbot"].Obj? && "mode" in bot.fields["astrbot"].fields
      && bot.fields["astrbot"].fields["mode"] == Str("profile")
      && (forall k :: k in config["tailchat"].fields && k != "bots" ==>
            k in n["tailchat"].fields && n["tailchat"].fields[k] == config["tailchat"].fields[k])
      && (forall k :: k in config && k != "defaults" && k != "tailchat" ==> k in n && n[k] == config[k])
  {
  }

  /** A legacy configuration whose `server`, `security`, `features` or `mapping` value is not a dict raises. */
  lemma LegacySectionsMustBeDicts(config: map<string, Json>)
    requires IsLegacy(config)
    requires !Get(config, "server", Empty).Obj? || !Get(config, "security", Empty).Obj?
          || !Get(config, "features", Empty).Obj? || !Get(config, "mapping", Empty).Obj?
    ensures NormalizeConfig(config) == Failure(AttributeError("get"))
  {
  }

  /** Normalizing a normalized configuration changes nothing more. */
  lemma NormalizeIdempotent(config: map<string, Json>)
    requires NormalizeConfig(config).Success?
    ensures NormalizeConfig(NormalizeConfig(config).value) == NormalizeConfig(config)
  {
    if IsLegacy(config) {
      var n := NormalizeConfig(config).value;
      LegacyBecomesOneBot(config);
      assert Truthy(Get(n["tailchat"].fields, "bots", Null));
    }
  }

  /** `BotConfig`. Its values come from the configuration file unchecked, so they are `Json`. */
  datatype BotConfig = BotConfig(
    botKey: Json,
    host: Json,
    appId: Json,
    appSecret: Json,
    botUserId: Json,
    callbackPath: Json,
    callbackToken: Json,
    features: map<string, Json>,
    openapiBase: Json,
    loginPath: Json,
    sendMessagePath: Json,
    fileUrlPath: Json,
    uploadPath: Json,
    astrbot: Router.RouteConfig)

  /** `bot_data.get(key) or tailchat_defaults.get(key, default)`: the bot's own value when truthy, else the
      `tailchat` section's, else the default. */
  function Fallback(bot: map<string, Json>, section: map<string, Json>, key: string, default: Json): (v: Json)
    ensures Truthy(Get(bot, key, Null)) ==> v == bot[key]
    ensures !Truthy(Get(bot, key, Null)) && key in section ==> v == section[key]
    ensures !Truthy(Get(bot, key, Null)) && key !in section ==> v == default
  {
    Or(Get(bot, key, Null), Get(section, key, default))
  }

  /** `base_features`; `defaults` is read with `.get`, so it must be a dict. */
  function BaseFeatures(defaults: Json): (r: Result<map<string, Json>>)
    ensures r.Success? <==> defaults.Obj?
    ensures r.Success? ==> r.value.Keys == {"require_mention", "attachment_mode", "download_dir", "max_attachment_mb", "session_key_template"}
    ensures r.Success? ==> r.value["require_mention"] == Bool(true) && r.value["attachment_mode"] == Str("url_only")
  {
    if !defaults.Obj? then Failure(AttributeError("get"))
    else Success(map[
      "require_mention" := Bool(true),
      "attachment_mode" := Str("url_only"),
      "download_dir" := Get(defaults.fields, "download_dir", Str(DefaultDownloadDir)),
      "max_attachment_mb" := Get(defaults.fields, "max_attachment_mb", Int(50)),
      "session_key_template" := Get(defaults.fields, "session_key_template", Str(DefaultSessionTemplate))])
  }

  /** The route of one bot: `astrbot` with mode "profile" by default. */
  function RouteOf(astrbot: map<string, Json>): Router.RouteConfig {
    Router.RouteConfig(Get(astrbot, "mode", Str("profile")), Get(astrbot, "profile_id", Null), Get(astrbot, "backend_url", Null))
  }

  /** A bot entry that `build_bot_configs` can read: a dict whose `features` is a dict (it is merged with `**`),
      whose `callback` is a dict and whose `astrbot` is a dict or falsy (both are read with `.get`). */
  predicate Readable(bot: Json) {
    && bot.Obj?
    && Get(bot.fields, "features", Empty).Obj?
    && Get(bot.fields, "callback", Empty).Obj?
    && Or(Get(bot.fields, "astrbot", Empty), Empty).Obj?
  }

  /** The fields of one `BotConfig`, once its `features`, `callback` and `astrbot` values are known to be dicts. */
  function Entry(index: nat, b: map<string, Json>, section: map<string, Json>, features: map<string, Json>,
                 callback: map<string, Json>, astrbot: map<string, Json>): BotConfig {
    BotConfig(
      Or(Get(b, "bot_key", Null), Str("bot_" + NatToString(index + 1))),
      Fallback(b, section, "host", Str(DefaultHost)),
      Fallback(b, section, "app_id", Str("")),
      Fallback(b, section, "app_secret", Str("")),
      Fallback(b, section, "bot_user_id", Null),
      Get(callback, "path", Str(DefaultCallbackPath)),
      Get(callback, "token", Null),
      features,
      Fallback(b, section, "openapi_base", Str("/api/openapi")),
      Fallback(b, section, "login_path", Str("/bot/login")),
      Fallback(b, section, "send_message_path", Str("/bot/sendMessage")),
      Fallback(b, section, "file_url_path", Str("/bot/file")),
      Fallback(b, section, "upload_path", Str("/bot/upload")),
      RouteOf(astrbot))
  }

  /** The `BotConfig` of the bot entry at `index`. */
  function BotOf(index: nat, bot: Json, base: map<string, Json>, section: map<string, Json>): (r: Result<BotConfig>)
    ensures r.Success? <==> Readable(bot)
    ensures r.Success? && !Truthy(Get(bot.fields, "bot_key", Null)) ==> r.value.botKey == Str("bot_" + NatToString(index + 1))
    ensures r.Success? && Truthy(Get(bot.fields, "bot_key", Null)) ==> r.value.botKey == bot.fields["bot_key"]
  {
    if !bot.Obj? then Failure(AttributeError("get"))
    else
      var b := bot.fields;
      var own := Get(b, "features", Empty);
      if !own.Obj? then Failure(TypeError("'features' is not a mapping"))
      else
        var callback := Get(b, "callback", Empty);
        var astrbot := Or(Get(b, "astrbot", Empty), Empty);
        if !callback.Obj? || !astrbot.Obj? then Failure(AttributeError("get"))
        else Success(Entry(index, b, section, base + own.fields, callback.fields, astrbot.fields))
  }

  /** The features of a bot are the base features overridden key by key by the bot's own. */
  lemma FeaturesOverride(index: nat, bot: Json, base: map<string, Json>, section: map<string, Json>)
    requires BotOf(index, bot, base, section).Success?
    ensures var f := BotOf(index, bot, base, section).value.features;
      var own := Get(bot.fields, "features", Empty).fields;
      && (forall k :: k in f <==> k in base || k in own)
      && (forall k :: k in own ==> f[k] == own[k])
      && (forall k :: k in base && k !in own ==> f[k] == base[k])
  {
  }

  /** Each connection field is the bot's value when truthy, else the section's, else the built-in default; the
      callback path and token come from the bot's `callback` dict. */
  lemma ConnectionFields(index: nat, bot: Json, base: map<string, Json>, section: map<string, Json>)
    requires BotOf(index, bot, base, section).Success?
    ensures var c := BotOf(index, bot, base, section).value;
      var b := bot.fields;
      && c.host == Fallback(b, section, "host", Str(DefaultHost))
      && c.openapiBase == Fallback(b, section, "openapi_base", Str("/api/openapi"))
      && c.loginPath == Fallback(b, section, "login_path", Str("/bot/login"))
      && c.sendMessagePath == Fallback(b, section, "send_message_path", Str("/bot/sendMessage"))
      && c.fileUrlPath == Fallback(b, section, "file_url_path", Str("/bot/file"))
      && c.uploadPath == Fallback(b, section, "upload_path", Str("/bot/upload"))
      && c.callbackPath == Get(Get(b, "callback", Empty).fields, "path", Str(DefaultCallbackPath))
      && c.callbackToken == Get(Get(b, "callback", Empty).fields, "token", Null)
  {
  }

  /** The outcomes of a loop body run on each element in turn, gathered as the loop does: the values in order,
      or the first failure. */
  function Collect<T>(rs: seq<Result<T>>): Result<seq<T>>
    decreases |rs|
  {
    if rs == [] then Success([])
    else
      var init :- Collect(rs[..|rs| - 1]);
      var last :- rs[|rs| - 1];
      Success(init + [last])
  }

  /** A failure part-way through is the failure of the whole loop. */
  lemma {:induction false} CollectFailureSticks<T>(rs: seq<Result<T>>, k: nat)
    requires k <= |rs| && Collect(rs[..k]).Failure?
    ensures Collect(rs) == Collect(rs[..k])
    decreases |rs| - k
  {
    if k < |rs| {
      assert rs[..k + 1][..k] == rs[..k];
      CollectFailureSticks(rs, k + 1);
    } else {
      assert rs[..k] == rs;
    }
  }

  /** The loop succeeds exactly when every step does, and then yields step i's value at position i. */
  lemma {:induction false} CollectEach<T>(rs: seq<Result<T>>)
    ensures Collect(rs).Success? <==> forall i :: 0 <= i < |rs| ==> rs[i].Success?
    ensures Collect(rs).Success? ==>
      |Collect(rs).value| == |rs| && forall i :: 0 <= i < |rs| ==> Collect(rs).value[i] == rs[i].value
    decreases |rs|
  {
    if rs != [] {
      var init := rs[..|rs| - 1];
      CollectEach(init);
      assert forall i :: 0 <= i < |init| ==> init[i] == rs[i];
    }
  }

  /** The loop body of `build_bot_configs` on every entry, with its index. */
  function Outcomes(items: seq<Json>, base: map<string, Json>, section: map<string, Json>): (rs: seq<Result<BotConfig>>)
    ensures |rs| == |items| && forall i :: 0 <= i < |items| ==> rs[i] == BotOf(i, items[i], base, section)
  {
    seq(|items|, i requires 0 <= i < |items| => BotOf(i, items[i], base, section))
  }

  /** The loop of `build_bot_configs` over the bot entries: one `BotConfig` per entry, in order; the first entry
      that cannot be read raises. */
  function BotsFrom(items: seq<Json>, base: map<string, Json>, section: map<string, Json>): Result<seq<BotConfig>> {
    Collect(Outcomes(items, base, section))
  }

  /** The loop succeeds exactly when every entry is readable, and then yields entry i's `BotConfig` at i. */
  lemma BotsFromEach(items: seq<Json>, base: map<string, Json>, section: map<string, Json>)
    ensures BotsFrom(items, base, section).Success? <==> forall i :: 0 <= i < |items| ==> Readable(items[i])
    ensures BotsFrom(items, base, section).Success? ==>
      && |BotsFrom(items, base, section).value| == |items|
      && forall i :: 0 <= i < |items| ==>
           BotOf(i, items[i], base, section).Success? && BotsFrom(items, base, section).value[i] == BotOf(i, items[i], base, section).value
  {
    CollectEach(Outcomes(items, base, section));
  }

  /** The loop of `build_bot_configs`. */
  method BuildBots(items: seq<Json>, base: map<string, Json>, section: map<string, Json>) returns (r: Result<seq<BotConfig>>)
    ensures r == BotsFrom(items, base, section)
  {
    ghost var rs := Outcomes(items, base, section);
    var bots: seq<BotConfig> := [];
    var i := 0;
    while i < |items|
      invariant 0 <= i <= |items|
      invariant Collect(rs[..i]) == Success(bots)
    {
      assert rs[..i + 1][..i] == rs[..i];
      var bot := BotOf(i, items[i], base, section);
      assert rs[..i + 1][i] == bot;
      if bot.Failure? {
        CollectFailureSticks(rs, i + 1);
        return Failure(bot.error);
      }
      bots := bots + [bot.value];
      i := i + 1;
    }
    assert rs[..i] == rs;
    return Success(bots);
  }

  /** `enumerate(bots_data)` as the loop body sees it: a list gives its items; a non-empty dict or string gives
      keys or characters, on which `.get` raises; numbers, booleans and None are not iterable. */
  function BotItems(botsData: Json): Result<seq<Json>> {
    match botsData
    case Arr(xs) => Success(xs)
    case Obj(m) => if m == map[] then Success([]) else Failure(AttributeError("get"))
    case Str(s) => if s == "" then Success([]) else Failure(AttributeError("get"))
    case _ => Failure(TypeError("object is not iterable"))
  }

  /** `ServerConfig(...)` from the `server` section. */
  function ServerConfigOf(server: Json): Result<BotServer.ServerConfig> {
    if !server.Obj? then Failure(AttributeError("get"))
    else Success(BotServer.ServerConfig(Get(server.fields, "listen_host", Str("0.0.0.0")), Get(server.fields, "listen_port", Int(8088))))
  }

  /** `SecurityConfig(...)` from the `security` section. */
  function SecurityConfigOf(security: Json): Result<BotServer.SecurityConfig> {
    if !security.Obj? then Failure(AttributeError("get"))
    else Success(BotServer.SecurityConfig(
      Get(security.fields, "allow_ips", Arr([])),
      Get(security.fields, "enable_body_hash", Bool(false)),
      Get(security.fields, "body_hash_header", Str("X-Body-Hash"))))
  }

  /** What `build_bot_configs` reads before its loop. */
  datatype Prepared = Prepared(items: seq<Json>, base: map<string, Json>, section: map<string, Json>,
                               server: BotServer.ServerConfig, security: BotServer.SecurityConfig)

  /** The statements of `build_bot_configs` before the loop, in their order. */
  function Prepare(config: map<string, Json>): Result<Prepared> {
    var normalized :- NormalizeConfig(config);
    var section := Get(normalized, "tailchat", Empty);
    var botsData :- DictGet(section, "bots", Arr([]));
    var server :- ServerConfigOf(Get(normalized, "server", Empty));
    var security :- SecurityConfigOf(Get(normalized, "security", Empty));
    var base :- BaseFeatures(Get(normalized, "defaults", Empty));
    var items :- BotItems(botsData);
    Success(Prepared(items, base, section.fields, server, security))
  }

  /** The result of `build_bot_configs`. */
  datatype Configs = Configs(bots: seq<BotConfig>, server: BotServer.ServerConfig, security: BotServer.SecurityConfig)

  /** `build_bot_configs` as a function. */
  function BotConfigs(config: map<string, Json>): Result<Configs> {
    var p :- Prepare(config);
    var bots :- BotsFrom(p.items, p.base, p.section);
    Success(Configs(bots, p.server, p.security))
  }

  /** `build_bot_configs`. */
  method BuildBotConfigs(config: map<string, Json>) returns (r: Result<Configs>)
    ensures r == BotConfigs(config)
  {
    var p := Prepare(config);
    if p.Failure? {
      return Failure(p.error);
    }
    var bots := BuildBots(p.value.items, p.value.base, p.value.section);
    if bots.Failure? {
      return Failure(bots.error);
    }
    return Success(Configs(bots.value, p.value.server, p.value.security));
  }

  /** What the loop of `build_bot_configs` receives: the entries and the `tailchat` section of the normalized
      configuration. */
  lemma PrepareReadsBots(config: map<string, Json>)
    requires Prepare(config).Success?
    ensures NormalizeConfig(config).Success?
    ensures var n := NormalizeConfig(config).value;
      "tailchat" in n && n["tailchat"].Obj? && "bots" in n["tailchat"].fields && n["tailchat"].fields["bots"].Arr? ==>
        Prepare(config).value.items == n["tailchat"].fields["bots"].items && Prepare(config).value.section == n["tailchat"].fields
  {
  }

  /** A readable entry's `BotConfig` is built from its own dicts. */
  lemma BotOfReadable(index: nat, bot: Json, base: map<string, Json>, section: map<string, Json>)
    requires Readable(bot)
    ensures BotOf(index, bot, base, section) == Success(Entry(index, bot.fields, section,
      base + Get(bot.fields, "features", Empty).fields, Get(bot.fields, "callback", Empty).fields,
      Or(Get(bot.fields, "astrbot", Empty), Empty).fields))
  {
  }

  /** The legacy bot entry reads as the bot keyed "default" in mode "profile" with the legacy callback. */
  lemma LegacyEntry(tailchat: map<string, Json>, server: map<string, Json>, security: map<string, Json>,
                    features: map<string, Json>, base: map<string, Json>, section: map<string, Json>)
    ensures var r := BotOf(0, LegacyBot(tailchat, server, security, features), base, section);
      && r.Success? && r.value.botKey == Str("default") && r.value.astrbot.mode == Str("profile")
      && r.value.callbackPath == Get(server, "callback_path", Str(DefaultCallbackPath))
      && r.value.callbackToken == Get(security, "callback_token", Null)
  {
    var bot := LegacyBot(tailchat, server, security, features);
    LegacyBotShape(tailchat, server, security, features);
    BotOfReadable(0, bot, base, section);
  }

  /** The dicts the legacy bot entry holds. */
  lemma LegacyBotShape(tailchat: map<string, Json>, server: map<string, Json>, security: map<string, Json>,
                       features: map<string, Json>)
    ensures var bot := LegacyBot(tailchat, server, security, features);
      && Readable(bot)
      && Get(bot.fields, "bot_key", Null) == Str("default")
      && Get(bot.fields, "callback", Empty) == Obj(map["path" := Get(server, "callback_path", Str(DefaultCallbackPath)),
                                                       "token" := Get(security, "callback_token", Null)])
      && Get(bot.fields, "astrbot", Empty) == Obj(map["mode" := Str("profile"), "profile_id" := Get(tailchat, "profile_id", Null)])
  {
  }

  /** Through `build_bot_configs`, a legacy configuration yields exactly one bot: key "default", route mode
      "profile", and the callback path and token of its `server` and `security` sections. */
  lemma LegacyConfigOneBot(config: map<string, Json>)
    requires IsLegacy(config) && BotConfigs(config).Success?
    ensures var bots := BotConfigs(config).value.bots;
      var server := Get(config, "server", Empty);
      var security := Get(config, "security", Empty);
      && server.Obj? && security.Obj?
      && |bots| == 1 && bots[0].botKey == Str("default") && bots[0].astrbot.mode == Str("profile")
      && bots[0].callbackPath == Get(server.fields, "callback_path", Str(DefaultCallbackPath))
      && bots[0].callbackToken == Get(security.fields, "callback_token", Null)
  {
    var p := Prepare(config).value;
    PrepareReadsBots(config);
    LegacyBecomesOneBot(config);
    var server := Get(config, "server", Empty).fields;
    var security := Get(config, "security", Empty).fields;
    var features := Get(config, "features", Empty).fields;
    assert p.items == [LegacyBot(config["tailchat"].fields, server, security, features)];
    LegacyEntry(config["tailchat"].fields, server, security, features, p.base, p.section);
    BotsFromEach(p.items, p.base, p.section);
  }

  /** A configuration with bot entries yields one `BotConfig` per entry, in order, keyed `bot_<n>` when the entry
      has no truthy key. */
  lemma BotsInOrder(config: map<string, Json>)
    requires "tailchat" in config && config["tailchat"].Obj? && "bots" in config["tailchat"].fields
    requires config["tailchat"].fields["bots"].Arr? && config["tailchat"].fields["bots"].items != []
    requires BotConfigs(config).Success?
    ensures var items := config["tailchat"].fields["bots"].items;
      var bots := BotConfigs(config).value.bots;
      && |bots| == |items|
      && forall i :: 0 <= i < |items| ==>
           (items[i].Obj? && (!Truthy(Get(items[i].fields, "bot_key", Null)) ==> bots[i].botKey == Str("bot_" + NatToString(i + 1))))
  {
    var p := Prepare(config).value;
    assert p.items == config["tailchat"].fields["bots"].items;
    BotsFromEach(p.items, p.base, p.section);
  }

  /** The adapter configuration `_build` makes of one bot; features missing from the bot's dict take the
      dataclass defaults. */
  function AdapterOf(bot: BotConfig): Adapter.AdapterConfig {
    Adapter.AdapterConfig(
      bot.botKey, bot.host, bot.appId, bot.appSecret,
      Get(bot.features, "require_mention", Bool(true)),
      Get(bot.features, "attachment_mode", Str("url_only")),
      Get(bot.features, "download_dir", Str(DefaultDownloadDir)),
      Get(bot.features, "max_attachment_mb", Int(50)),
      Get(bot.features, "session_key_template", Str(DefaultSessionTemplate)),
      bot.botUserId, bot.openapiBase, bot.loginPath, bot.sendMessagePath, bot.fileUrlPath, bot.uploadPath)
  }

  /** The API client an adapter creates calls `rstrip` on its host and its OpenAPI base, so both must be strings. */
  predicate ApiBuilds(bot: BotConfig) {
    bot.host.Str? && bot.openapiBase.Str?
  }

  /** Every bot key can be a dict key. */
  predicate AllHashable(bots: seq<BotConfig>) {
    forall i :: 0 <= i < |bots| ==> Hashable(bots[i].botKey)
  }

  /** The index of the first bot whose adapter cannot be created, or the number of bots. */
  function FirstBroken(bots: seq<BotConfig>): (n: nat)
    ensures n <= |bots|
    ensures forall i :: 0 <= i < n ==> ApiBuilds(bots[i])
    ensures n < |bots| ==> !ApiBuilds(bots[n])
    decreases |bots|
  {
    if bots == [] || !ApiBuilds(bots[0]) then 0 else 1 + FirstBroken(bots[1..])
  }

  /** `{bot.bot_key: bot.astrbot for bot in bots}`: a later duplicate key replaces an earlier one. */
  function RouteMap(bots: seq<BotConfig>): (m: map<Json, Router.RouteConfig>)
    ensures forall i :: 0 <= i < |bots| ==> bots[i].botKey in m
    decreases |bots|
  {
    if bots == [] then map[]
    else RouteMap(bots[..|bots| - 1])[bots[|bots| - 1].botKey := bots[|bots| - 1].astrbot]
  }

  /** The adapter dict after the loop of `_build` has stored one adapter per bot; a later duplicate key replaces an
      earlier one. */
  function AdaptersAfter(start: map<Json, Adapter.AdapterConfig>, bots: seq<BotConfig>): (m: map<Json, Adapter.AdapterConfig>)
    ensures forall i :: 0 <= i < |bots| ==> bots[i].botKey in m
    decreases |bots|
  {
    if bots == [] then start
    else AdaptersAfter(start, bots[..|bots| - 1])[bots[|bots| - 1].botKey := AdapterOf(bots[|bots| - 1])]
  }

  /** A bot key maps to the adapter of the last bot carrying it. */
  lemma {:induction false} LastDuplicateWins(start: map<Json, Adapter.AdapterConfig>, bots: seq<BotConfig>, i: nat)
    requires i < |bots| && forall j :: i < j < |bots| ==> bots[j].botKey != bots[i].botKey
    ensures AdaptersAfter(start, bots)[bots[i].botKey] == AdapterOf(bots[i])
    ensures RouteMap(bots)[bots[i].botKey] == bots[i].astrbot
    decreases |bots|
  {
    if i < |bots| - 1 {
      var init := bots[..|bots| - 1];
      assert init[i] == bots[i];
      LastDuplicateWins(start, init, i);
    }
  }

  /** The callback server's bot list: per bot, in order, the adapter now stored under its key. */
  function Callbacks(bots: seq<BotConfig>, adapters: map<Json, Adapter.AdapterConfig>): (cbs: seq<BotServer.BotCallback>)
    requires forall i :: 0 <= i < |bots| ==> bots[i].botKey in adapters
    ensures |cbs| == |bots|
    ensures forall i :: 0 <= i < |bots| ==>
      cbs[i].botKey == bots[i].botKey && cbs[i].callbackPath == bots[i].callbackPath
      && cbs[i].callbackToken == bots[i].callbackToken && cbs[i].adapter == adapters[bots[i].botKey]
  {
    seq(|bots|, i requires 0 <= i < |bots| => BotServer.BotCallback(bots[i].botKey, bots[i].callbackPath, bots[i].callbackToken, adapters[bots[i].botKey]))
  }

  /** Two bots with the same key both get the adapter of the later one. */
  lemma DuplicateKeysShareAdapter(start: map<Json, Adapter.AdapterConfig>, bots: seq<BotConfig>, i: nat, j: nat)
    requires i <= j < |bots| && bots[i].botKey == bots[j].botKey
    requires forall k :: j < k < |bots| ==> bots[k].botKey != bots[j].botKey
    ensures Callbacks(bots, AdaptersAfter(start, bots))[i].adapter == AdapterOf(bots[j])
  {
    LastDuplicateWins(start, bots, j);
  }

  /** The callback server `_build` creates. */
  datatype CallbackServer = CallbackServer(bots: seq<BotServer.BotCallback>, config: BotServer.ServerConfig,
                                           security: BotServer.SecurityConfig)

  /** What `_build` raises, if anything: `build_bot_configs`, then the route-map comprehension (an unhashable bot
      key), then an adapter whose API client cannot be created. */
  function BuildOutcome(config: map<string, Json>): Result<Configs> {
    var configs :- BotConfigs(config);
    WireOutcome(configs)
  }

  /** The part of `BuildOutcome` past `build_bot_configs`. */
  function WireOutcome(configs: Configs): Result<Configs> {
    if !AllHashable(configs.bots) then Failure(TypeError("unhashable type"))
    else if FirstBroken(configs.bots) < |configs.bots| then Failure(AttributeError("rstrip"))
    else Success(configs)
  }

  /** `TailchatPlugin` after `__post_init__`: the adapter dict, the router and the callback server. */
  class Plugin {
    const hasHandler: bool
    var adapters: map<Json, Adapter.AdapterConfig>
    var router: Option<Router.Router>
    var server: Option<CallbackServer>

    constructor(hasHandler: bool)
      ensures this.hasHandler == hasHandler && adapters == map[] && router == None && server == None
    {
      this.hasHandler := hasHandler;
      adapters := map[];
      router := None;
      server := None;
    }

    /** `_build`. The router shares the adapter dict, so its adapter keys are the dict's keys at the end, even
        when an adapter fails part-way. */
    method Build(config: map<string, Json>) returns (r: Result<Configs>)
      modifies this
      ensures r == BuildOutcome(config)
      ensures BotConfigs(config).Failure? || !AllHashable(BotConfigs(config).value.bots) ==>
        adapters == old(adapters) && router == old(router) && server == old(server)
      ensures BotConfigs(config).Success? && AllHashable(BotConfigs(config).value.bots) ==>
        var bots := BotConfigs(config).value.bots;
        && adapters == AdaptersAfter(old(adapters), bots[..FirstBroken(bots)])
        && router == Some(Router.Router(adapters.Keys, RouteMap(bots), hasHandler))
        && (FirstBroken(bots) < |bots| ==> server == old(server))
      ensures r.Success? ==>
        && adapters == AdaptersAfter(old(adapters), r.value.bots)
        && server == Some(CallbackServer(Callbacks(r.value.bots, adapters), r.value.server, r.value.security))
    {
      var configs := BuildBotConfigs(config);
      if configs.Failure? {
        return configs;
      }
      r := Wire(configs.value);
    }

    /** `_build` past `build_bot_configs`: the route map, the adapters, then the callback server. */
    method Wire(configs: Configs) returns (r: Result<Configs>)
      modifies this
      ensures r == WireOutcome(configs)
      ensures !AllHashable(configs.bots) ==> adapters == old(adapters) && router == old(router) && server == old(server)
      ensures AllHashable(configs.bots) ==>
        && adapters == AdaptersAfter(old(adapters), configs.bots[..FirstBroken(configs.bots)])
        && router == Some(Router.Router(adapters.Keys, RouteMap(configs.bots), hasHandler))
        && (FirstBroken(configs.bots) < |configs.bots| ==> server == old(server))
      ensures r.Success? ==>
        && adapters == AdaptersAfter(old(adapters), configs.bots)
        && server == Some(CallbackServer(Callbacks(configs.bots, adapters), configs.server, configs.security))
    {
      var bots := configs.bots;
      if exists i :: 0 <= i < |bots| && !Hashable(bots[i].botKey) {
        return Failure(TypeError("unhashable type"));
      }
      var routes := RouteMap(bots);
      var stored := StoreAdapters(bots);
      router := Some(Router.Router(adapters.Keys, routes, hasHandler));
      if stored < |bots| {
        return Failure(AttributeError("rstrip"));
      }
      assert bots[..stored] == bots;
      server := Some(CallbackServer(Callbacks(bots, adapters), configs.server, configs.security));
      return Success(configs);
    }

    /** The loop of `_build` storing one adapter per bot, up to the first whose API client cannot be created. */
    method StoreAdapters(bots: seq<BotConfig>) returns (stored: nat)
      modifies this
      ensures stored == FirstBroken(bots)
      ensures adapters == AdaptersAfter(old(adapters), bots[..stored])
      ensures router == old(router) && server == old(server)
    {
      var i := 0;
      while i < |bots|
        invariant 0 <= i <= |bots| && i <= FirstBroken(bots)
        invariant adapters == AdaptersAfter(old(adapters), bots[..i])
        invariant router == old(router) && server == old(server)
      {
        if !ApiBuilds(bots[i]) {
          return i;
        }
        assert bots[..i + 1][..i] == bots[..i];
        adapters := adapters[bots[i].botKey := AdapterOf(bots[i])];
        i := i + 1;
      }
      return i;
    }
  }
}
