/** src/config.rs: finding and reading the configuration file, and the environment
    overrides applied to a configuration in place. The filesystem, the two parsers and
    the process environment are passed in. */
module ConfigLoader {
  import opened Wrappers
  import opened Types
  import opened Text

  /** The candidate files, in the order they are tried. */
  const ConfigPaths: seq<string> := [
    "config.toml",
    "config.json",
    "/etc/glitchtip-relay/config.toml",
    "/etc/glitchtip-relay/config.json"
  ]

  /** What the loader sees of the outside: which paths exist, what reading a file
      gives (its text or the I/O error), and what the TOML and JSON parsers make of a
      text (a configuration or the parser's message). */
  datatype ConfigSources = ConfigSources(
    existing: set<string>,
    read: string -> Result<string, string>,
    parseToml: string -> Result<Config, string>,
    parseJson: string -> Result<Config, string>)

  predicate EndsWith(s: string, suffix: string) {
    |suffix| <= |s| && s[|s| - |suffix|..] == suffix
  }

  /** `load_from_file`: read the file, then parse it as TOML for a ".toml" path and as
      JSON for a ".json" path; any other suffix is refused. */
  function LoadFromFile(path: string, src: ConfigSources): (r: Result<Config, string>)
    ensures src.read(path).Err? ==> r == Err(src.read(path).error)
    ensures src.read(path).Ok? && EndsWith(path, ".toml") ==>
      r == match src.parseToml(src.read(path).value)
           case Ok(c) => Ok(c)
           case Err(e) => Err("Failed to parse TOML: " + e)
    ensures src.read(path).Ok? && !EndsWith(path, ".toml") && EndsWith(path, ".json") ==>
      r == match src.parseJson(src.read(path).value)
           case Ok(c) => Ok(c)
           case Err(e) => Err("Failed to parse JSON: " + e)
    ensures src.read(path).Ok? && !EndsWith(path, ".toml") && !EndsWith(path, ".json") ==>
      r == Err("Unsupported config file format")
  {
    var content :- src.read(path);
    if EndsWith(path, ".toml") then
      match src.parseToml(content)
      case Ok(c) => Ok(c)
      case Err(e) => Err("Failed to parse TOML: " + e)
    else if EndsWith(path, ".json") then
      match src.parseJson(content)
      case Ok(c) => Ok(c)
      case Err(e) => Err("Failed to parse JSON: " + e)
    else Err("Unsupported config file format")
  }

  /** Every candidate has a suffix `load_from_file` accepts. */
  lemma ConfigPathsHaveKnownSuffix()
    ensures forall i :: 0 <= i < |ConfigPaths| ==> EndsWith(ConfigPaths[i], ".toml") != EndsWith(ConfigPaths[i], ".json")
  {
  }

  /** `ConfigManager::load`: the first candidate that exists is loaded, and its result,
      success or failure, is the answer (a later candidate is never tried); with no
      candidate present the answer is `Config::default()`. */
  method Load(src: ConfigSources) returns (r: Result<Config, string>)
    ensures (forall i :: 0 <= i < |ConfigPaths| ==> ConfigPaths[i] !in src.existing) ==> r == Ok(DefaultConfig())
    ensures forall i :: 0 <= i < |ConfigPaths| && ConfigPaths[i] in src.existing
                        && (forall k :: 0 <= k < i ==> ConfigPaths[k] !in src.existing)
                        ==> r == LoadFromFile(ConfigPaths[i], src)
  {
    var paths := ConfigPaths;
    for i := 0 to |paths|
      invariant forall k :: 0 <= k < i ==> paths[k] !in src.existing
    {
      if paths[i] in src.existing {
        return LoadFromFile(paths[i], src);
      }
    }
    return Ok(DefaultConfig());
  }

  // ---- environment overrides ----

  /** The new `server_port`: the value of PORT when it is set and parses as a `u16`,
      the old port otherwise. */
  function PortOverride(port: U16, env: map<string, string>): (r: U16)
    ensures "PORT" in env && ParseU16(env["PORT"]).Some? ==> r == ParseU16(env["PORT"]).value
    ensures !("PORT" in env && ParseU16(env["PORT"]).Some?) ==> r == port
  {
    if "PORT" in env then
      match ParseU16(env["PORT"])
      case Some(p) => p
      case None => port
    else port
  }

  /** The entry FEISHU_WEBHOOK_URL adds when it is set and not empty. */
  function EnvWebhook(env: map<string, string>): (r: Option<FeishuWebhookConfig>)
    ensures r.Some? <==> "FEISHU_WEBHOOK_URL" in env && env["FEISHU_WEBHOOK_URL"] != ""
    ensures r.Some? ==>
              && r.value.name == "env_webhook" && r.value.enabled
              && r.value.url == env["FEISHU_WEBHOOK_URL"]
              && r.value.secret == (if "FEISHU_WEBHOOK_SECRET" in env then Some(env["FEISHU_WEBHOOK_SECRET"]) else None)
  {
    if "FEISHU_WEBHOOK_URL" in env && env["FEISHU_WEBHOOK_URL"] != "" then
      var secret := if "FEISHU_WEBHOOK_SECRET" in env then Some(env["FEISHU_WEBHOOK_SECRET"]) else None;
      Some(FeishuWebhookConfig("env_webhook", env["FEISHU_WEBHOOK_URL"], secret, true))
    else None
  }

  /** The new webhook list: the old one, plus the environment's entry at the end. */
  function WebhooksOverride(hooks: seq<FeishuWebhookConfig>, env: map<string, string>): (r: seq<FeishuWebhookConfig>)
    ensures EnvWebhook(env).None? ==> r == hooks
    ensures EnvWebhook(env).Some? ==> |r| == |hooks| + 1 && r[..|hooks|] == hooks && r[|hooks|] == EnvWebhook(env).value
  {
    match EnvWebhook(env)
    case Some(w) => hooks + [w]
    case None => hooks
  }

  /** Applying the port override twice is applying it once. */
  lemma PortOverrideIdempotent(port: U16, env: map<string, string>)
    ensures PortOverride(PortOverride(port, env), env) == PortOverride(port, env)
  {
  }

  /** A PORT holding the decimal text of a `u16` sets the port to that number. */
  lemma PortOverrideTakesPrintedPort(port: U16, q: U16, env: map<string, string>)
    requires "PORT" in env && env["PORT"] == DecimalString(q)
    ensures PortOverride(port, env) == q
  {
    ParseU16RoundTrip(q);
  }

  /** Applying the webhook override twice adds the environment's entry twice. */
  lemma WebhooksOverrideNotIdempotent(hooks: seq<FeishuWebhookConfig>, env: map<string, string>)
    requires EnvWebhook(env).Some?
    ensures WebhooksOverride(WebhooksOverride(hooks, env), env) == hooks + [EnvWebhook(env).value, EnvWebhook(env).value]
    ensures WebhooksOverride(WebhooksOverride(hooks, env), env) != WebhooksOverride(hooks, env)
  {
  }

  /** The configuration as config.rs and service.rs use it: the declared fields of
      `Config` and the legacy `feishu_webhooks` list that the forwarding loop and the
      environment overrides work on. */
  class RelayConfig {
    var serverPort: U16
    var serverHost: string
    var templateDir: Option<string>
    var webhooks: seq<WebhookConfig>
    var feishuWebhooks: seq<FeishuWebhookConfig>

    constructor (c: Config, legacy: seq<FeishuWebhookConfig>)
      ensures serverPort == c.serverPort && serverHost == c.serverHost
      ensures templateDir == c.templateDir && webhooks == c.webhooks
      ensures feishuWebhooks == legacy
    {
      serverPort := c.serverPort;
      serverHost := c.serverHost;
      templateDir := c.templateDir;
      webhooks := c.webhooks;
      feishuWebhooks := legacy;
    }

    /** `Config::apply_env_overrides`: PORT replaces the port when it parses;
        a non-empty FEISHU_WEBHOOK_URL appends an enabled "env_webhook" entry,
        with FEISHU_WEBHOOK_SECRET as its secret when set. Nothing else changes. */
    method ApplyEnvOverrides(env: map<string, string>)
      modifies this
      ensures serverPort == PortOverride(old(serverPort), env)
      ensures feishuWebhooks == WebhooksOverride(old(feishuWebhooks), env)
      ensures serverHost == old(serverHost) && templateDir == old(templateDir) && webhooks == old(webhooks)
    {
      if "PORT" in env {
        var parsed := ParseU16(env["PORT"]);
        if parsed.Some? {
          serverPort := parsed.value;
        }
      }
      if "FEISHU_WEBHOOK_URL" in env {
        var url := env["FEISHU_WEBHOOK_URL"];
        if url != "" {
          var secret := if "FEISHU_WEBHOOK_SECRET" in env then Some(env["FEISHU_WEBHOOK_SECRET"]) else None;
          feishuWebhooks := feishuWebhooks + [FeishuWebhookConfig("env_webhook", url, secret, true)];
        }
      }
    }
  }

  /** A caller's view: overriding the default configuration twice with the same
      environment leaves two "env_webhook" entries. */
  method OverrideTwice(url: string) returns (count: nat)
    requires url != ""
    ensures count == 2
  {
    var config := new RelayConfig(DefaultConfig(), []);
    var env := map["FEISHU_WEBHOOK_URL" := url];
    config.ApplyEnvOverrides(env);
    config.ApplyEnvOverrides(env);
    assert config.feishuWebhooks == [FeishuWebhookConfig("env_webhook", url, None, true), FeishuWebhookConfig("env_webhook", url, None, true)];
    count := |config.feishuWebhooks|;
  }
}
