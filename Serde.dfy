/** What `#[derive(Serialize, Deserialize)]` with the attributes of src/types.rs does
    to the configuration records and to the rich-text element union, as a map between
    the records and `Json` trees:
    - `skip_serializing_if = "is_default_x"` leaves a field out when it equals its default,
      and `default = "default_x"` puts the default back when the field is absent;
    - `skip_serializing_if = "Option::is_none"` leaves out `None`, and an absent or
      `null` `Option` field reads back as `None`;
    - `#[serde(tag = "...")]` stores the variant name under that key, beside the
      variant's own fields.
    Unknown keys are ignored on input, as serde does without `deny_unknown_fields`.
    serde's error texts are not modelled, only which field failed and why. */
module Serde {
  import opened Wrappers
  import opened Json
  import opened Types

  datatype DeError =
    | MissingField(field: string)
    | InvalidType(field: string)
    | InvalidValue(field: string)
    | UnknownVariant(tag: string)

  // ---- reading single members ----

  function RequiredStr(m: map<string, Json>, key: string): (r: Result<string, DeError>)
    ensures r.Ok? <==> key in m && m[key].Str?
    ensures r.Ok? ==> m[key] == Str(r.value)
  {
    if key !in m then Err(MissingField(key))
    else match m[key]
      case Str(s) => Ok(s)
      case _ => Err(InvalidType(key))
  }

  /** An `Option<String>` member: absent or `null` is `None`. */
  function OptionalStr(m: map<string, Json>, key: string): (r: Result<Option<string>, DeError>)
    ensures key !in m ==> r == Ok(None)
    ensures key in m && m[key].Str? ==> r == Ok(Some(m[key].s))
  {
    if key !in m then Ok(None)
    else match m[key]
      case Null => Ok(None)
      case Str(s) => Ok(Some(s))
      case _ => Err(InvalidType(key))
  }

  function OptionalBool(m: map<string, Json>, key: string): (r: Result<Option<bool>, DeError>)
    ensures key !in m ==> r == Ok(None)
    ensures key in m && m[key].Bool? ==> r == Ok(Some(m[key].b))
  {
    if key !in m then Ok(None)
    else match m[key]
      case Null => Ok(None)
      case Bool(b) => Ok(Some(b))
      case _ => Err(InvalidType(key))
  }

  /** An integer member with a serde default and the range of its Rust type. */
  function DefaultedInt(m: map<string, Json>, key: string, lo: int, hi: int, default: int): (r: Result<int, DeError>)
    requires lo <= default <= hi
    ensures r.Ok? ==> lo <= r.value <= hi
    ensures key !in m ==> r == Ok(default)
    ensures key in m && m[key].Number? && lo <= m[key].n <= hi ==> r == Ok(m[key].n)
  {
    if key !in m then Ok(default)
    else match m[key]
      case Number(n) => if lo <= n <= hi then Ok(n) else Err(InvalidValue(key))
      case _ => Err(InvalidType(key))
  }

  function DefaultedBool(m: map<string, Json>, key: string, default: bool): (r: Result<bool, DeError>)
    ensures key !in m ==> r == Ok(default)
    ensures key in m && m[key].Bool? ==> r == Ok(m[key].b)
  {
    if key !in m then Ok(default)
    else match m[key]
      case Bool(b) => Ok(b)
      case _ => Err(InvalidType(key))
  }

  /** A `Vec<String>` from the items of a JSON array. */
  function StrsFromJson(items: seq<Json>, key: string): (r: Result<seq<string>, DeError>)
    ensures r.Ok? ==> |r.value| == |items|
    decreases |items|
  {
    if items == [] then Ok([])
    else match items[|items| - 1]
      case Str(s) =>
        var init :- StrsFromJson(items[..|items| - 1], key);
        Ok(init + [s])
      case _ => Err(InvalidType(key))
  }

  lemma {:induction false} StrsRoundTrip(xs: seq<string>, key: string)
    ensures StrsFromJson(StrArray(xs).items, key) == Ok(xs)
    decreases |xs|
  {
    if xs != [] {
      var n := |xs| - 1;
      assert StrArray(xs).items[..n] == StrArray(xs[..n]).items;
      StrsRoundTrip(xs[..n], key);
      assert xs[..n] + [xs[n]] == xs;
    }
  }

  function OptionalStrs(m: map<string, Json>, key: string): (r: Result<Option<seq<string>>, DeError>)
    ensures key !in m ==> r == Ok(None)
  {
    if key !in m then Ok(None)
    else match m[key]
      case Null => Ok(None)
      case Array(items) =>
        var xs :- StrsFromJson(items, key);
        Ok(Some(xs))
      case _ => Err(InvalidType(key))
  }

  /** The member `key := v` when `v` is present, no member otherwise
      (`skip_serializing_if = "Option::is_none"`). */
  function OptMember(key: string, v: Option<Json>): (r: map<string, Json>)
    ensures key in r <==> v.Some?
    ensures r.Keys <= {key}
    ensures v.Some? ==> r[key] == v.value
  {
    if v.Some? then map[key := v.value] else map[]
  }

  function OptStr(s: Option<string>): Option<Json> {
    if s.Some? then Some(Str(s.value)) else None
  }

  // ---- FeishuPostElement: #[serde(tag = "tag")] ----

  function PostElementToJson(e: FeishuPostElement): (j: Json)
    ensures j.Object? && "tag" in j.fields && j.fields["tag"].Str?
  {
    match e
    case Text(text) => Object(map["tag" := Str("text"), "text" := Str(text)])
    case Link(text, href) => Object(map["tag" := Str("a"), "text" := Str(text), "href" := Str(href)])
    case At(userId, userName) =>
      // user_name has no skip attribute: `None` is written as null.
      Object(map["tag" := Str("at"), "user_id" := Str(userId),
                 "user_name" := if userName.Some? then Str(userName.value) else Null])
  }

  function PostElementFromJson(j: Json): (r: Result<FeishuPostElement, DeError>)
    ensures r.Ok? ==> j.Object? && "tag" in j.fields
    ensures r.Ok? ==> j.fields["tag"] == Str(match r.value case Text(_) => "text" case Link(_, _) => "a" case At(_, _) => "at")
  {
    if !j.Object? then Err(InvalidType("FeishuPostElement"))
    else
      var m := j.fields;
      var tag :- RequiredStr(m, "tag");
      if tag == "text" then
        var text :- RequiredStr(m, "text");
        Ok(Text(text))
      else if tag == "a" then
        var text :- RequiredStr(m, "text");
        var href :- RequiredStr(m, "href");
        Ok(Link(text, href))
      else if tag == "at" then
        var userId :- RequiredStr(m, "user_id");
        var userName :- OptionalStr(m, "user_name");
        Ok(At(userId, userName))
      else Err(UnknownVariant(tag))
  }

  lemma PostElementRoundTrip(e: FeishuPostElement)
    ensures PostElementFromJson(PostElementToJson(e)) == Ok(e)
  {
  }

  // ---- ForwardConfig: #[serde(tag = "type")] over three struct variants ----

  function ButtonToJson(b: Button): Json {
    Object(map["text" := Str(b.text), "url" := Str(b.url)])
  }

  function ButtonFromJson(j: Json): (r: Result<Button, DeError>) {
    if !j.Object? then Err(InvalidType("buttons"))
    else
      var text :- RequiredStr(j.fields, "text");
      var url :- RequiredStr(j.fields, "url");
      Ok(Button(text, url))
  }

  function ButtonsToJson(bs: seq<Button>): (j: Json)
    ensures j.Array? && |j.items| == |bs|
    ensures forall i :: 0 <= i < |bs| ==> j.items[i] == ButtonToJson(bs[i])
  {
    Array(seq(|bs|, i requires 0 <= i < |bs| => ButtonToJson(bs[i])))
  }

  function ButtonsFromJson(items: seq<Json>): (r: Result<seq<Button>, DeError>)
    ensures r.Ok? ==> |r.value| == |items|
    decreases |items|
  {
    if items == [] then Ok([])
    else
      var init :- ButtonsFromJson(items[..|items| - 1]);
      var last :- ButtonFromJson(items[|items| - 1]);
      Ok(init + [last])
  }

  lemma {:induction false} ButtonsRoundTrip(bs: seq<Button>)
    ensures ButtonsFromJson(ButtonsToJson(bs).items) == Ok(bs)
    decreases |bs|
  {
    if bs != [] {
      var n := |bs| - 1;
      assert ButtonsToJson(bs).items[..n] == ButtonsToJson(bs[..n]).items;
      ButtonsRoundTrip(bs[..n]);
      assert bs[..n] + [bs[n]] == bs;
    }
  }

  function StrMapToJson(m: map<string, string>): Json {
    Object(map k | k in m :: Str(m[k]))
  }

  function StrMapFromJson(fields: map<string, Json>, key: string): (r: Result<map<string, string>, DeError>)
    ensures r.Ok? ==> r.value.Keys == fields.Keys
  {
    if forall k :: k in fields ==> fields[k].Str? then Ok(map k | k in fields :: fields[k].s)
    else Err(InvalidType(key))
  }

  function FeishuConfigFields(c: FeishuConfig): map<string, Json> {
    OptMember("card_theme", OptStr(c.cardTheme))
    + OptMember("mention_all", if c.mentionAll.Some? then Some(Bool(c.mentionAll.value)) else None)
    + OptMember("buttons", if c.buttons.Some? then Some(ButtonsToJson(c.buttons.value)) else None)
    + OptMember("color_mapping", if c.colorMapping.Some? then Some(StrMapToJson(c.colorMapping.value)) else None)
  }

  function FeishuConfigFromFields(m: map<string, Json>): (r: Result<FeishuConfig, DeError>) {
    var cardTheme :- OptionalStr(m, "card_theme");
    var mentionAll :- OptionalBool(m, "mention_all");
    var buttons :-
      if "buttons" !in m || m["buttons"].Null? then Ok(None)
      else if m["buttons"].Array? then
        var bs :- ButtonsFromJson(m["buttons"].items); Ok(Some(bs))
      else Err(InvalidType("buttons"));
    var colorMapping :-
      if "color_mapping" !in m || m["color_mapping"].Null? then Ok(None)
      else if m["color_mapping"].Object? then
        var cm :- StrMapFromJson(m["color_mapping"].fields, "color_mapping"); Ok(Some(cm))
      else Err(InvalidType("color_mapping"));
    Ok(FeishuConfig(cardTheme, mentionAll, buttons, colorMapping))
  }

  lemma FeishuConfigRoundTrip(c: FeishuConfig, extra: map<string, Json>)
    requires extra.Keys !! {"card_theme", "mention_all", "buttons", "color_mapping"}
    ensures FeishuConfigFromFields(FeishuConfigFields(c) + extra) == Ok(c)
  {
    var m := FeishuConfigFields(c) + extra;
    if c.buttons.Some? {
      ButtonsRoundTrip(c.buttons.value);
    }
    if c.colorMapping.Some? {
      var cm := c.colorMapping.value;
      assert m["color_mapping"] == StrMapToJson(cm);
      assert (map k | k in StrMapToJson(cm).fields :: StrMapToJson(cm).fields[k].s) == cm;
    }
  }

  function WecomConfigFields(c: WecomConfig): map<string, Json> {
    map["corp_id" := Str(c.corpId), "corp_secret" := Str(c.corpSecret)]
    + OptMember("agent_id", OptStr(c.agentId))
    + OptMember("to_user", OptStr(c.toUser))
  }

  function WecomConfigFromFields(m: map<string, Json>): (r: Result<WecomConfig, DeError>) {
    var corpId :- RequiredStr(m, "corp_id");
    var corpSecret :- RequiredStr(m, "corp_secret");
    var agentId :- OptionalStr(m, "agent_id");
    var toUser :- OptionalStr(m, "to_user");
    Ok(WecomConfig(corpId, corpSecret, agentId, toUser))
  }

  function DingtalkConfigFields(c: DingtalkConfig): map<string, Json> {
    map["access_token" := Str(c.accessToken)]
    + OptMember("secret", OptStr(c.secret))
    + OptMember("at_mobiles", if c.atMobiles.Some? then Some(StrArray(c.atMobiles.value)) else None)
  }

  function DingtalkConfigFromFields(m: map<string, Json>): (r: Result<DingtalkConfig, DeError>) {
    var accessToken :- RequiredStr(m, "access_token");
    var secret :- OptionalStr(m, "secret");
    var atMobiles :- OptionalStrs(m, "at_mobiles");
    Ok(DingtalkConfig(accessToken, secret, atMobiles))
  }

  /** The serde name of each variant. */
  function ForwardTag(f: ForwardConfig): string {
    match f
    case FeishuRobotMsg(_) => "feishu_robot_msg"
    case WecomWebhook(_) => "wecom_webhook"
    case DingtalkWebhook(_) => "dingtalk_webhook"
  }

  /** The variant's own fields, without the tag. */
  function VariantFields(f: ForwardConfig): (m: map<string, Json>)
    ensures "type" !in m
  {
    match f
    case FeishuRobotMsg(c) => FeishuConfigFields(c)
    case WecomWebhook(c) => WecomConfigFields(c)
    case DingtalkWebhook(c) => DingtalkConfigFields(c)
  }

  function ForwardConfigToJson(f: ForwardConfig): (j: Json)
    ensures Get(j, "type") == Some(Str(ForwardTag(f)))
  {
    Object(VariantFields(f) + map["type" := Str(ForwardTag(f))])
  }

  /** Reads the "type" tag and then the fields of the variant it names; any other
      tag is an unknown variant. */
  function ForwardConfigFromJson(j: Json): (r: Result<ForwardConfig, DeError>)
    ensures r.Ok? ==> Get(j, "type") == Some(Str(ForwardTag(r.value)))
    ensures r.Ok? ==> ForwardTag(r.value) in {"feishu_robot_msg", "wecom_webhook", "dingtalk_webhook"}
  {
    if !j.Object? then Err(InvalidType("forward_config"))
    else
      var tag :- RequiredStr(j.fields, "type");
      if tag == "feishu_robot_msg" then
        var c :- FeishuConfigFromFields(j.fields); Ok(FeishuRobotMsg(c))
      else if tag == "wecom_webhook" then
        var c :- WecomConfigFromFields(j.fields); Ok(WecomWebhook(c))
      else if tag == "dingtalk_webhook" then
        var c :- DingtalkConfigFromFields(j.fields); Ok(DingtalkWebhook(c))
      else Err(UnknownVariant(tag))
  }

  lemma WecomConfigRoundTrip(c: WecomConfig, extra: map<string, Json>)
    requires extra.Keys !! {"corp_id", "corp_secret", "agent_id", "to_user"}
    ensures WecomConfigFromFields(WecomConfigFields(c) + extra) == Ok(c)
  {
  }

  lemma DingtalkConfigRoundTrip(c: DingtalkConfig, extra: map<string, Json>)
    requires extra.Keys !! {"access_token", "secret", "at_mobiles"}
    ensures DingtalkConfigFromFields(DingtalkConfigFields(c) + extra) == Ok(c)
  {
    var m := DingtalkConfigFields(c) + extra;
    assert RequiredStr(m, "access_token") == Ok(c.accessToken);
    assert OptionalStr(m, "secret") == Ok(c.secret);
    if c.atMobiles.Some? {
      StrsRoundTrip(c.atMobiles.value, "at_mobiles");
      assert m["at_mobiles"] == StrArray(c.atMobiles.value);
    }
    assert OptionalStrs(m, "at_mobiles") == Ok(c.atMobiles);
  }

  lemma ForwardConfigRoundTrip(f: ForwardConfig)
    ensures ForwardConfigFromJson(ForwardConfigToJson(f)) == Ok(f)
  {
    var tag := map["type" := Str(ForwardTag(f))];
    match f
    case FeishuRobotMsg(c) => FeishuConfigRoundTrip(c, tag);
    case WecomWebhook(c) => WecomConfigRoundTrip(c, tag);
    case DingtalkWebhook(c) => DingtalkConfigRoundTrip(c, tag);
  }

  /** A tag outside the three variant names never deserialises. */
  lemma ForwardConfigClosed(j: Json, tag: string)
    requires Get(j, "type") == Some(Str(tag))
    requires tag !in {"feishu_robot_msg", "wecom_webhook", "dingtalk_webhook"}
    ensures ForwardConfigFromJson(j) == Err(UnknownVariant(tag))
  {
  }

  // ---- WebhookRuntimeConfig ----

  function RuntimeConfigToJson(c: WebhookRuntimeConfig): (j: Json)
    ensures j.Object?
    ensures "n_par" in j.fields <==> !IsDefaultParallel(c.nPar)
    ensures "timeout" in j.fields <==> !IsDefaultTimeout(c.timeout)
    ensures "retry" in j.fields <==> !IsDefaultRetry(c.retry)
  {
    Object(
      (if IsDefaultParallel(c.nPar) then map[] else map["n_par" := Number(c.nPar)])
      + (if IsDefaultTimeout(c.timeout) then map[] else map["timeout" := Number(c.timeout)])
      + (if IsDefaultRetry(c.retry) then map[] else map["retry" := Number(c.retry)]))
  }

  function RuntimeConfigFromJson(j: Json): (r: Result<WebhookRuntimeConfig, DeError>) {
    if !j.Object? then Err(InvalidType("config"))
    else
      var nPar :- DefaultedInt(j.fields, "n_par", -0x8000_0000, 0x7FFF_FFFF, DefaultParallel());
      var timeout :- DefaultedInt(j.fields, "timeout", 0, 0xFFFF_FFFF_FFFF_FFFF, DefaultTimeout());
      var retry :- DefaultedInt(j.fields, "retry", 0, 0xFFFF_FFFF, DefaultRetry());
      Ok(WebhookRuntimeConfig(nPar, timeout, retry))
  }

  lemma RuntimeConfigRoundTrip(c: WebhookRuntimeConfig)
    ensures RuntimeConfigFromJson(RuntimeConfigToJson(c)) == Ok(c)
  {
  }

  /** The all-default runtime configuration serialises to an empty object. */
  lemma RuntimeConfigDefaultIsEmpty()
    ensures RuntimeConfigToJson(DefaultRuntimeConfig()) == Object(map[])
    ensures RuntimeConfigFromJson(Object(map[])) == Ok(DefaultRuntimeConfig())
  {
  }

  // ---- WebhookConfig ----

  function WebhookConfigToJson(w: WebhookConfig): (j: Json)
    ensures j.Object?
    ensures "enabled" in j.fields <==> !IsDefaultEnabled(w.enabled)
    ensures "config" in j.fields <==> !IsDefaultRuntimeConfig(w.config)
  {
    Object(
      map["name" := Str(w.name), "url" := StrArray(w.url), "forward_config" := ForwardConfigToJson(w.forwardConfig)]
      + (if IsDefaultEnabled(w.enabled) then map[] else map["enabled" := Bool(w.enabled)])
      + (if IsDefaultRuntimeConfig(w.config) then map[] else map["config" := RuntimeConfigToJson(w.config)]))
  }

  function WebhookConfigFromJson(j: Json): (r: Result<WebhookConfig, DeError>) {
    if !j.Object? then Err(InvalidType("webhooks"))
    else
      var m := j.fields;
      var name :- RequiredStr(m, "name");
      var url :-
        if "url" !in m then Err(MissingField("url"))
        else if m["url"].Array? then StrsFromJson(m["url"].items, "url")
        else Err(InvalidType("url"));
      var enabled :- DefaultedBool(m, "enabled", DefaultEnabled());
      var forwardConfig :-
        if "forward_config" !in m then Err(MissingField("forward_config"))
        else ForwardConfigFromJson(m["forward_config"]);
      var config :-
        if "config" !in m then Ok(DefaultRuntimeConfig())
        else RuntimeConfigFromJson(m["config"]);
      Ok(WebhookConfig(name, url, enabled, forwardConfig, config))
  }

  lemma WebhookConfigRoundTrip(w: WebhookConfig)
    ensures WebhookConfigFromJson(WebhookConfigToJson(w)) == Ok(w)
  {
    var m := WebhookConfigToJson(w).fields;
    assert RequiredStr(m, "name") == Ok(w.name);
    assert m["url"] == StrArray(w.url);
    StrsRoundTrip(w.url, "url");
    assert DefaultedBool(m, "enabled", DefaultEnabled()) == Ok(w.enabled);
    assert m["forward_config"] == ForwardConfigToJson(w.forwardConfig);
    ForwardConfigRoundTrip(w.forwardConfig);
    if !IsDefaultRuntimeConfig(w.config) {
      assert m["config"] == RuntimeConfigToJson(w.config);
      RuntimeConfigRoundTrip(w.config);
    }
  }

  function WebhooksToJson(ws: seq<WebhookConfig>): (j: Json)
    ensures j.Array? && |j.items| == |ws|
    ensures forall i :: 0 <= i < |ws| ==> j.items[i] == WebhookConfigToJson(ws[i])
  {
    Array(seq(|ws|, i requires 0 <= i < |ws| => WebhookConfigToJson(ws[i])))
  }

  function WebhooksFromJson(items: seq<Json>): (r: Result<seq<WebhookConfig>, DeError>)
    ensures r.Ok? ==> |r.value| == |items|
    decreases |items|
  {
    if items == [] then Ok([])
    else
      var init :- WebhooksFromJson(items[..|items| - 1]);
      var last :- WebhookConfigFromJson(items[|items| - 1]);
      Ok(init + [last])
  }

  /** One step of `WebhooksFromJson`: the prefix's result and the last element's. */
  lemma WebhooksFromJsonSnoc(items: seq<Json>, init: seq<WebhookConfig>, last: WebhookConfig)
    requires items != []
    requires WebhooksFromJson(items[..|items| - 1]) == Ok(init)
    requires WebhookConfigFromJson(items[|items| - 1]) == Ok(last)
    ensures WebhooksFromJson(items) == Ok(init + [last])
  {
  }

  lemma {:induction false} WebhooksRoundTrip(ws: seq<WebhookConfig>)
    ensures WebhooksFromJson(WebhooksToJson(ws).items) == Ok(ws)
    decreases |ws|
  {
    if ws != [] {
      var n := |ws| - 1;
      assert ws[..n] + [ws[n]] == ws;
      var items := WebhooksToJson(ws).items;
      assert items[..n] == WebhooksToJson(ws[..n]).items;
      WebhooksRoundTrip(ws[..n]);
      WebhookConfigRoundTrip(ws[n]);
      WebhooksFromJsonSnoc(items, ws[..n], ws[n]);
    }
  }

  // ---- Config ----

  function ConfigToJson(c: Config): (j: Json)
    ensures j.Object?
    ensures "server_port" in j.fields <==> !IsDefaultServerPort(c.serverPort)
    ensures "server_host" in j.fields <==> !IsDefaultServerHost(c.serverHost)
    ensures "template_dir" in j.fields <==> c.templateDir.Some?
    ensures "webhooks" in j.fields <==> !IsDefaultWebhooks(c.webhooks)
  {
    Object(
      (if IsDefaultServerPort(c.serverPort) then map[] else map["server_port" := Number(c.serverPort)])
      + (if IsDefaultServerHost(c.serverHost) then map[] else map["server_host" := Str(c.serverHost)])
      + OptMember("template_dir", OptStr(c.templateDir))
      + (if IsDefaultWebhooks(c.webhooks) then map[] else map["webhooks" := WebhooksToJson(c.webhooks)]))
  }

  function ConfigFromJson(j: Json): (r: Result<Config, DeError>) {
    if !j.Object? then Err(InvalidType("Config"))
    else
      var m := j.fields;
      var port :- DefaultedInt(m, "server_port", 0, 0xFFFF, DefaultServerPort());
      var host :-
        if "server_host" !in m then Ok(DefaultServerHost())
        else RequiredStr(m, "server_host");
      var templateDir :- OptionalStr(m, "template_dir");
      var webhooks :-
        if "webhooks" !in m then Ok(DefaultWebhooks())
        else if m["webhooks"].Array? then WebhooksFromJson(m["webhooks"].items)
        else Err(InvalidType("webhooks"));
      Ok(Config(port, host, templateDir, webhooks))
  }

  /** Serialising and reading back gives the same configuration: every field left out
      because it equalled its default is restored to that default. */
  lemma ConfigRoundTrip(c: Config)
    ensures ConfigFromJson(ConfigToJson(c)) == Ok(c)
  {
    if !IsDefaultWebhooks(c.webhooks) {
      WebhooksRoundTrip(c.webhooks);
    }
  }

  /** `Config::default()` is exactly what an empty document reads as, and it writes
      back as an empty document. */
  lemma DefaultConfigIsEmptyDocument()
    ensures ConfigFromJson(Object(map[])) == Ok(DefaultConfig())
    ensures ConfigToJson(DefaultConfig()) == Object(map[])
  {
  }
}
