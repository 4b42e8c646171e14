/** The records and tagged unions of src/types.rs, with their serde defaults.
    Rust's fixed-width integers are subset types of `int`. */
module Types {
  import opened Wrappers
  import opened Json

  type U16 = x: int | 0 <= x <= 0xFFFF
  type U32 = x: int | 0 <= x <= 0xFFFF_FFFF
  type U64 = x: int | 0 <= x <= 0xFFFF_FFFF_FFFF_FFFF
  type I32 = x: int | -0x8000_0000 <= x <= 0x7FFF_FFFF

  // ---- GlitchTip's Slack-format payload ----

  datatype AttachmentField = AttachmentField(title: string, value: string, short: bool)

  datatype SlackAttachment = SlackAttachment(
    color: string,
    fields: seq<AttachmentField>,
    imageUrl: Option<string>,
    mrkdownIn: Option<seq<string>>,
    text: Option<string>,
    title: string,
    titleLink: string)

  datatype ActivitySection = ActivitySection(activityTitle: string, activitySubtitle: string)

  datatype GlitchTipSlackWebhook = GlitchTipSlackWebhook(
    alias: string,
    text: string,
    attachments: seq<SlackAttachment>,
    sections: seq<ActivitySection>)

  // ---- Feishu messages ----

  /** One element of a rich-text row; serde tags it "text", "a" or "at". */
  datatype FeishuPostElement =
    | Text(text: string)
    | Link(text: string, href: string)
    | At(userId: string, userName: Option<string>)

  datatype FeishuPostContent = FeishuPostContent(title: Option<string>, content: seq<seq<FeishuPostElement>>)

  datatype FeishuPost = FeishuPost(zhCn: FeishuPostContent)

  datatype FeishuContent = FeishuContent(text: Option<string>, post: Option<FeishuPost>)

  datatype FeishuWebhook = FeishuWebhook(msgType: string, content: Option<FeishuContent>, card: Option<Json>)

  // ---- API responses ----

  datatype FeishuWebhookInfo = FeishuWebhookInfo(name: string, url: string, enabled: bool, hasSecret: bool)

  datatype ConfigResponse = ConfigResponse(serverPort: U16, feishuWebhooks: seq<FeishuWebhookInfo>)

  datatype WebhookResponse = WebhookResponse(status: string, message: string, errors: Option<seq<string>>)

  // ---- Forwarding configuration ----

  datatype Button = Button(text: string, url: string)

  datatype FeishuConfig = FeishuConfig(
    cardTheme: Option<string>,
    mentionAll: Option<bool>,
    buttons: Option<seq<Button>>,
    colorMapping: Option<map<string, string>>)

  datatype WecomConfig = WecomConfig(corpId: string, corpSecret: string, agentId: Option<string>, toUser: Option<string>)

  datatype DingtalkConfig = DingtalkConfig(accessToken: string, secret: Option<string>, atMobiles: Option<seq<string>>)

  /** The closed union of forwarding platforms, internally tagged by "type". */
  datatype ForwardConfig =
    | FeishuRobotMsg(feishu: FeishuConfig)
    | WecomWebhook(wecom: WecomConfig)
    | DingtalkWebhook(dingtalk: DingtalkConfig)

  datatype WebhookRuntimeConfig = WebhookRuntimeConfig(nPar: I32, timeout: U64, retry: U32)

  datatype WebhookConfig = WebhookConfig(
    name: string,
    url: seq<string>,
    enabled: bool,
    forwardConfig: ForwardConfig,
    config: WebhookRuntimeConfig)

  datatype Config = Config(
    serverPort: U16,
    serverHost: string,
    templateDir: Option<string>,
    webhooks: seq<WebhookConfig>)

  /** The legacy single-URL webhook record that config.rs and service.rs iterate over. */
  datatype FeishuWebhookConfig = FeishuWebhookConfig(name: string, url: string, secret: Option<string>, enabled: bool)

  // ---- serde defaults and the matching "is default" tests ----

  function DefaultParallel(): I32 { 1 }

  predicate IsDefaultParallel(v: I32)
    ensures IsDefaultParallel(v) <==> v == DefaultParallel()
  {
    v == 1
  }

  function DefaultTimeout(): U64 { 30 }

  predicate IsDefaultTimeout(v: U64)
    ensures IsDefaultTimeout(v) <==> v == DefaultTimeout()
  {
    v == 30
  }

  function DefaultRetry(): U32 { 3 }

  predicate IsDefaultRetry(v: U32)
    ensures IsDefaultRetry(v) <==> v == DefaultRetry()
  {
    v == 3
  }

  function DefaultEnabled(): bool { true }

  predicate IsDefaultEnabled(v: bool)
    ensures IsDefaultEnabled(v) <==> v == DefaultEnabled()
  {
    v == true
  }

  function DefaultRuntimeConfig(): WebhookRuntimeConfig {
    WebhookRuntimeConfig(1, 30, 3)
  }

  /** Field by field, so it agrees with the three per-field defaults. */
  predicate IsDefaultRuntimeConfig(v: WebhookRuntimeConfig)
    ensures IsDefaultRuntimeConfig(v) <==> v == DefaultRuntimeConfig()
    ensures IsDefaultRuntimeConfig(v) <==> IsDefaultParallel(v.nPar) && IsDefaultTimeout(v.timeout) && IsDefaultRetry(v.retry)
  {
    v.nPar == 1 && v.timeout == 30 && v.retry == 3
  }

  function DefaultServerPort(): U16 { 7876 }

  predicate IsDefaultServerPort(v: U16)
    ensures IsDefaultServerPort(v) <==> v == DefaultServerPort()
  {
    v == 7876
  }

  function DefaultServerHost(): string { "127.0.0.1" }

  predicate IsDefaultServerHost(v: string)
    ensures IsDefaultServerHost(v) <==> v == DefaultServerHost()
  {
    v == "127.0.0.1"
  }

  function DefaultWebhooks(): seq<WebhookConfig> { [] }

  predicate IsDefaultWebhooks(v: seq<WebhookConfig>)
    ensures IsDefaultWebhooks(v) <==> v == DefaultWebhooks()
  {
    |v| == 0
  }

  /** `Config::default()`: every field takes its serde default, and no template directory. */
  function DefaultConfig(): (c: Config)
    ensures IsDefaultServerPort(c.serverPort) && IsDefaultServerHost(c.serverHost)
    ensures c.templateDir == None && IsDefaultWebhooks(c.webhooks)
  {
    Config(7876, "127.0.0.1", None, [])
  }
}
