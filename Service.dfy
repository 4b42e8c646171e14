/** src/service.rs: forwarding an alert to every enabled legacy Feishu webhook, the
    HTTP reply chosen from the collected errors, the classification of one send, and
    the configuration endpoint's reply. The HTTP client is an oracle: `send(url, msg)`
    is what POSTing `msg` to `url` produced. */
module Service {
  import opened Wrappers
  import opened Json
  import opened Types
  import opened Text
  import opened Converter

  type StatusNumber = x: int | 100 <= x <= 999 witness 100

  /** An HTTP status as reqwest reports it; `reason` is its canonical reason phrase,
      if the code has one. */
  datatype StatusCode = StatusCode(code: StatusNumber, reason: Option<string>)

  /** What one POST produced: the client's own error (connection, timeout, ...) with its
      text, or a response whose body text may be unreadable (`None`). */
  datatype SendOutcome =
    | TransportError(message: string)
    | Response(status: StatusCode, body: Option<string>)

  /** `StatusCode::is_success`: 200 to 299. */
  predicate IsSuccess(s: StatusCode) {
    200 <= s.code <= 299
  }

  /** `format!("{}", status)`: the code, a space, and the reason phrase. */
  function StatusDisplay(s: StatusCode): string {
    DecimalString(s.code) + " " + s.reason.GetOr("<unknown status code>")
  }

  /** `send_to_feishu`: success exactly on a 2xx response; a transport failure passes
      its text on; any other status is "HTTP <status>: <body>", with an unreadable body
      read as empty. */
  function SendToFeishu(outcome: SendOutcome): (r: Result<(), string>)
    ensures r.Ok? <==> outcome.Response? && IsSuccess(outcome.status)
    ensures outcome.TransportError? ==> r == Err(outcome.message)
    ensures outcome.Response? && !IsSuccess(outcome.status) ==>
      r == Err("HTTP " + StatusDisplay(outcome.status) + ": " + outcome.body.GetOr(""))
  {
    match outcome
    case TransportError(message) => Err(message)
    case Response(status, body) =>
      if IsSuccess(status) then Ok(())
      else Err("HTTP " + StatusDisplay(status) + ": " + body.GetOr(""))
  }

  /** The status code can be read back from an HTTP error text. */
  lemma HttpErrorNamesStatus(outcome: SendOutcome)
    requires outcome.Response? && !IsSuccess(outcome.status)
    ensures var e := SendToFeishu(outcome).error;
      var digits := DecimalString(outcome.status.code);
      && e[..5] == "HTTP "
      && 5 + |digits| <= |e|
      && ParseU16(e[5..5 + |digits|]) == Some(outcome.status.code)
  {
    var e := SendToFeishu(outcome).error;
    var digits := DecimalString(outcome.status.code);
    assert e == "HTTP " + digits + (" " + outcome.status.reason.GetOr("<unknown status code>") + ": " + outcome.body.GetOr(""));
    assert e[5..5 + |digits|] == digits;
    ParseU16RoundTrip(outcome.status.code);
  }

  // ---- forwarding ----

  /** The error entry a webhook contributes: none when disabled or delivered, else
      "<name>: <error>". */
  function EntryFor(h: FeishuWebhookConfig, g: GlitchTipSlackWebhook, send: (string, FeishuWebhook) -> SendOutcome): (r: seq<string>)
    ensures |r| <= 1
    ensures |r| == 1 <==> h.enabled && SendToFeishu(send(h.url, CardMessage(g))).Err?
  {
    if !h.enabled then []
    else match SendToFeishu(send(h.url, CardMessage(g)))
      case Ok(_) => []
      case Err(e) => [h.name + ": " + e]
  }

  /** The errors of forwarding to `hooks`, one webhook after another. */
  function ForwardErrors(hooks: seq<FeishuWebhookConfig>, g: GlitchTipSlackWebhook, send: (string, FeishuWebhook) -> SendOutcome): seq<string> {
    if hooks == [] then []
    else ForwardErrors(hooks[..|hooks| - 1], g, send) + EntryFor(hooks[|hooks| - 1], g, send)
  }

  /** The posts made while forwarding: the card to the URL of every enabled webhook, in order. */
  ghost function Posts(hooks: seq<FeishuWebhookConfig>, g: GlitchTipSlackWebhook): seq<(string, FeishuWebhook)> {
    if hooks == [] then []
    else
      var h := hooks[|hooks| - 1];
      Posts(hooks[..|hooks| - 1], g) + (if h.enabled then [(h.url, CardMessage(g))] else [])
  }

  /** `forward_to_feishu`: for each webhook in order, skip it when disabled, otherwise
      convert the alert to a card, send it, and record a failure; never stop early. */
  method ForwardToFeishu(g: GlitchTipSlackWebhook, hooks: seq<FeishuWebhookConfig>, send: (string, FeishuWebhook) -> SendOutcome)
    returns (errors: seq<string>, ghost posts: seq<(string, FeishuWebhook)>)
    ensures errors == ForwardErrors(hooks, g, send)
    ensures posts == Posts(hooks, g)
  {
    errors, posts := [], [];
    for i := 0 to |hooks|
      invariant errors == ForwardErrors(hooks[..i], g, send)
      invariant posts == Posts(hooks[..i], g)
    {
      assert hooks[..i + 1][..i] == hooks[..i];
      var h := hooks[i];
      if !h.enabled {
        continue;
      }
      var message := GlitchtipToFeishuCard(g);
      posts := posts + [(h.url, message)];
      match SendToFeishu(send(h.url, message))
      case Ok(_) =>
      case Err(e) =>
        errors := errors + [h.name + ": " + e];
    }
    assert hooks[..|hooks|] == hooks;
  }

  lemma {:induction false} ForwardErrorsAppend(a: seq<FeishuWebhookConfig>, b: seq<FeishuWebhookConfig>, g: GlitchTipSlackWebhook, send: (string, FeishuWebhook) -> SendOutcome)
    ensures ForwardErrors(a + b, g, send) == ForwardErrors(a, g, send) + ForwardErrors(b, g, send)
    decreases |b|
  {
    if b == [] {
      assert a + b == a;
    } else {
      var n := |b| - 1;
      assert (a + b)[..|a + b| - 1] == a + b[..n];
      ForwardErrorsAppend(a, b[..n], g, send);
    }
  }

  /** The enabled webhooks, in order. */
  function Enabled(hooks: seq<FeishuWebhookConfig>): (r: seq<FeishuWebhookConfig>)
    ensures |r| <= |hooks|
    ensures forall k :: 0 <= k < |r| ==> r[k].enabled
  {
    if hooks == [] then []
    else Enabled(hooks[..|hooks| - 1]) + (if hooks[|hooks| - 1].enabled then [hooks[|hooks| - 1]] else [])
  }

  /** The enabled webhooks whose send fails, in order. */
  function Failed(hooks: seq<FeishuWebhookConfig>, g: GlitchTipSlackWebhook, send: (string, FeishuWebhook) -> SendOutcome): (r: seq<FeishuWebhookConfig>)
    ensures forall k :: 0 <= k < |r| ==> r[k].enabled && SendToFeishu(send(r[k].url, CardMessage(g))).Err?
  {
    if hooks == [] then []
    else
      var h := hooks[|hooks| - 1];
      Failed(hooks[..|hooks| - 1], g, send)
      + (if h.enabled && SendToFeishu(send(h.url, CardMessage(g))).Err? then [h] else [])
  }

  /** Disabled webhooks produce no error: forwarding to all webhooks gives the errors
      of forwarding to the enabled ones only. */
  lemma {:induction false} DisabledAreSkipped(hooks: seq<FeishuWebhookConfig>, g: GlitchTipSlackWebhook, send: (string, FeishuWebhook) -> SendOutcome)
    ensures ForwardErrors(hooks, g, send) == ForwardErrors(Enabled(hooks), g, send)
    decreases |hooks|
  {
    if hooks != [] {
      var init, h := hooks[..|hooks| - 1], hooks[|hooks| - 1];
      DisabledAreSkipped(init, g, send);
      if h.enabled {
        assert Enabled(hooks) == Enabled(init) + [h];
        ForwardErrorsAppend(Enabled(init), [h], g, send);
        assert [h][..0] == [];
        assert ForwardErrors([h], g, send) == EntryFor(h, g, send);
      } else {
        assert Enabled(hooks) == Enabled(init);
        assert ForwardErrors(hooks, g, send) == ForwardErrors(init, g, send);
      }
    }
  }

  /** Disabled webhooks are never posted to: the posts go to the enabled webhooks, one
      each, in order, and all carry the alert's card. */
  lemma {:induction false} PostsGoToEnabled(hooks: seq<FeishuWebhookConfig>, g: GlitchTipSlackWebhook)
    ensures |Posts(hooks, g)| == |Enabled(hooks)|
    ensures forall k :: 0 <= k < |Enabled(hooks)| ==> Posts(hooks, g)[k] == (Enabled(hooks)[k].url, CardMessage(g))
    decreases |hooks|
  {
    if hooks != [] {
      PostsGoToEnabled(hooks[..|hooks| - 1], g);
    }
  }

  /** Exactly one entry "<name>: <error>" per enabled webhook whose send failed, in
      webhook order. */
  lemma {:induction false} ErrorsAreFailures(hooks: seq<FeishuWebhookConfig>, g: GlitchTipSlackWebhook, send: (string, FeishuWebhook) -> SendOutcome)
    ensures var errors, failed := ForwardErrors(hooks, g, send), Failed(hooks, g, send);
      && |errors| == |failed|
      && forall k :: 0 <= k < |failed| ==>
           errors[k] == failed[k].name + ": " + SendToFeishu(send(failed[k].url, CardMessage(g))).error
    decreases |hooks|
  {
    if hooks != [] {
      ErrorsAreFailures(hooks[..|hooks| - 1], g, send);
    }
  }

  /** When every enabled send succeeds (or none is enabled) there is no error, and
      otherwise there is at least one. */
  lemma {:induction false} NoErrorsIffAllDelivered(hooks: seq<FeishuWebhookConfig>, g: GlitchTipSlackWebhook, send: (string, FeishuWebhook) -> SendOutcome)
    ensures ForwardErrors(hooks, g, send) == [] <==>
      forall k :: 0 <= k < |hooks| && hooks[k].enabled ==> SendToFeishu(send(hooks[k].url, CardMessage(g))).Ok?
    decreases |hooks|
  {
    if hooks != [] {
      var init := hooks[..|hooks| - 1];
      NoErrorsIffAllDelivered(init, g, send);
      assert forall k :: 0 <= k < |init| ==> init[k] == hooks[k];
    }
  }

  /** `config.feishu_webhooks.iter().filter(|w| w.enabled).count()`. */
  function EnabledCount(hooks: seq<FeishuWebhookConfig>): (n: nat)
    ensures n <= |hooks|
  {
    if hooks == [] then 0
    else EnabledCount(hooks[..|hooks| - 1]) + (if hooks[|hooks| - 1].enabled then 1 else 0)
  }

  /** The count is the number of enabled entries; it equals the number of webhooks
      exactly when all are enabled. */
  lemma {:induction false} EnabledCountIsEnabled(hooks: seq<FeishuWebhookConfig>)
    ensures EnabledCount(hooks) == |Enabled(hooks)|
    ensures EnabledCount(hooks) == |hooks| <==> forall k :: 0 <= k < |hooks| ==> hooks[k].enabled
    decreases |hooks|
  {
    if hooks != [] {
      var init := hooks[..|hooks| - 1];
      EnabledCountIsEnabled(init);
      assert forall k :: 0 <= k < |init| ==> init[k] == hooks[k];
    }
  }

  // ---- the alert endpoint's reply ----

  datatype ReplyBody =
    | WebhookBody(response: WebhookResponse)
    | JsonBody(json: Json)
    | PlainBody(text: string)

  datatype Reply = Reply(status: int, body: ReplyBody)

  /** The reply of `receive_glitchtip_webhook` once forwarding is done. */
  function ForwardReply(errors: seq<string>): (r: Reply)
    ensures r.status == 200 <==> errors == []
    ensures errors == [] ==> r.body == WebhookBody(WebhookResponse("success", "Webhook forwarded successfully", None))
    ensures errors != [] ==> r == Reply(500, WebhookBody(WebhookResponse("partial_success", "Some webhooks failed", Some(errors))))
  {
    if errors == [] then Reply(200, WebhookBody(WebhookResponse("success", "Webhook forwarded successfully", None)))
    else Reply(500, WebhookBody(WebhookResponse("partial_success", "Some webhooks failed", Some(errors))))
  }

  /** `receive_glitchtip_webhook`: `config` is what the configuration manager returned. */
  method ReceiveGlitchtipWebhook(g: GlitchTipSlackWebhook, config: Result<seq<FeishuWebhookConfig>, string>, send: (string, FeishuWebhook) -> SendOutcome)
    returns (r: Reply)
    ensures config.Err? ==> r == Reply(500, PlainBody("Configuration error"))
    ensures config.Ok? ==> r == ForwardReply(ForwardErrors(config.value, g, send))
  {
    if config.Err? {
      return Reply(500, PlainBody("Configuration error"));
    }
    var errors, _ := ForwardToFeishu(g, config.value, send);
    r := ForwardReply(errors);
  }

  /** The alert endpoint answers 200 exactly when every enabled webhook took the card. */
  lemma ReceiveOkIffAllDelivered(g: GlitchTipSlackWebhook, hooks: seq<FeishuWebhookConfig>, send: (string, FeishuWebhook) -> SendOutcome)
    ensures ForwardReply(ForwardErrors(hooks, g, send)).status == 200 <==>
      forall k :: 0 <= k < |hooks| && hooks[k].enabled ==> SendToFeishu(send(hooks[k].url, CardMessage(g))).Ok?
  {
    NoErrorsIffAllDelivered(hooks, g, send);
  }

  // ---- the configuration endpoint ----

  /** `url_preview` as written: lengths and offsets are UTF-8 bytes (`url.len()`,
      `&url[..15]`, `&url[len - 10..]`); `None` is the panic Rust raises when an offset
      falls inside a multi-byte character. */
  function UrlPreviewAsWritten(url: string): (r: Option<string>)
    ensures ByteLen(url) <= 30 ==> r == Some(url)
    ensures ByteLen(url) > 30 ==>
      (r.Some? <==> IsCharBoundary(url, 15) && IsCharBoundary(url, ByteLen(url) - 10))
    ensures ByteLen(url) > 30 && r.Some? ==>
      && ByteLen(r.value) == 28
      && exists i, j :: 0 <= i <= j <= |url| && ByteLen(url[..i]) == 15 && ByteLen(url[j..]) == 10
                        && r.value == url[..i] + "..." + url[j..]
  {
    var n := ByteLen(url);
    if n > 30 then
      CharIndexAtByteFindsBoundary(url, 15);
      CharIndexAtByteFindsBoundary(url, n - 10);
      match (CharIndexAtByte(url, 15), CharIndexAtByte(url, n - 10))
      case (Some(i), Some(j)) =>
        CharIndexAtByteSound(url, 15);
        CharIndexAtByteSound(url, n - 10);
        PreviewPieces(url, i, j);
        Some(url[..i] + "..." + url[j..])
      case _ => None
    else Some(url)
  }

  /** The two cuts of a long URL: 15 bytes before, 10 bytes after, 28 bytes in all. */
  lemma PreviewPieces(url: string, i: nat, j: nat)
    requires i <= |url| && j <= |url| && ByteLen(url) > 30
    requires ByteLen(url[..i]) == 15 && ByteLen(url[..j]) == ByteLen(url) - 10
    ensures i <= j && ByteLen(url[j..]) == 10
    ensures ByteLen(url[..i] + "..." + url[j..]) == 28
  {
    if j < i {
      ByteLenPrefixMonotone(url, j, i);
    }
    assert url == url[..j] + url[j..];
    ByteLenAppend(url[..j], url[j..]);
    AsciiByteLen("...");
    ByteLenAppend(url[..i], "...");
    ByteLenAppend(url[..i] + "...", url[j..]);
  }

  /** A URL of 36 bytes whose 15th byte is the second byte of 'é': slicing it at byte
      15 panics, so the configuration endpoint cannot report it. */
  lemma UrlPreviewAsWrittenPanics(url: string)
    requires url == "https://exampl" + "é" + ".com/hook/0123456789"
    ensures ByteLen(url) > 30
    ensures UrlPreviewAsWritten(url) == None
  {
    ExampleUrlByteLen(url);
    ExampleUrlOffset15(url);
  }

  lemma ExampleUrlByteLen(url: string)
    requires url == "https://exampl" + "é" + ".com/hook/0123456789"
    ensures ByteLen(url) == 36
  {
    ByteLenAroundChar("https://exampl", 'é', ".com/hook/0123456789");
  }

  lemma ByteLenAroundChar(head: string, c: char, rest: string)
    requires IsAscii(head) && IsAscii(rest)
    ensures ByteLen(head + [c] + rest) == |head| + Utf8Width(c) + |rest|
  {
    AsciiByteLen(head);
    AsciiByteLen(rest);
    ByteLenAppend(head, [c]);
    ByteLenAppend(head + [c], rest);
    assert [c][1..] == [];
  }

  lemma ExampleUrlOffset15(url: string)
    requires url == "https://exampl" + "é" + ".com/hook/0123456789"
    ensures CharIndexAtByte(url, 15) == None
  {
    var rest := "é" + ".com/hook/0123456789";
    assert url == "https://exampl" + rest;
    CharIndexAtByteAfterAsciiPrefix("https://exampl", rest, 15);
    assert rest[0] == 'é';
  }

  /** Past an ASCII prefix, the byte offsets are those of the rest, shifted. */
  lemma {:induction false} CharIndexAtByteAfterAsciiPrefix(p: string, rest: string, b: nat)
    requires IsAscii(p) && |p| <= b
    ensures CharIndexAtByte(p + rest, b) == Shift(CharIndexAtByte(rest, b - |p|), |p|)
    decreases |p|
  {
    if p == [] {
      assert p + rest == rest;
    } else {
      var q := p + rest;
      assert q[1..] == p[1..] + rest;
      assert IsAscii(p[1..]);
      var inner := CharIndexAtByte(rest, b - |p|);
      CharIndexAtByteAfterAsciiPrefix(p[1..], rest, b - 1);
      assert CharIndexAtByte(q[1..], b - 1) == Shift(inner, |p| - 1);
      CharIndexAtByteAsciiStep(q, b);
      assert CharIndexAtByte(q, b) == Shift(Shift(inner, |p| - 1), 1);
    }
  }

  function Shift(r: Option<nat>, k: nat): Option<nat> {
    match r
    case None => None
    case Some(j) => Some(j + k)
  }

  /** An ASCII first character takes one byte. */
  lemma CharIndexAtByteAsciiStep(s: string, b: nat)
    requires s != [] && s[0] as int < 0x80 && b > 0
    ensures CharIndexAtByte(s, b) == Shift(CharIndexAtByte(s[1..], b - 1), 1)
  {
  }

  /** `url_preview` as evidently intended: the first 15 and the last 10 characters
      around "..." once the URL is longer than 30 characters, else the URL itself. */
  function UrlPreview(url: string): (r: string)
    ensures |url| > 30 ==> |r| == 28 && r[..15] == url[..15] && r[15..18] == "..." && r[18..] == url[|url| - 10..]
    ensures |url| <= 30 ==> r == url
  {
    if |url| > 30 then url[..15] + "..." + url[|url| - 10..] else url
  }

  /** On ASCII URLs, where bytes and characters coincide, the code as written computes
      the intended preview and never panics. */
  lemma UrlPreviewAsciiAgrees(url: string)
    requires IsAscii(url)
    ensures UrlPreviewAsWritten(url) == Some(UrlPreview(url))
  {
    AsciiByteLen(url);
    if |url| > 30 {
      AsciiCharIndex(url, 15);
      AsciiCharIndex(url, |url| - 10);
    }
  }

  /** One entry of the "webhooks" list, with the URL shown as `url_preview` computes
      it; `None` when that preview panics. */
  function WebhookSummary(w: FeishuWebhookConfig): (r: Option<Json>)
    ensures r.Some? <==> UrlPreviewAsWritten(w.url).Some?
    ensures r.Some? ==>
      && Lookup(r.value, ["name"]) == Some(Str(w.name))
      && Lookup(r.value, ["enabled"]) == Some(Bool(w.enabled))
      && Lookup(r.value, ["has_secret"]) == Some(Bool(w.secret.Some?))
      && Lookup(r.value, ["url_preview"]) == Some(Str(UrlPreviewAsWritten(w.url).value))
  {
    assert ["name"][1..] == [] && ["enabled"][1..] == [] && ["has_secret"][1..] == [] && ["url_preview"][1..] == [];
    match UrlPreviewAsWritten(w.url)
    case None => None
    case Some(preview) =>
      Some(Object(map["name" := Str(w.name), "enabled" := Bool(w.enabled),
                      "has_secret" := Bool(w.secret.Some?), "url_preview" := Str(preview)]))
  }

  /** Every webhook's URL preview can be computed without a panic. */
  predicate PreviewsDefined(hooks: seq<FeishuWebhookConfig>) {
    forall k :: 0 <= k < |hooks| ==> UrlPreviewAsWritten(hooks[k].url).Some?
  }

  /** The entries under "webhooks" of a summary. */
  function WebhookEntries(summary: Json): seq<Json> {
    match Lookup(summary, ["webhooks"])
    case Some(Array(items)) => items
    case _ => []
  }

  /** The "config" object built from its six members. */
  function SummaryObject(port: U16, count: nat, enabled: nat, path: string, hash: string, entries: seq<Json>): (j: Json)
    ensures Lookup(j, ["server_port"]) == Some(Number(port))
    ensures Lookup(j, ["webhook_count"]) == Some(Number(count))
    ensures Lookup(j, ["enabled_webhooks"]) == Some(Number(enabled))
    ensures Lookup(j, ["config_file"]) == Some(Str(path))
    ensures Lookup(j, ["md5_hash"]) == Some(Str(hash))
    ensures WebhookEntries(j) == entries
  {
    assert ["server_port"][1..] == [] && ["webhook_count"][1..] == [] && ["enabled_webhooks"][1..] == [];
    assert ["config_file"][1..] == [] && ["md5_hash"][1..] == [] && ["webhooks"][1..] == [];
    Object(map[
      "server_port" := Number(port),
      "webhook_count" := Number(count),
      "enabled_webhooks" := Number(enabled),
      "config_file" := Str(path),
      "md5_hash" := Str(hash),
      "webhooks" := Array(entries)])
  }

  /** The "config" object of the configuration endpoint; `None` when building one of
      its webhook entries panics. */
  function ConfigSummary(port: U16, hooks: seq<FeishuWebhookConfig>, path: string, hash: string): (r: Option<Json>)
    ensures r.Some? <==> PreviewsDefined(hooks)
    ensures r.Some? ==>
      && Lookup(r.value, ["server_port"]) == Some(Number(port))
      && Lookup(r.value, ["config_file"]) == Some(Str(path))
      && Lookup(r.value, ["md5_hash"]) == Some(Str(hash))
    ensures r.Some? ==>
      && Lookup(r.value, ["webhook_count"]) == Some(Number(|hooks|))
      && Lookup(r.value, ["enabled_webhooks"]) == Some(Number(EnabledCount(hooks)))
      && |WebhookEntries(r.value)| == |hooks|
      && forall k :: 0 <= k < |hooks| ==> WebhookEntries(r.value)[k] == WebhookSummary(hooks[k]).value
    ensures EnabledCount(hooks) <= |hooks|
  {
    if !PreviewsDefined(hooks) then None
    else
      var entries := seq(|hooks|, k requires 0 <= k < |hooks| && WebhookSummary(hooks[k]).Some? => WebhookSummary(hooks[k]).value);
      Some(SummaryObject(port, |hooks|, EnabledCount(hooks), path, hash, entries))
  }

  /** On ASCII URLs nothing panics, and every entry shows the intended preview. */
  lemma AsciiUrlsShowIntendedPreview(hooks: seq<FeishuWebhookConfig>)
    requires forall k :: 0 <= k < |hooks| ==> IsAscii(hooks[k].url)
    ensures PreviewsDefined(hooks)
    ensures forall k :: 0 <= k < |hooks| ==>
      Lookup(WebhookSummary(hooks[k]).value, ["url_preview"]) == Some(Str(UrlPreview(hooks[k].url)))
  {
    forall k | 0 <= k < |hooks|
      ensures UrlPreviewAsWritten(hooks[k].url) == Some(UrlPreview(hooks[k].url))
    {
      UrlPreviewAsciiAgrees(hooks[k].url);
    }
  }

  /** The parts of the configuration that the endpoint reports. */
  datatype ConfigView = ConfigView(serverPort: U16, feishuWebhooks: seq<FeishuWebhookConfig>)

  /** A JSON reply whose body has the given "status" and "action" members. */
  predicate Tagged(r: Reply, status: int, statusText: string, action: string) {
    && r.status == status && r.body.JsonBody?
    && Lookup(r.body.json, ["status"]) == Some(Str(statusText))
    && Lookup(r.body.json, ["action"]) == Some(Str(action))
  }

  function ReloadedReply(summary: Json): (r: Reply)
    ensures Tagged(r, 200, "success", "reload")
    ensures Lookup(r.body.json, ["config"]) == Some(summary)
  {
    assert ["action"][1..] == [] && ["status"][1..] == [] && ["config"][1..] == [];
    Reply(200, JsonBody(Object(map[
      "status" := Str("success"),
      "message" := Str("Configuration reloaded successfully"),
      "action" := Str("reload"),
      "config" := summary])))
  }

  function ReloadFailedReply(e: string): (r: Reply)
    ensures Tagged(r, 500, "error", "reload")
    ensures Lookup(r.body.json, ["error"]) == Some(Str(e))
  {
    assert ["action"][1..] == [] && ["status"][1..] == [] && ["error"][1..] == [];
    Reply(500, JsonBody(Object(map[
      "status" := Str("error"),
      "message" := Str("Failed to reload configuration"),
      "action" := Str("reload"),
      "error" := Str(e)])))
  }

  /** The POST branch of `manage_config`: reload, then report. */
  function ManageReload(reload: Result<ConfigView, string>, metadata: Result<(string, string), string>): (r: Option<Reply>)
    ensures r.None? <==> reload.Ok? && !PreviewsDefined(reload.value.feishuWebhooks)
    ensures r.Some? && reload.Ok? ==> Tagged(r.value, 200, "success", "reload")
    ensures r.Some? && reload.Err? ==> Tagged(r.value, 500, "error", "reload")
    ensures r.Some? && reload.Ok? ==>
      var meta := match metadata case Ok(m) => m case Err(_) => ("", "");
      Lookup(r.value.body.json, ["config"]) ==
        ConfigSummary(reload.value.serverPort, reload.value.feishuWebhooks, meta.0, meta.1)
  {
    match reload
    case Ok(config) =>
      // get_metadata().unwrap_or_default()
      var meta := match metadata case Ok(m) => m case Err(_) => ("", "");
      (match ConfigSummary(config.serverPort, config.feishuWebhooks, meta.0, meta.1)
      case None => None
      case Some(summary) => Some(ReloadedReply(summary)))
    case Err(e) => Some(ReloadFailedReply(e))
  }

  function ViewedReply(summary: Json): (r: Reply)
    ensures Tagged(r, 200, "success", "view")
    ensures Lookup(r.body.json, ["config"]) == Some(summary)
  {
    assert ["action"][1..] == [] && ["status"][1..] == [] && ["config"][1..] == [];
    Reply(200, JsonBody(Object(map[
      "status" := Str("success"),
      "action" := Str("view"),
      "config" := summary])))
  }

  function ViewConfigFailedReply(path: string, hash: string, e: string): (r: Reply)
    ensures Tagged(r, 200, "error", "view")
    ensures Lookup(r.body.json, ["config_file"]) == Some(Str(path))
    ensures Lookup(r.body.json, ["md5_hash"]) == Some(Str(hash))
    ensures Lookup(r.body.json, ["error"]) == Some(Str(e))
  {
    assert ["action"][1..] == [] && ["status"][1..] == [] && ["error"][1..] == [];
    assert ["config_file"][1..] == [] && ["md5_hash"][1..] == [];
    Reply(200, JsonBody(Object(map[
      "status" := Str("error"),
      "action" := Str("view"),
      "config_file" := Str(path),
      "md5_hash" := Str(hash),
      "error" := Str(e)])))
  }

  function ViewMetadataFailedReply(e: string): (r: Reply)
    ensures Tagged(r, 500, "error", "view")
    ensures Lookup(r.body.json, ["error"]) == Some(Str(e))
  {
    assert ["action"][1..] == [] && ["status"][1..] == [] && ["error"][1..] == [];
    Reply(500, JsonBody(Object(map[
      "status" := Str("error"),
      "action" := Str("view"),
      "error" := Str(e)])))
  }

  /** The GET branch of `manage_config`: report without reloading. A configuration that
      cannot be read is still answered with 200, with status "error". */
  function ManageView(metadata: Result<(string, string), string>, current: Result<ConfigView, string>): (r: Option<Reply>)
    ensures r.None? <==> metadata.Ok? && current.Ok? && !PreviewsDefined(current.value.feishuWebhooks)
    ensures r.Some? && metadata.Ok? && current.Ok? ==> Tagged(r.value, 200, "success", "view")
    ensures r.Some? && metadata.Ok? && current.Err? ==> Tagged(r.value, 200, "error", "view")
    ensures r.Some? && metadata.Err? ==> Tagged(r.value, 500, "error", "view")
    ensures r.Some? && metadata.Ok? && current.Ok? ==>
      Lookup(r.value.body.json, ["config"]) ==
        ConfigSummary(current.value.serverPort, current.value.feishuWebhooks, metadata.value.0, metadata.value.1)
  {
    match metadata
    case Ok((path, hash)) =>
      (match current
      case Ok(config) =>
        (match ConfigSummary(config.serverPort, config.feishuWebhooks, path, hash)
        case None => None
        case Some(summary) => Some(ViewedReply(summary)))
      case Err(e) => Some(ViewConfigFailedReply(path, hash, e)))
    case Err(e) => Some(ViewMetadataFailedReply(e))
  }

  /** The reply to any other method. */
  function MethodNotAllowed(): (r: Reply)
    ensures r.status == 405 && r.body.JsonBody?
    ensures Lookup(r.body.json, ["allowed_methods"]) == Some(Array([Str("GET"), Str("POST")]))
    ensures Lookup(r.body.json, ["status"]) == Some(Str("error"))
  {
    assert ["allowed_methods"][1..] == [] && ["status"][1..] == [];
    Reply(405, JsonBody(Object(map[
      "status" := Str("error"),
      "message" := Str("Method not allowed"),
      "allowed_methods" := Array([Str("GET"), Str("POST")])])))
  }

  /** `manage_config`: "POST" reloads and reports, "GET" reports the current
      configuration, anything else is refused. `reload`, `metadata` and `current` are
      what the configuration manager's `force_reload`, `get_metadata` (config file and
      MD5 hash) and `get_config` return. `None` is the panic of a webhook whose URL
      preview cannot be sliced: the handler then gives no reply. */
  function ManageConfig(httpMethod: string, reload: Result<ConfigView, string>, metadata: Result<(string, string), string>, current: Result<ConfigView, string>): (r: Option<Reply>)
    ensures r.None? <==>
      || (httpMethod == "POST" && reload.Ok? && !PreviewsDefined(reload.value.feishuWebhooks))
      || (httpMethod == "GET" && metadata.Ok? && current.Ok? && !PreviewsDefined(current.value.feishuWebhooks))
    ensures r.Some? ==> r.value.body.JsonBody?
    ensures r.Some? && httpMethod == "POST" ==> Lookup(r.value.body.json, ["action"]) == Some(Str("reload"))
    ensures r.Some? && httpMethod == "GET" ==> Lookup(r.value.body.json, ["action"]) == Some(Str("view"))
    ensures r.Some? ==> (r.value.status == 405 <==> httpMethod != "GET" && httpMethod != "POST")
    ensures r.Some? && r.value.status == 405 ==>
      Lookup(r.value.body.json, ["allowed_methods"]) == Some(Array([Str("GET"), Str("POST")]))
    ensures r.Some? ==> (r.value.status == 200 <==>
      (httpMethod == "POST" && reload.Ok?) || (httpMethod == "GET" && metadata.Ok?))
    ensures r.Some? ==> (Lookup(r.value.body.json, ["status"]) == Some(Str("success")) <==>
      (httpMethod == "POST" && reload.Ok?) || (httpMethod == "GET" && metadata.Ok? && current.Ok?))
    ensures r.Some? && httpMethod == "POST" && reload.Ok? ==>
      var meta := match metadata case Ok(m) => m case Err(_) => ("", "");
      Lookup(r.value.body.json, ["config"]) ==
        ConfigSummary(reload.value.serverPort, reload.value.feishuWebhooks, meta.0, meta.1)
    ensures r.Some? && httpMethod == "GET" && metadata.Ok? && current.Ok? ==>
      Lookup(r.value.body.json, ["config"]) ==
        ConfigSummary(current.value.serverPort, current.value.feishuWebhooks, metadata.value.0, metadata.value.1)
  {
    if httpMethod == "POST" then ManageReload(reload, metadata)
    else if httpMethod == "GET" then ManageView(metadata, current)
    else Some(MethodNotAllowed())
  }

  /** Viewing a configuration that holds the URL of `UrlPreviewAsWrittenPanics` gives no
      reply at all. */
  lemma ManageConfigFailsOnExampleUrl(h: FeishuWebhookConfig, port: U16, path: string, hash: string, reload: Result<ConfigView, string>)
    requires h.url == "https://exampl" + "é" + ".com/hook/0123456789"
    ensures ManageConfig("GET", reload, Ok((path, hash)), Ok(ConfigView(port, [h]))) == None
  {
    UrlPreviewAsWrittenPanics(h.url);
    assert [h][0] == h;
    assert !PreviewsDefined([h]);
  }
}
