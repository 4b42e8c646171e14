# glitchtip-webhook-relay in Dafny

A Dafny model of the core of glitchtip-webhook-relay. This is a small service that
takes alerts from GlitchTip in Slack's attachment format and relays them to Feishu
(Lark) robot webhooks. The model covers:

- **Converter** (`src/converter.rs`). The three conversions of an alert into a Feishu
  message: plain text (`"text"`), rich-text post (`"post"`) and interactive card
  (`"interactive"`). Each conversion is a method that builds its result step by step,
  as the source does. It is proved equal to a specification function, and the shape of
  each message is stated about that function. The card is a JSON tree (`Json.Json`).
- **Service** (`src/service.rs`):
  - the forwarding loop over the legacy Feishu webhook list;
  - classification of one send as success or `"HTTP <status>: <body>"`;
  - the alert endpoint's reply;
  - the configuration endpoint, with its enabled count, URL preview and method dispatch.

  The HTTP client is an oracle `send(url, message)` that returns what the POST produced.
- **ConfigLoader** (`src/config.rs`):
  - selection of the configuration file among four fixed paths;
  - parser dispatch by file suffix;
  - `apply_env_overrides`, modelled as a method of the class `RelayConfig` that changes
    its fields in place.

  The filesystem, the TOML and JSON parsers and the process environment are parameters.
- **Types and Serde** (`src/types.rs`):
  - the records and tagged unions;
  - the `default_*` and `is_default_*` pairs;
  - `Config::default`;
  - serde's "omit when default, restore when absent" behaviour, written as functions
    between each record and `Json`, with round-trip lemmas.
- **Text**: the pieces of Rust's standard library the core relies on:
  - decimal formatting;
  - `str::parse::<u16>`;
  - UTF-8 byte lengths and byte-offset slicing.

The snapshot of the source is in the middle of a refactor:

- `Config` declares `webhooks: Vec<WebhookConfig>`.
- `src/config.rs` and `src/service.rs` still read and push `config.feishu_webhooks`, a list
  of legacy `FeishuWebhookConfig` records.

`ConfigLoader.RelayConfig` holds the four declared fields and the legacy list.
Forwarding and the configuration endpoint work on the legacy list. `src/service.rs:55` builds a `Converter` with `Converter::new`, which no shown file
defines, so the model calls the three conversions as the free functions that
`src/converter.rs` declares.

Facts about the code that the model keeps:

- A forwarding run with failures answers HTTP 500 with status `"partial_success"`
  (`src/service.rs:45-49`).
- `apply_env_overrides` appends an `"env_webhook"` entry on every call, without looking
  for an earlier one (`src/config.rs:74`).
- A configuration file that exists but cannot be read or parsed is an error. Loading
  returns it and does not try the next path (`src/config.rs:20`).
- The configuration endpoint computes `url_preview` on UTF-8 byte offsets
  (`src/service.rs:163-167`, `207-211`). The model does the same: a URL that cannot be
  cut at those offsets makes the handler panic, and the model's `Service.ManageConfig`
  then gives no reply (`None`).

## Model

| member | source | states |
|---|---|---|
| Types.IsDefaultParallel | src/types.rs:237-238 | `is_default_parallel(v)` holds exactly when `v` equals `default_parallel()` (1) |
| Types.IsDefaultTimeout | src/types.rs:239-240 | `is_default_timeout(v)` holds exactly when `v` equals `default_timeout()` (30) |
| Types.IsDefaultRetry | src/types.rs:241-242 | `is_default_retry(v)` holds exactly when `v` equals `default_retry()` (3) |
| Types.IsDefaultEnabled | src/types.rs:262-263 | `is_default_enabled(v)` holds exactly when `v` equals `default_enabled()` (true) |
| Types.IsDefaultRuntimeConfig | src/types.rs:264-273 | holds exactly for `{n_par: 1, timeout: 30, retry: 3}`, and exactly when all three per-field tests hold |
| Types.IsDefaultServerPort | src/types.rs:293-294 | holds exactly for the default port 7876 |
| Types.IsDefaultServerHost | src/types.rs:295-296 | holds exactly for the default host "127.0.0.1" |
| Types.IsDefaultWebhooks | src/types.rs:297-298 | holds exactly for the default, the empty list |
| Types.DefaultConfig | src/types.rs:314-322 | `Config::default()` has every field at its serde default and no template directory |
| Text.ParseU16RoundTrip | src/config.rs:67 | the decimal text of any value up to 65535 parses back to that value |
| Text.ParseU16Shape | src/config.rs:67 | a text that parses as `u16` is all digits, or one '+' followed by at least one digit |
| Text.CharIndexAtByteSound | src/service.rs:164 | an index found for a byte offset ends exactly that many UTF-8 bytes into the string |
| Text.CharIndexAtByteComplete | src/service.rs:164 | the byte offset that ends any prefix of whole characters is found, at that prefix's length |
| Text.CharIndexAtByteFindsBoundary | src/service.rs:164 | an index is found exactly when the byte offset is a character boundary, where Rust's slicing does not panic |
| Serde.PostElementFromJson | src/types.rs:103-127 | a decoded post element carries the tag of its variant ("text", "a", "at") |
| Serde.PostElementRoundTrip | src/types.rs:103-127 | every post element, including `at` with or without `user_name`, decodes back from its JSON |
| Serde.ButtonsRoundTrip | src/types.rs:206-209 | a list of buttons decodes back from its JSON array |
| Serde.FeishuConfigRoundTrip | src/types.rs:169-178 | a Feishu config decodes back from its fields (absent options omitted), whatever other keys sit beside them |
| Serde.WecomConfigRoundTrip | src/types.rs:183-190 | a WeCom config decodes back from its fields, whatever other keys sit beside them |
| Serde.DingtalkConfigRoundTrip | src/types.rs:195-201 | a DingTalk config decodes back from its fields, whatever other keys sit beside them |
| Serde.ForwardConfigToJson | src/types.rs:214-222 | the encoding carries the variant's name under "type" |
| Serde.ForwardConfigFromJson | src/types.rs:214-222 | a decoded forward config has the "type" it was read from, and that tag is one of the three variant names |
| Serde.ForwardConfigRoundTrip | src/types.rs:214-222 | every forward config decodes back from its internally tagged JSON |
| Serde.ForwardConfigClosed | src/types.rs:214-222 | any other "type" is refused as an unknown variant |
| Serde.RuntimeConfigToJson | src/types.rs:227-242 | each of `n_par`, `timeout`, `retry` is written exactly when it differs from its default |
| Serde.RuntimeConfigRoundTrip | src/types.rs:227-242 | every runtime config decodes back from its JSON; omitted fields come back as their defaults |
| Serde.RuntimeConfigDefaultIsEmpty | src/types.rs:229-234 | the default runtime config encodes as `{}`, and `{}` decodes to the default |
| Serde.WebhookConfigToJson | src/types.rs:253-259 | "enabled" and "config" are written exactly when they differ from their defaults |
| Serde.WebhookConfigRoundTrip | src/types.rs:247-273 | every webhook config decodes back from its JSON |
| Serde.WebhooksRoundTrip | src/types.rs:289-290 | every list of webhook configs decodes back from its JSON array, in order |
| Serde.ConfigToJson | src/types.rs:278-298 | "server_port", "server_host", "template_dir" and "webhooks" are written exactly when not at their defaults (or absent) |
| Serde.ConfigRoundTrip | src/types.rs:278-298 | every configuration decodes back from its JSON |
| Serde.DefaultConfigIsEmptyDocument | src/types.rs:314-322 | `Config::default()` encodes as `{}`, and `{}` decodes to `Config::default()` |
| Converter.TextMessage | src/converter.rs:28-35 | the text message has type "text", a text content, no post and no card |
| Converter.GlitchtipToFeishuText | src/converter.rs:6-36 | the string built by the loops over all attachments and fields is the text message's body |
| Converter.TextLayout | src/converter.rs:7-26 | the text opens with the alias header, then the error line when an attachment exists; it ends with the details link exactly when the first attachment has a non-empty link |
| Converter.AllFieldsOrder | src/converter.rs:15-19 | field `j` of attachment `i` sits at position (fields of attachments before `i`) + `j` of the field list |
| Converter.TextFieldLines | src/converter.rs:15-19 | the text has one "**title**: value" line per field of every attachment, in attachment-then-field order |
| Converter.FieldRow | src/converter.rs:53-66 | the second post row has one text per field of the first attachment, in order, and ends with the details link when there is one |
| Converter.PostRows | src/converter.rs:39-71 | no rows without attachments; otherwise row 0 holds the header and error texts, and a second row exists exactly when there are fields or a link |
| Converter.RichTextMessage | src/converter.rs:73-85 | the post has type "post", title "<alias> - 错误通知", those rows, and no card |
| Converter.GlitchtipToFeishuRichText | src/converter.rs:38-86 | the rows pushed by the loop are the post's content |
| Converter.SetBodyElements | src/converter.rs:152-153 | writing body.elements makes it read back as the written list and changes nothing else: every other top-level member and every other member of "body" keeps its value |
| Converter.SetBodyElementsOfCard | src/converter.rs:90-103 | writing the elements into the empty card gives the card with those elements |
| Converter.CardMessage | src/converter.rs:155-159 | the card message has type "interactive", no content, and the card |
| Converter.GlitchtipToFeishuCard | src/converter.rs:88-160 | the elements pushed one by one and written into the card give the card message |
| Converter.CardReadBack | src/converter.rs:90-103 | the card reads back schema "2.0", header template "red", title "<alias> - 错误通知", and the elements under body.elements |
| Converter.IsShortOfFieldDiv | src/converter.rs:119-130 | a field element carries the field's `short` flag as `is_short` |
| Converter.CardElementsShape | src/converter.rs:105-150 | no element without attachments; otherwise 1 + fields + (1 if a link) elements, the field elements carry the `short` flags in order, and the last one is the link button |
| Converter.PostAndCardUseFirstAttachment | src/converter.rs:42 | the post and the card depend only on the alias and the first attachment |
| Service.SendToFeishu | src/service.rs:80-96 | a send succeeds exactly on a 2xx response; a transport error is passed on; any other status gives "HTTP <status>: <body>" |
| Service.HttpErrorNamesStatus | src/service.rs:92-94 | an HTTP error text starts with "HTTP " followed by the status code, which parses back |
| Service.EntryFor | src/service.rs:58-74 | a webhook contributes one error entry exactly when it is enabled and its send fails |
| Service.ForwardToFeishu | src/service.rs:53-78 | the loop's errors are the per-webhook entries in order, and its posts are the card sent to each enabled webhook |
| Service.DisabledAreSkipped | src/service.rs:57-60 | disabled webhooks produce no error: the errors equal those of the enabled webhooks alone |
| Service.PostsGoToEnabled | src/service.rs:57-65 | one post per enabled webhook, in order, to its URL, carrying the alert's card |
| Service.ErrorsAreFailures | src/service.rs:65-74 | exactly one "<name>: <error>" entry per enabled webhook whose send failed, in order, with no short-circuit |
| Service.NoErrorsIffAllDelivered | src/service.rs:53-77 | the error list is empty exactly when every enabled send succeeded |
| Service.ForwardReply | src/service.rs:37-50 | no errors gives 200 "success" with no error list; otherwise 500 "partial_success" with the list |
| Service.ReceiveGlitchtipWebhook | src/service.rs:22-51 | a configuration error answers 500 "Configuration error"; otherwise the reply is chosen from the forwarding errors |
| Service.ReceiveOkIffAllDelivered | src/service.rs:35-50 | the alert endpoint answers 200 exactly when every enabled webhook accepted the card |
| Service.EnabledCount | src/service.rs:153-155 | the enabled count is at most the number of webhooks |
| Service.EnabledCountIsEnabled | src/service.rs:197-199 | the count is the number of enabled entries, and equals the total exactly when all are enabled |
| Service.WebhookSummary | src/service.rs:158-168 | an entry reports the name, the enabled flag, whether a secret is set and the byte-sliced URL preview; it exists exactly when that preview does not panic |
| Service.ConfigSummary | src/service.rs:150-170 | the summary exists exactly when no URL preview panics; it then reports the given server port, configuration file and MD5 hash, the webhook count, the enabled count (at most the first) and one entry per webhook, in order |
| Service.AsciiUrlsShowIntendedPreview | src/service.rs:158-168 | with ASCII URLs no entry panics, and each entry's preview is the intended character-based one |
| Service.UrlPreviewAsWritten | src/service.rs:163-167 | up to 30 bytes the URL is shown unchanged; longer, a result exists exactly when bytes 15 and length-10 are character boundaries, and it is the first 15 bytes, "...", the last 10 bytes (28 bytes) |
| Service.UrlPreviewAsWrittenPanics | src/service.rs:163-167 | a 36-byte URL with 'é' at bytes 14-15 cannot be sliced at byte 15 |
| Service.UrlPreview | src/service.rs:207-211 | over 30 characters: the first 15 characters, "...", the last 10 (28 in all); otherwise the URL itself |
| Service.UrlPreviewAsciiAgrees | src/service.rs:163-167 | on ASCII URLs the byte-sliced preview never panics and equals the character-based one |
| Service.ReloadedReply | src/service.rs:146-171 | a successful reload answers 200 with status "success" and action "reload", and its "config" member is the summary it is given |
| Service.ReloadFailedReply | src/service.rs:173-180 | a failed reload answers 500 with status "error", action "reload" and the reload error under "error" |
| Service.ManageReload | src/service.rs:139-183 | POST gives no reply exactly when the reload succeeds and a preview panics; otherwise 200 "success" after a successful reload, 500 "error" after a failed one; a success reply's "config" member is `ConfigSummary` of the reloaded configuration, with empty file and hash when the metadata cannot be read |
| Service.ViewedReply | src/service.rs:191-215 | a successful view answers 200 with status "success" and action "view", and its "config" member is the summary it is given |
| Service.ViewConfigFailedReply | src/service.rs:217-225 | an unreadable configuration answers 200 with status "error", action "view", the configuration file and MD5 hash, and the read error under "error" |
| Service.ViewMetadataFailedReply | src/service.rs:228-233 | unreadable metadata answers 500 with status "error", action "view" and the metadata error under "error" |
| Service.ManageView | src/service.rs:184-236 | GET gives no reply exactly when metadata and configuration are read and a preview panics; otherwise 200 "success", 200 "error" when only the configuration fails, 500 "error" when the metadata fails; a success reply's "config" member is `ConfigSummary` of the current configuration, file and hash |
| Service.MethodNotAllowed | src/service.rs:237-243 | any other method answers 405 with status "error" and allowed methods GET and POST |
| Service.ManageConfig | src/service.rs:138-243 | no reply exactly when a reached preview panics; otherwise POST reloads (action "reload"), GET views (action "view"), anything else is 405 with allowed methods GET and POST; 200 exactly for a successful reload or readable metadata; "success" exactly when the configuration was obtained, and then the "config" member is `ConfigSummary` of it (counts, enabled count, byte-sliced previews) |
| Service.ManageConfigFailsOnExampleUrl | src/service.rs:207-211 | viewing a configuration that holds the 36-byte example URL gives no reply |
| ConfigLoader.LoadFromFile | src/config.rs:28-38 | a read error is returned; a ".toml" file goes to the TOML parser and a ".json" file to the JSON parser, their errors prefixed; any other suffix is "Unsupported config file format" |
| ConfigLoader.ConfigPathsHaveKnownSuffix | src/config.rs:10-15 | each candidate path has exactly one of the two supported suffixes |
| ConfigLoader.Load | src/config.rs:8-26 | the first existing candidate is loaded and its result, success or failure, is returned; with none present the result is `Config::default()` |
| ConfigLoader.PortOverride | src/config.rs:66-70 | PORT replaces the port only when it parses as a `u16`; otherwise the port is unchanged |
| ConfigLoader.PortOverrideIdempotent | src/config.rs:66-70 | applying the port override twice is applying it once |
| ConfigLoader.PortOverrideTakesPrintedPort | src/config.rs:66-70 | PORT set to the decimal text of a `u16` sets the port to that number |
| ConfigLoader.EnvWebhook | src/config.rs:72-80 | an entry exists exactly when FEISHU_WEBHOOK_URL is set and non-empty: "env_webhook", that URL, enabled, secret from FEISHU_WEBHOOK_SECRET if set |
| ConfigLoader.WebhooksOverride | src/config.rs:72-81 | with that entry the list grows by one, prior entries unchanged and the entry last; without it the list is unchanged |
| ConfigLoader.WebhooksOverrideNotIdempotent | src/config.rs:74 | applying the override twice appends the entry twice, so the result differs from one application |
| ConfigLoader.RelayConfig.constructor | src/types.rs:278-291 | the configuration holds the given declared fields and legacy webhook list |
| ConfigLoader.RelayConfig.ApplyEnvOverrides | src/config.rs:65-82 | the port and the legacy list become their overridden values; host, template directory and declared webhooks are unchanged |
| ConfigLoader.OverrideTwice | src/config.rs:74 | overriding the default configuration twice with the same non-empty URL leaves two entries |

## Left out

- HTTP transport: the reqwest client, the actix handlers, request extraction and
  `HttpResponse` plumbing. A send is the oracle `send(url, message)`. A reply is a status
  number with a body.
- The wire form of an outgoing message: the `Content-Type` header and the serialised
  bytes. Messages are modelled as records and the card as a `Json` tree.
- TOML and JSON text parsing (`toml::from_str`, `serde_json::from_str`) and file reads.
  These are passed into `ConfigLoader.LoadFromFile` as functions, along with the set of
  existing paths. The text of a parser's error is opaque.
- `ConfigManager::save_example_config` (`src/config.rs:40-60`): it only writes a fixed
  file and prints a line.
- `LazyConfigManager`, `get_config`, `force_reload`, `get_metadata` and MD5 hashing are
  not part of this model. Their results are inputs to `Service.ReceiveGlitchtipWebhook`
  and `Service.ManageConfig`. Where the POST path reads metadata with
  `unwrap_or_default`, the model uses empty strings for an error.
- `src/main.rs` (startup, logging, OpenAPI documentation, bind and run) and
  `src/routes.rs` (path constants only). Two consequences are outside the model:
  - `src/main.rs:101` registers the configuration endpoint for GET only, so POST and
    other methods may never reach `manage_config`.
  - The alert route is POST `/i/{endpoint_id}` (`src/routes.rs:19`, `src/main.rs:98-99`).
    It goes to `receive_endpoint_webhook`, which is imported at `src/main.rs:15` and
    defined in no shown file. No route reaches `receive_webhook`, so
    `Service.ReceiveGlitchtipWebhook` models a handler the server never calls.
- Endpoint-name routing (`receive_endpoint_webhook`), template rendering, colour mapping,
  retry and bounded fan-out are not part of this model. No shown file implements them.
  Only their settings are declared: `color_mapping` (`src/types.rs:177`),
  `template_dir` (`src/types.rs:287`) and `n_par`, `timeout`, `retry`
  (`src/types.rs:227-235`).
- The Python test client and mock server under `artifacts/`.
- `Converter::new` and `template_dir` in the forwarding path: the constructor is not
  defined in any shown file, so the three conversions are modelled as free functions.
- Logging calls and the OpenAPI schema annotations.
- Environment variables whose values are not valid Unicode: `std::env::var` then
  fails, and the code treats them as unset. The environment is modelled as a map of
  strings, so this case is absent.
- Service.StatusDisplay: the canonical reason phrase of each status code is an input
  (`StatusCode.reason`), not a table. A missing reason shows as
  "<unknown status code>".
- Service.ForwardToFeishu: the ghost list of posts records the URL and message of each
  send. It does not model timing or the order of network effects.
- Service.ForwardToFeishu: the send oracle is a function of URL and message. Two enabled
  webhooks with the same URL therefore get the same outcome, although two real POSTs
  may differ. No stated property depends on this.
- Serde round trips cover the document tree after parsing, as `Json.Json` values. The
  model does not encode to or decode from TOML or JSON text. Numbers are unbounded
  integers range-checked where the target type is bounded.

## Findings

| source | as written | input that shows it | evidently intended | confidence | as-written member | corrected member |
|---|---|---|---|---|---|---|
| src/service.rs:163-167 (and 207-211) | `url_preview` tests `url.len() > 30` and slices `&url[..15]` and `&url[len-10..]` by UTF-8 byte offsets; slicing a `String` at an offset inside a multi-byte character panics | the 36-byte URL "https://exampl" + "é" + ".com/hook/0123456789": byte 15 is the second byte of 'é', so `&url[..15]` panics and the configuration endpoint fails for every configuration holding it | the first 15 and the last 10 characters around "...", which never panics | not executed | Service.UrlPreviewAsWrittenPanics | Service.UrlPreview |
