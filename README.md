# Telegram sender of SmsForwarder, modelled in Dafny

This project models the deterministic core of the Telegram sender of SmsForwarder
(`TelegramUtils.kt`): the narrow HTML escape of the message text, the choice of the Bot API
endpoint, the shape of the GET or POST request, the proxy decision (including when the send
throws before anything is executed and which kind of proxy authentication is attached), and the
classification of the HTTP client's callback into the single log update it makes.

Modules, one per component:

- `Options` (options.dfy): `Option` for Kotlin's nullable values, `TextUtils.isEmpty`, and
  Kotlin's `toString()` of a nullable string (`null` becomes the text "null").
- `Settings` (settings.dfy): the fields of the Telegram setting the send reads, and a rule.
  The setting's `method` field is called `httpMethod` here, since `method` is a Dafny keyword.
- `HtmlEscape` (html_escape.dfy): `Escape`, the recursive specification of `htmlEncode`;
  `HtmlEncode`, the buffer loop itself, proved equal to it; `Unescape`, a decoder of exactly
  the four entities, proved to undo the escape, which shows the escape loses nothing.
- `RequestBuilder` (request.dfy): `Endpoint`, `PostBody`, `BuildRequest`.
- `ProxyResolver` (proxy.dfy): `AuthFor`, `PlanProxy`.
- `ResultClassifier` (outcome.dfy): `Classify`, the `LogSink` class standing for
  `SendUtils.updateLogs`, and `Deliver`, the callback object.
- `TelegramSender` (sender.dfy): `Prepare` (the synchronous part of `sendMsg`), and the methods
  `SendMsg` and `SendMsgWithoutRule` (the two-argument overload).

Calls into code that is not part of this model are parameters: `URLEncoder.encode`
(`urlEncode`), `NetworkUtils.isIP` and `NetworkUtils.getDomainAddress` (`isIP`, `resolve`),
`String.toInt` on the port (`parsePort`, `None` meaning it throws), Gson's parse of the
response reduced to its `ok` field (`parseOk`), `getContentForSend` (`contentFor`), and the
HTTP client's execution (`execute`, which gives the callback it eventually invokes).

Behaviour of the code worth noting:

- An unresolvable proxy host makes `sendMsg` throw; no failure is logged for it
  (`SendMsg` leaves the sink unchanged).
- The port default 7890 is never used: the guard already demands a non-empty port, and a
  non-numeric port makes `toInt` throw rather than fall back. The model aborts with
  `PortNotNumeric`. A numeric port outside 0 to 65535 is refused by `InetSocketAddress`,
  modelled as `PortOutOfRange`.
- There is no check for a missing token: the token is a non-null string and is used as it is.
- Skipping the log write when the log id is null is not done in this file; the model passes the
  (possibly absent) log id to the sink with every update.

## Model

| member | source | states |
|---|---|---|
| HtmlEscape.EscapeChar | app/src/main/java/com/idormy/sms/forwarder/utils/sender/TelegramUtils.kt:142-149 | each of `<`, `>`, `&`, `"` becomes an entity starting with `&` and ending with `;`; every other character (line breaks included) maps to itself; no image contains `<`, `>` or `"` |
| HtmlEscape.Escape | app/src/main/java/com/idormy/sms/forwarder/utils/sender/TelegramUtils.kt:141-151 | the escape is never shorter than its input, never contains `<`, `>` or `"`, and is the identity on text without the four special characters |
| HtmlEscape.EscapeAppend | app/src/main/java/com/idormy/sms/forwarder/utils/sender/TelegramUtils.kt:141-151 | the escape works character by character: it distributes over concatenation |
| HtmlEscape.HtmlEncode | app/src/main/java/com/idormy/sms/forwarder/utils/sender/TelegramUtils.kt:136-152 | a null source gives the empty string; the buffer loop yields exactly the escape of the source |
| HtmlEscape.UnescapeAfterEscapeChar | app/src/main/java/com/idormy/sms/forwarder/utils/sender/TelegramUtils.kt:142-149 | decoding an escaped character followed by any text yields the character followed by the decoding of that text |
| HtmlEscape.UnescapeEscape | app/src/main/java/com/idormy/sms/forwarder/utils/sender/TelegramUtils.kt:141-151 | the escape loses nothing: decoding the entities gives back the original text |
| HtmlEscape.EscapeInjective | app/src/main/java/com/idormy/sms/forwarder/utils/sender/TelegramUtils.kt:141-151 | different texts never escape to the same text |
| RequestBuilder.Endpoint | app/src/main/java/com/idormy/sms/forwarder/utils/sender/TelegramUtils.kt:41-45 | a token starting with "http" is the URL itself; otherwise the URL is the Bot API base, the token, then "/sendMessage", and the token can be read back from it; the URL always starts with "http" |
| RequestBuilder.EndpointIdempotent | app/src/main/java/com/idormy/sms/forwarder/utils/sender/TelegramUtils.kt:41-45 | selecting the endpoint of an endpoint changes nothing |
| RequestBuilder.PostBody | app/src/main/java/com/idormy/sms/forwarder/utils/sender/TelegramUtils.kt:53-57 | the body has exactly the keys chat_id, text, parse_mode, disable_web_page_preview; chat_id is the chat, text is the HTML escape of the content and decodes back to the content, parse_mode is "HTML", previews are off as the string "true" |
| RequestBuilder.BuildRequest | app/src/main/java/com/idormy/sms/forwarder/utils/sender/TelegramUtils.kt:48-61 | the request is a GET exactly when the method is "GET" (null and any other method give a POST); a GET's URL is the endpoint with chat_id and the URL-encoded text appended and it has no body; a POST goes to the endpoint with the four-key body |
| RequestBuilder.RequestUrlExtendsEndpoint | app/src/main/java/com/idormy/sms/forwarder/utils/sender/TelegramUtils.kt:41-51 | every request URL begins with the selected endpoint and with "http" |
| Options.NullableToString | app/src/main/java/com/idormy/sms/forwarder/utils/sender/TelegramUtils.kt:87 | a null string renders as the text "null", any other as itself |
| ProxyResolver.AuthFor | app/src/main/java/com/idormy/sms/forwarder/utils/sender/TelegramUtils.kt:79-98 | no authentication unless it is switched on and a username or password is non-empty; then an HTTP proxy gets the Proxy-Authorization header with both values through toString(), any other type the process-wide authenticator with the password kept nullable |
| ProxyResolver.PlanProxy | app/src/main/java/com/idormy/sms/forwarder/utils/sender/TelegramUtils.kt:64-80 | no proxy exactly when the type is not HTTP or SOCKS or the host or port is empty; the send aborts with an unresolved host exactly when the host is not an IP and its resolution is not one either; once the host is or resolves to an IP, the send aborts on the port exactly when it does not parse or lies outside 0 to 65535, and otherwise uses a proxy of the configured type at the literal host or its DNS answer, the parsed port and the chosen authentication |
| ProxyResolver.LiteralIpNeedsNoResolution | app/src/main/java/com/idormy/sms/forwarder/utils/sender/TelegramUtils.kt:69 | a host that already is an IP is used as it is, whatever DNS would answer |
| ProxyResolver.CredentialsIgnoredWithoutAuth | app/src/main/java/com/idormy/sms/forwarder/utils/sender/TelegramUtils.kt:79-81 | unless authentication is switched on, the credentials do not affect the proxy decision |
| ResultClassifier.Classify | app/src/main/java/com/idormy/sms/forwarder/utils/sender/TelegramUtils.kt:112-126 | the status is 0 or 2; it is 2 exactly for a success whose parsed ok is true (null and false fail); the message is the error's display message or the raw response |
| ResultClassifier.Deliver | app/src/main/java/com/idormy/sms/forwarder/utils/sender/TelegramUtils.kt:110-128 | each callback appends exactly one log update, carrying the log id and the classification |
| ResultClassifier.LogSink.UpdateLogs | app/src/main/java/com/idormy/sms/forwarder/utils/sender/TelegramUtils.kt:114 | a log update appends one entry to the sink |
| TelegramSender.Prepare | app/src/main/java/com/idormy/sms/forwarder/utils/sender/TelegramUtils.kt:35-100 | the send throws exactly when the proxy decision aborts; otherwise it hands over the built request with the non-aborting proxy plan and the caller's log id |
| TelegramSender.UnresolvedProxyHostThrows | app/src/main/java/com/idormy/sms/forwarder/utils/sender/TelegramUtils.kt:69-72 | a configured proxy host that neither is nor resolves to an IP stops the send with an unresolved-host reason |
| TelegramSender.NoProxyNeverThrows | app/src/main/java/com/idormy/sms/forwarder/utils/sender/TelegramUtils.kt:64-66 | without a configured proxy the request is always handed over, with no proxy |
| TelegramSender.SendMsg | app/src/main/java/com/idormy/sms/forwarder/utils/sender/TelegramUtils.kt:29-130 | a send that throws logs nothing; a submitted send logs exactly one entry, the classification of the callback the client gives for the request and proxy |
| TelegramSender.SendMsgWithoutRule | app/src/main/java/com/idormy/sms/forwarder/utils/sender/TelegramUtils.kt:132-134 | the two-argument overload sends without a rule and with no log id |

## Left out

- Request execution: the client's asynchronous scheduling, timeout, retry count and delays,
  cache mode, ignoring HTTPS certificates and time stamps (lines 102-110) are settings of the HTTP
  library, whose retry and back-off behaviour is not part of this model. The client is the
  `execute` parameter, which yields the one callback it invokes.
- JSON: Gson's serialisation of the body (line 58) is not modelled; the body is its key-to-value
  map. Parsing the response (line 120) is the `parseOk` parameter; a body Gson cannot parse, or
  parses to null, makes the callback throw in the source, which is not modelled.
- `URLEncoder.encode`, `NetworkUtils.isIP`, `NetworkUtils.getDomainAddress` and `String.toInt`
  are parameters, not definitions.
- `Authenticator.setDefault` (line 93) is process-wide state and `Credentials.basic` (line 87) a
  library encoding: the model records only which kind of authentication is chosen and with
  which values, not the global registration or the Base64 header value.
- Building the content (lines 35-39, `getContentForSend`) is the `contentFor` parameter, and
  logging through `Log` is not modelled.
- `Proxy.Type` is modelled as never null; a null type would also give no proxy.
