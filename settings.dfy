/** The configuration one send reads. Nullable fields are `Option`s. */
module Settings {
  import opened Options

  /** `java.net.Proxy.Type`. */
  datatype ProxyType = Direct | Http | Socks

  /** The fields of a Telegram sender setting that the send consults. */
  datatype TelegramSetting = TelegramSetting(
    httpMethod: Option<string>,
    apiToken: string,
    chatId: string,
    proxyType: ProxyType,
    proxyHost: Option<string>,
    proxyPort: Option<string>,
    proxyAuthenticator: Option<bool>,
    proxyUsername: Option<string>,
    proxyPassword: Option<string>
  )

  /** A forwarding rule: the template and the regex replacement it formats the message with. */
  datatype Rule = Rule(smsTemplate: string, regexReplace: string)
}
