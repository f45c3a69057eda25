/**
 * Whether the request is routed through a proxy, when the send is aborted before anything
 * is executed, and which kind of proxy authentication is attached.
 */
module ProxyResolver {
  import opened Options
  import opened Settings

  /**
   * How the credentials reach the proxy: a `Proxy-Authorization` header added to the request
   * that answers an HTTP proxy's challenge, or a process-wide `Authenticator` for SOCKS.
   */
  datatype ProxyAuth =
    | NoAuth
    | AuthorizationHeader(username: string, password: string)
    | DefaultAuthenticator(user: string, passwordChars: Option<string>)

  /** Why the send throws before the request is executed. */
  datatype AbortReason =
    | HostUnresolved(proxyHost: Option<string>)
    | PortNotNumeric(proxyPort: string)
    | PortOutOfRange(port: int)

  datatype ProxyPlan =
    | NoProxy
    | Abort(reason: AbortReason)
    | UseProxy(kind: ProxyType, host: string, port: int, auth: ProxyAuth)

  /** A proxy is configured: type HTTP or SOCKS, non-empty host, non-empty port. */
  predicate ProxyConfigured(setting: TelegramSetting)
  {
    (setting.proxyType == Http || setting.proxyType == Socks)
    && !IsEmpty(setting.proxyHost) && !IsEmpty(setting.proxyPort)
  }

  /** Credentials are attached: authentication switched on and a username or a password given. */
  predicate AuthRequested(setting: TelegramSetting)
  {
    setting.proxyAuthenticator == Some(true)
    && (!IsEmpty(setting.proxyUsername) || !IsEmpty(setting.proxyPassword))
  }

  /**
   * The authentication for a configured proxy. The header carries both values through
   * `toString()`, so a null one becomes the text "null"; the SOCKS authenticator keeps a null
   * password as null.
   */
  function AuthFor(setting: TelegramSetting): (a: ProxyAuth)
    ensures a.NoAuth? <==> !AuthRequested(setting)
    ensures a.AuthorizationHeader? <==> AuthRequested(setting) && setting.proxyType == Http
    ensures a.DefaultAuthenticator? <==> AuthRequested(setting) && setting.proxyType != Http
    ensures a.AuthorizationHeader? ==>
      a.username == NullableToString(setting.proxyUsername) && a.password == NullableToString(setting.proxyPassword)
    ensures a.DefaultAuthenticator? ==>
      a.user == NullableToString(setting.proxyUsername) && a.passwordChars == setting.proxyPassword
  {
    if !AuthRequested(setting) then NoAuth
    else if setting.proxyType == Http then
      AuthorizationHeader(NullableToString(setting.proxyUsername), NullableToString(setting.proxyPassword))
    else
      DefaultAuthenticator(NullableToString(setting.proxyUsername), setting.proxyPassword)
  }

  /** The host used for the proxy: the configured one when it is an IP, otherwise its DNS answer. */
  function ResolvedHost(host: string, isIP: string -> bool, resolve: string -> Option<string>): Option<string>
  {
    if isIP(host) then Some(host) else resolve(host)
  }

  /** The configured host is an IP or resolves to one. */
  predicate HostResolves(setting: TelegramSetting, isIP: string -> bool, resolve: string -> Option<string>)
    requires ProxyConfigured(setting)
  {
    var resolved := ResolvedHost(setting.proxyHost.value, isIP, resolve);
    resolved.Some? && isIP(resolved.value)
  }

  /**
   * The proxy decision. `isIP` and `resolve` stand for `NetworkUtils.isIP` and
   * `NetworkUtils.getDomainAddress`; `parsePort` for `String.toInt`, `None` meaning it throws.
   * The port must then fit `InetSocketAddress`, 0 to 65535.
   */
  function PlanProxy(setting: TelegramSetting, isIP: string -> bool, resolve: string -> Option<string>,
                     parsePort: string -> Option<int>): (plan: ProxyPlan)
    ensures plan.NoProxy? <==> !ProxyConfigured(setting)
    ensures plan.UseProxy? ==>
      && plan.kind == setting.proxyType && plan.kind != Direct
      && isIP(plan.host)
      && Some(plan.host) == ResolvedHost(setting.proxyHost.value, isIP, resolve)
      && 0 <= plan.port <= 65535
      && Some(plan.port) == parsePort(setting.proxyPort.value)
      && plan.auth == AuthFor(setting)
    ensures (plan.Abort? && plan.reason.HostUnresolved?) <==>
      ProxyConfigured(setting)
      && !isIP(setting.proxyHost.value)
      && (resolve(setting.proxyHost.value).None? || !isIP(resolve(setting.proxyHost.value).value))
    ensures ProxyConfigured(setting) && HostResolves(setting, isIP, resolve) ==>
      && ((plan.Abort? && plan.reason.PortNotNumeric?) <==> parsePort(setting.proxyPort.value).None?)
      && ((plan.Abort? && plan.reason.PortOutOfRange?) <==>
            parsePort(setting.proxyPort.value).Some? && !(0 <= parsePort(setting.proxyPort.value).value <= 65535))
    ensures forall port: int ::
      ProxyConfigured(setting) && HostResolves(setting, isIP, resolve)
      && parsePort(setting.proxyPort.value) == Some(port) && 0 <= port <= 65535 ==>
        plan == UseProxy(setting.proxyType, ResolvedHost(setting.proxyHost.value, isIP, resolve).value, port,
                         AuthFor(setting))
  {
    if !ProxyConfigured(setting) then NoProxy
    else
      var proxyHost := ResolvedHost(setting.proxyHost.value, isIP, resolve);
      if proxyHost.None? || !isIP(proxyHost.value) then Abort(HostUnresolved(proxyHost))
      else
        match parsePort(setting.proxyPort.value)
        case None => Abort(PortNotNumeric(setting.proxyPort.value))
        case Some(port) =>
          if port < 0 || port > 65535 then Abort(PortOutOfRange(port))
          else UseProxy(setting.proxyType, proxyHost.value, port, AuthFor(setting))
  }

  /** A host that already is an IP is used as it is: DNS is never consulted for it. */
  lemma LiteralIpNeedsNoResolution(setting: TelegramSetting, isIP: string -> bool,
                                   resolve1: string -> Option<string>, resolve2: string -> Option<string>,
                                   parsePort: string -> Option<int>)
    requires ProxyConfigured(setting) && isIP(setting.proxyHost.value)
    ensures PlanProxy(setting, isIP, resolve1, parsePort) == PlanProxy(setting, isIP, resolve2, parsePort)
    ensures PlanProxy(setting, isIP, resolve1, parsePort).UseProxy? ==>
      PlanProxy(setting, isIP, resolve1, parsePort).host == setting.proxyHost.value
  {
  }

  /** The plan does not depend on the credentials unless authentication is requested. */
  lemma CredentialsIgnoredWithoutAuth(setting: TelegramSetting, isIP: string -> bool,
                                      resolve: string -> Option<string>, parsePort: string -> Option<int>,
                                      username: Option<string>, password: Option<string>)
    requires setting.proxyAuthenticator != Some(true)
    ensures PlanProxy(setting, isIP, resolve, parsePort)
         == PlanProxy(setting.(proxyUsername := username, proxyPassword := password), isIP, resolve, parsePort)
  {
  }
}
