/** `sendMsg`: build the request, decide the proxy, hand the request over and log its outcome. */
module TelegramSender {
  import opened Options
  import opened Settings
  import opened RequestBuilder
  import opened ProxyResolver
  import opened ResultClassifier

  /**
   * What the send depends on outside this file: the content built from the message
   * (`getContentForSend`, with the rule's template or the global one), URL encoding,
   * and the DNS, IP and port helpers used by the proxy decision.
   */
  datatype Environment = Environment(
    contentFor: Option<Rule> -> string,
    urlEncode: string -> string,
    isIP: string -> bool,
    resolve: string -> Option<string>,
    parsePort: string -> Option<int>
  )

  /** The result of the synchronous part of a send: it throws, or it hands a request to the client. */
  datatype Dispatch =
    | Thrown(reason: AbortReason)
    | Submitted(request: Request, proxy: ProxyPlan, logId: Option<int>)

  /**
   * The synchronous part of `sendMsg`. The request is built first; an unusable proxy then
   * throws before anything is executed.
   */
  function Prepare(setting: TelegramSetting, rule: Option<Rule>, logId: Option<int>, env: Environment): (d: Dispatch)
    ensures d.Thrown? <==> PlanProxy(setting, env.isIP, env.resolve, env.parsePort).Abort?
    ensures d.Thrown? ==> d.reason == PlanProxy(setting, env.isIP, env.resolve, env.parsePort).reason
    ensures d.Submitted? ==>
      && d.request == BuildRequest(setting, env.contentFor(rule), env.urlEncode)
      && d.proxy == PlanProxy(setting, env.isIP, env.resolve, env.parsePort)
      && (d.proxy.NoProxy? || d.proxy.UseProxy?)
      && d.logId == logId
  {
    var content := env.contentFor(rule);
    var request := BuildRequest(setting, content, env.urlEncode);
    var plan := PlanProxy(setting, env.isIP, env.resolve, env.parsePort);
    if plan.Abort? then Thrown(plan.reason) else Submitted(request, plan, logId)
  }

  /** A proxy host that is not an IP and does not resolve to one stops the send. */
  lemma UnresolvedProxyHostThrows(setting: TelegramSetting, rule: Option<Rule>, logId: Option<int>, env: Environment)
    requires ProxyConfigured(setting)
    requires !env.isIP(setting.proxyHost.value)
    requires env.resolve(setting.proxyHost.value).None? || !env.isIP(env.resolve(setting.proxyHost.value).value)
    ensures Prepare(setting, rule, logId, env).Thrown?
    ensures Prepare(setting, rule, logId, env).reason.HostUnresolved?
  {
  }

  /** Without a configured proxy the send never throws, whatever DNS says. */
  lemma NoProxyNeverThrows(setting: TelegramSetting, rule: Option<Rule>, logId: Option<int>, env: Environment)
    requires !ProxyConfigured(setting)
    ensures Prepare(setting, rule, logId, env) ==
      Submitted(BuildRequest(setting, env.contentFor(rule), env.urlEncode), NoProxy, logId)
  {
  }

  /**
   * `sendMsg`. `execute` stands for the HTTP client: given the request and its proxy it
   * eventually invokes one callback. A thrown send logs nothing; a submitted one logs
   * exactly once. Returns the reason when the send throws.
   */
  method SendMsg(setting: TelegramSetting, rule: Option<Rule>, logId: Option<int>, env: Environment,
                 execute: (Request, ProxyPlan) -> Callback, parseOk: string -> Option<bool>, sink: LogSink)
    returns (thrown: Option<AbortReason>)
    modifies sink
    ensures thrown.Some? <==> Prepare(setting, rule, logId, env).Thrown?
    ensures thrown.Some? ==> thrown.value == Prepare(setting, rule, logId, env).reason
    ensures thrown.Some? ==> sink.entries == old(sink.entries)
    ensures thrown.None? ==>
      var d := Prepare(setting, rule, logId, env);
      sink.entries == old(sink.entries) + [LogEntry(logId, Classify(execute(d.request, d.proxy), parseOk))]
  {
    var d := Prepare(setting, rule, logId, env);
    match d {
      case Thrown(reason) =>
        thrown := Some(reason);
      case Submitted(request, proxy, id) =>
        var callback := execute(request, proxy);
        Deliver(sink, id, callback, parseOk);
        thrown := None;
    }
  }

  /** The two-argument overload: no rule and no log id. */
  method SendMsgWithoutRule(setting: TelegramSetting, env: Environment,
                            execute: (Request, ProxyPlan) -> Callback, parseOk: string -> Option<bool>, sink: LogSink)
    returns (thrown: Option<AbortReason>)
    modifies sink
    ensures thrown.Some? <==> Prepare(setting, None, None, env).Thrown?
    ensures thrown.Some? ==> sink.entries == old(sink.entries)
    ensures thrown.None? ==>
      var d := Prepare(setting, None, None, env);
      sink.entries == old(sink.entries) + [LogEntry(None, Classify(execute(d.request, d.proxy), parseOk))]
  {
    thrown := SendMsg(setting, None, None, env, execute, parseOk, sink);
  }
}
