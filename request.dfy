/** Endpoint selection and the shape of the outbound request. */
module RequestBuilder {
  import opened Options
  import opened Settings
  import opened HtmlEscape

  const ApiBase: string := "https://api.telegram.org/bot"
  const SendMessagePath: string := "/sendMessage"

  /** A GET carries everything in its URL; a POST carries a JSON object, kept as its key-to-value map. */
  datatype Request = Get(url: string) | Post(url: string, body: map<string, string>)

  /**
   * The endpoint: a token that already starts with "http" is a full URL and is used as it is;
   * any other token is placed into the Bot API's sendMessage path, from which it can be read back.
   */
  function Endpoint(apiToken: string): (url: string)
    ensures "http" <= url
    ensures "http" <= apiToken ==> url == apiToken
    ensures !("http" <= apiToken) ==>
      && ApiBase <= url
      && |url| == |ApiBase| + |apiToken| + |SendMessagePath|
      && url[|ApiBase|..|ApiBase| + |apiToken|] == apiToken
      && url[|ApiBase| + |apiToken|..] == SendMessagePath
  {
    if "http" <= apiToken then apiToken else ApiBase + apiToken + SendMessagePath
  }

  /** Selecting the endpoint of an endpoint changes nothing. */
  lemma EndpointIdempotent(apiToken: string)
    ensures Endpoint(Endpoint(apiToken)) == Endpoint(apiToken)
  {
    var url := Endpoint(apiToken);
    assert "http" <= url;
  }

  /** The four keys of the JSON body. */
  const BodyKeys: set<string> := {"chat_id", "text", "parse_mode", "disable_web_page_preview"}

  /** The JSON body of a POST: the chat, the HTML-escaped text, HTML parse mode, previews off (as a string). */
  function PostBody(chatId: string, content: string): (body: map<string, string>)
    ensures body.Keys == BodyKeys
    ensures body["chat_id"] == chatId
    ensures body["text"] == Escape(content)
    ensures Unescape(body["text"]) == content
    ensures body["parse_mode"] == "HTML"
    ensures body["disable_web_page_preview"] == "true"
  {
    UnescapeEscape(content);
    map["chat_id" := chatId, "text" := Escape(content), "parse_mode" := "HTML",
        "disable_web_page_preview" := "true"]
  }

  /** The request is a GET only for the method "GET"; a null or any other method gives a POST. */
  predicate IsGetMethod(httpMethod: Option<string>)
  {
    httpMethod == Some("GET")
  }

  /**
   * The request for a setting and a finished content. `urlEncode` stands for
   * `URLEncoder.encode(…, "UTF-8")`.
   */
  function BuildRequest(setting: TelegramSetting, content: string, urlEncode: string -> string): (r: Request)
    ensures r.Get? <==> IsGetMethod(setting.httpMethod)
    ensures r.Get? ==>
      r.url == Endpoint(setting.apiToken) + "?chat_id=" + setting.chatId + "&text=" + urlEncode(content)
    ensures r.Post? ==> r.url == Endpoint(setting.apiToken) && r.body == PostBody(setting.chatId, content)
  {
    var requestUrl := Endpoint(setting.apiToken);
    if setting.httpMethod.Some? && setting.httpMethod.value == "GET" then
      Get(requestUrl + "?chat_id=" + setting.chatId + "&text=" + urlEncode(content))
    else
      Post(requestUrl, PostBody(setting.chatId, content))
  }

  /** Every request goes to an http(s) URL that begins with the selected endpoint. */
  lemma RequestUrlExtendsEndpoint(setting: TelegramSetting, content: string, urlEncode: string -> string)
    ensures Endpoint(setting.apiToken) <= BuildRequest(setting, content, urlEncode).url
    ensures "http" <= BuildRequest(setting, content, urlEncode).url
  {
    var e := Endpoint(setting.apiToken);
    var r := BuildRequest(setting, content, urlEncode);
    assert r.url[..|e|] == e;
    assert r.url[..4] == e[..4];
  }
}
