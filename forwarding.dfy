/**
  The forwarding operation `send_ntfy_message`: which optional headers the
  outbound POST carries, and the gateway URL it is sent to. The POST itself
  is not modelled; its response status enters the handler as an input.
 */
module Forwarding {
  import opened Wrappers
  import PyStr
  import Settings

  const AuthorizationHeader := "Authorization"
  const TitleHeader := "Title"
  const PriorityHeader := "Priority"

  /** The only headers the relay ever sets. */
  const OptionalHeaders: set<string> := {AuthorizationHeader, TitleHeader, PriorityHeader}

  /** Python truthiness of an optional string: present and non-empty. */
  predicate Truthy(o: Option<string>) {
    o.Some? && o.value != ""
  }

  /** The argument a header is filled from. */
  function ArgumentFor(name: string, token: Option<string>, title: Option<string>, priority: Option<string>): Option<string> {
    if name == AuthorizationHeader then token
    else if name == TitleHeader then title
    else priority
  }

  /** The header map: one entry per optional header whose argument is truthy,
      holding that argument. */
  function Headers(token: Option<string>, title: Option<string>, priority: Option<string>): (h: map<string, string>)
    ensures h.Keys <= OptionalHeaders
    ensures AuthorizationHeader in h <==> Truthy(token)
    ensures TitleHeader in h <==> Truthy(title)
    ensures PriorityHeader in h <==> Truthy(priority)
    ensures AuthorizationHeader in h ==> h[AuthorizationHeader] == token.value
    ensures TitleHeader in h ==> h[TitleHeader] == title.value
    ensures PriorityHeader in h ==> h[PriorityHeader] == priority.value
  {
    map name | name in OptionalHeaders && Truthy(ArgumentFor(name, token, title, priority))
      :: ArgumentFor(name, token, title, priority).value
  }

  /** Builds the header map as the source does: start empty and insert each
      header whose argument is truthy. */
  method BuildHeaders(token: Option<string>, title: Option<string>, priority: Option<string>)
    returns (headers: map<string, string>)
    ensures headers == Headers(token, title, priority)
  {
    headers := map[];
    if Truthy(token) {
      headers := headers[AuthorizationHeader := token.value];
    }
    if Truthy(title) {
      headers := headers[TitleHeader := title.value];
    }
    if Truthy(priority) {
      headers := headers[PriorityHeader := priority.value];
    }
  }

  /** The gateway URL: the base without trailing slashes, one slash, the topic. */
  function TargetUrl(baseUrl: string, topic: string): string {
    PyStr.RStripChar(baseUrl, '/') + "/" + topic
  }

  /** The URL does not depend on how many slashes end the base. */
  lemma TargetUrlIgnoresTrailingSlashes(baseUrl: string, topic: string, n: nat)
    ensures TargetUrl(baseUrl + PyStr.Repeat('/', n), topic) == TargetUrl(baseUrl, topic)
  {
    PyStr.RStripCharIgnoresPadding(baseUrl, '/', n);
  }

  /** The URL is the base, with any trailing slashes replaced by exactly one,
      followed by the topic: when something is left of the base, the character
      before the joining slash is never another slash. */
  lemma TargetUrlJoin(baseUrl: string, topic: string)
    ensures var url := TargetUrl(baseUrl, topic);
            var stem := PyStr.RStripChar(baseUrl, '/');
            && url == stem + "/" + topic
            && baseUrl == stem + PyStr.Repeat('/', |baseUrl| - |stem|)
            && (stem != [] ==> url[|stem| - 1] != '/' && url[|stem|] == '/')
  {
  }

  /** The outbound POST, less the network: where it goes, its headers, its raw
      body and whether the certificate is checked. */
  datatype Request = Request(url: string, headers: map<string, string>, data: string, verifySsl: bool)

  /** `send_ntfy_message(message, token, topic, title, priority)` up to the
      moment the POST is issued: the message travels untouched as the raw
      body, to the base URL (trailing slashes dropped) joined with the topic,
      carrying only the optional headers whose arguments are truthy. */
  function SendRequest(config: Settings.Config, message: string, token: Option<string>, topic: string,
                       title: Option<string>, priority: Option<string>): (r: Request)
    ensures r.data == message && r.verifySsl == config.verifyCert
    ensures var stem := PyStr.RStripChar(config.baseUrl, '/');
            && |r.url| == |stem| + 1 + |topic|
            && r.url[..|stem|] == stem && r.url[|stem|..] == "/" + topic
    ensures r.headers.Keys <= OptionalHeaders
    ensures AuthorizationHeader in r.headers <==> Truthy(token)
    ensures TitleHeader in r.headers <==> Truthy(title)
    ensures PriorityHeader in r.headers <==> Truthy(priority)
    ensures AuthorizationHeader in r.headers ==> r.headers[AuthorizationHeader] == token.value
    ensures TitleHeader in r.headers ==> r.headers[TitleHeader] == title.value
    ensures PriorityHeader in r.headers ==> r.headers[PriorityHeader] == priority.value
  {
    Request(TargetUrl(config.baseUrl, topic), Headers(token, title, priority), message, config.verifyCert)
  }
}
