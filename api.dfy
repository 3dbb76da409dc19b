/** The shared axios instance: a fixed base address and timeout, and a
    request hook that attaches the stored session token and forces a JSON
    content type on every outgoing request. */
module Api {
  import opened JsText
  import opened Platform

  /** Request timeout of the instance, in milliseconds. */
  const Timeout: int := 15000

  const AuthorizationHeader: string := "Authorization"
  const ContentTypeHeader: string := "Content-Type"
  const JsonContentType: string := "application/json"

  /** The storage key the session token is kept under. */
  const TokenKey: string := "token"

  /** The headers the request hook leaves behind, given the headers the
      request arrived with and the stored token. */
  function SessionHeaders(headers: map<string, string>, token: Option<string>): (r: map<string, string>)
    // a truthy token always wins, replacing any Authorization the caller set
    ensures Truthy(token) ==> AuthorizationHeader in r && r[AuthorizationHeader] == "Bearer " + token.value
    // without one, the caller's Authorization (or its absence) survives
    ensures !Truthy(token) ==>
      && (AuthorizationHeader in r <==> AuthorizationHeader in headers)
      && (AuthorizationHeader in headers ==> r[AuthorizationHeader] == headers[AuthorizationHeader])
    ensures ContentTypeHeader in r && r[ContentTypeHeader] == JsonContentType
    ensures forall k :: k != AuthorizationHeader && k != ContentTypeHeader ==>
      (k in r <==> k in headers) && (k in headers ==> r[k] == headers[k])
  {
    var withAuth := if Truthy(token) then headers[AuthorizationHeader := "Bearer " + token.value] else headers;
    withAuth[ContentTypeHeader := JsonContentType]
  }

  /** The request the instance dispatches for a call made with `headers`
      while the store holds `store`. */
  function Issued(apiUrl: string, store: map<string, string>, verb: HttpMethod,
                  url: string, headers: map<string, string>, body: Body): (q: Request)
    ensures q.baseUrl == apiUrl && q.timeout == Timeout
    ensures q.verb == verb && q.url == url && q.body == body
    ensures q.headers == SessionHeaders(headers, if TokenKey in store then Some(store[TokenKey]) else None)
  {
    var token := if TokenKey in store then Some(store[TokenKey]) else None;
    Request(verb, apiUrl, Timeout, url, SessionHeaders(headers, token), body)
  }

  /** The per-request config object axios hands to the hook. Only its
      headers can change. */
  class RequestConfig {
    const verb: HttpMethod
    const baseUrl: string
    const timeout: int
    const url: string
    const body: Body
    var headers: map<string, string>

    constructor (verb: HttpMethod, baseUrl: string, timeout: int, url: string,
                 headers: map<string, string>, body: Body)
      ensures this.verb == verb && this.baseUrl == baseUrl && this.timeout == timeout
      ensures this.url == url && this.headers == headers && this.body == body
    {
      this.verb := verb;
      this.baseUrl := baseUrl;
      this.timeout := timeout;
      this.url := url;
      this.headers := headers;
      this.body := body;
    }
  }

  /** The request hook: reads the token from the store (never writes it),
      updates the config's headers in place and hands back the same config. */
  method Intercept(config: RequestConfig, device: Device) returns (r: RequestConfig)
    modifies config
    ensures r == config
    ensures config.headers == SessionHeaders(old(config.headers), device.GetItem(TokenKey))
  {
    var token := device.GetItem(TokenKey);
    if Truthy(token) {
      config.headers := config.headers[AuthorizationHeader := "Bearer " + token.value];
    }
    config.headers := config.headers[ContentTypeHeader := JsonContentType];
    r := config;
  }

  /** Sends `url` through the instance: the hook runs, the request is logged
      as dispatched, and the call settles to the server's `answer`. Storage,
      navigation and alerts are untouched. */
  method Send<T>(device: Device, verb: HttpMethod, url: string, headers: map<string, string>,
                 body: Body, answer: Outcome<T>) returns (res: Outcome<T>)
    modifies device
    ensures res == answer
    ensures device.requests == old(device.requests) + [Issued(device.apiUrl, old(device.store), verb, url, headers, body)]
    ensures device.store == old(device.store)
    ensures device.history == old(device.history) && device.alerts == old(device.alerts)
  {
    var config := new RequestConfig(verb, device.apiUrl, Timeout, url, headers, body);
    config := Intercept(config, device);
    device.requests := device.requests + [Request(config.verb, config.baseUrl, config.timeout,
                                                  config.url, config.headers, config.body)];
    res := answer;
  }
}
