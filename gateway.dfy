/**
 * The request gateway (src/lib/axios.ts): the one axios instance every API call
 * goes through. Its request interceptor attaches the stored bearer token; its
 * response interceptor deletes the stored token on a 401 and rejects the error
 * again. The transport itself is not modelled: what the server answered to a
 * request is a parameter (`Reply`).
 */
module Gateway {
  import opened Wrappers
  import opened CredentialStore

  const AuthorizationHeader := "Authorization"
  const BearerPrefix := "Bearer "
  const Unauthorized := 401

  /** An axios error; `status` is `error.response?.status`, absent when no response arrived. */
  datatype HttpError = HttpError(status: Option<int>, message: string)

  /** How a request settled: a fulfilled response body or a rejected error. */
  datatype Reply<+T> = Ok(data: T) | Err(error: HttpError)

  /**
   * The headers the request interceptor leaves on a request: a truthy stored
   * token sets `Authorization` to `Bearer <token>`, nothing else is touched.
   */
  function WithBearer(token: Option<string>, headers: map<string, string>): (h: map<string, string>)
    ensures Truthy(token) ==> AuthorizationHeader in h && h[AuthorizationHeader] == BearerPrefix + token.value
    ensures Truthy(token) ==> h[AuthorizationHeader][..|BearerPrefix|] == BearerPrefix
                              && h[AuthorizationHeader][|BearerPrefix|..] == token.value
    ensures !Truthy(token) ==> h == headers
    ensures forall k :: k in headers && k != AuthorizationHeader ==> k in h && h[k] == headers[k]
    ensures h.Keys <= headers.Keys + {AuthorizationHeader}
  {
    if Truthy(token) then headers[AuthorizationHeader := BearerPrefix + token.value] else headers
  }

  /** The stored token once the response interceptor has seen `reply`. */
  function TokenAfterReply<T>(token: Option<string>, reply: Reply<T>): (t: Option<string>)
    ensures t == token || t == None
    ensures t != token <==> token.Some? && reply.Err? && reply.error.status == Some(Unauthorized)
  {
    if reply.Err? && reply.error.status == Some(Unauthorized) then None else token
  }

  /** An outgoing axios request configuration, which the interceptor updates in place. */
  class RequestConfig {
    var url: string
    var headers: map<string, string>

    constructor (url: string, headers: map<string, string>)
      ensures this.url == url && this.headers == headers
    {
      this.url := url;
      this.headers := headers;
    }
  }

  /** The request interceptor: writes `config.headers.Authorization` and returns the same config. */
  method InterceptRequest(store: TokenStore, config: RequestConfig) returns (r: RequestConfig)
    modifies config
    ensures r == config
    ensures config.url == old(config.url)
    ensures config.headers == WithBearer(store.token, old(config.headers))
  {
    var token := store.GetItem();
    if Truthy(token) {
      config.headers := config.headers[AuthorizationHeader := BearerPrefix + token.value];
    }
    r := config;
  }

  /**
   * The response interceptor: a fulfilled response passes through, an error is
   * rejected again; only a 401 touches storage, and only the token slot.
   */
  method InterceptResponse<T>(store: TokenStore, reply: Reply<T>) returns (r: Reply<T>)
    modifies store
    ensures r == reply
    ensures store.token == TokenAfterReply(old(store.token), reply)
    ensures reply.Ok? ==> store.token == old(store.token)
  {
    if reply.Err? && reply.error.status == Some(Unauthorized) {
      store.RemoveItem();
    }
    r := reply;
  }

  /**
   * One call through the gateway: a fresh config for `url` passes the request
   * interceptor, `reply` is what the server answered, and the response
   * interceptor sees it before the caller does.
   */
  method Send<T>(store: TokenStore, url: string, headers: map<string, string>, reply: Reply<T>)
    returns (sent: RequestConfig, r: Reply<T>)
    modifies store
    ensures fresh(sent) && sent.url == url
    ensures sent.headers == WithBearer(old(store.token), headers)
    ensures r == reply
    ensures store.token == TokenAfterReply(old(store.token), reply)
  {
    sent := new RequestConfig(url, headers);
    sent := InterceptRequest(store, sent);
    r := InterceptResponse(store, reply);
  }

  /** After a 401 the next request goes out without a bearer header of the gateway's making. */
  lemma NoBearerAfterUnauthorized<T>(token: Option<string>, message: string, headers: map<string, string>)
    ensures WithBearer(TokenAfterReply<T>(token, Err(HttpError(Some(Unauthorized), message))), headers) == headers
  {
  }
}
