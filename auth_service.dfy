/**
 * The auth service (src/services/auth.ts): a token-slot API over the gateway.
 * Request bodies (the credentials) are sent to the server and do not affect
 * the client's state, so they are not modelled.
 */
module AuthService {
  import opened Wrappers
  import opened CredentialStore
  import opened Gateway

  const LoginPath := "/auth/login"
  const RegisterPath := "/auth/register"

  /** The body of a `/auth/login` answer; `token` is absent when the server sent none. */
  datatype LoginResponse = LoginResponse(token: Option<string>)

  /** `authService.isAuthenticated()`: `!!localStorage.getItem('token')`. */
  function IsAuthenticated(store: TokenStore): (b: bool)
    reads store
    ensures b <==> store.token.Some? && store.token.value != ""
  {
    Truthy(store.token)
  }

  /** `authService.login`: stores the returned token only when it is truthy, returns the body. */
  method Login(store: TokenStore, reply: Reply<LoginResponse>) returns (r: Reply<LoginResponse>)
    modifies store
    ensures r == reply
    ensures reply.Ok? && Truthy(reply.data.token) ==> store.token == reply.data.token && IsAuthenticated(store)
    ensures reply.Ok? && !Truthy(reply.data.token) ==> store.token == old(store.token)
    ensures reply.Err? ==> store.token == TokenAfterReply(old(store.token), reply)
  {
    var _, response := Send(store, LoginPath, map[], reply);
    if response.Ok? && Truthy(response.data.token) {
      store.SetItem(response.data.token.value);
    }
    r := response;
  }

  /** `authService.register`: the token slot changes only through the gateway's 401 handling. */
  method Register<T>(store: TokenStore, reply: Reply<T>) returns (r: Reply<T>)
    modifies store
    ensures r == reply
    ensures store.token == TokenAfterReply(old(store.token), reply)
  {
    var _, response := Send(store, RegisterPath, map[], reply);
    r := response;
  }

  /** `authService.logout`: removes the token; a second call finds nothing to remove. */
  method Logout(store: TokenStore)
    modifies store
    ensures store.token == None && !IsAuthenticated(store)
  {
    store.RemoveItem();
  }
}
