/**
 * The session manager (src/contexts/AuthContext.tsx): the `AuthProvider`'s
 * `user` state cell over the shared token slot. The JWT library is the
 * `decode` parameter, an arbitrary partial function about which nothing is
 * assumed. Requests to `/auth/login` and `/auth/register` go through the
 * gateway, so a 401 answer removes the stored token on the way back.
 */
module Session {
  import opened Wrappers
  import opened CredentialStore
  import opened Gateway
  import opened AuthService

  /** The claims a token decodes to (src/types/user.ts). */
  datatype User = User(id: string, email: string, username: string, role: string,
                       bio: Option<string>, avatarUrl: Option<string>)

  /** `jwtDecode<User>`: `None` where it throws. */
  type Decoder = string -> Option<User>

  /** What a session operation re-raises to its caller. */
  datatype AuthFailure = RequestFailed(error: HttpError) | TokenUndecodable

  /** The stored token and the in-memory user, as one value. */
  datatype SessionState = SessionState(token: Option<string>, user: Option<User>)

  /** The result of a step: the new state and the error re-raised, if any. */
  datatype Step = Step(state: SessionState, raised: Option<AuthFailure>)

  /**
   * `localStorage.setItem` stores `String(token)`, so a missing token is stored
   * as "undefined". A `null` token would be stored as "null"; both are truthy
   * texts that do not decode, so `None` stands for either.
   */
  function StoredText(token: Option<string>): string {
    token.GetOr("undefined")
  }

  /** `jwtDecode` on the token field of a login answer; it throws on `undefined`. */
  function DecodeField(decode: Decoder, token: Option<string>): Option<User> {
    if token.Some? then decode(token.value) else None
  }

  /** The intended invariant: a user is present exactly when a truthy stored token decodes to it. */
  ghost predicate Coherent(s: SessionState, decode: Decoder) {
    s.user == (if Truthy(s.token) then decode(s.token.value) else None)
  }

  // ---------------------------------------------------------------------------
  // The transitions, one function per path through AuthProvider

  /** The mount effect: restore the user from a truthy stored token, or drop the token. */
  function Restore(s: SessionState, decode: Decoder): SessionState {
    if !Truthy(s.token) then s
    else match decode(s.token.value)
      case Some(u) => SessionState(s.token, Some(u))
      case None => SessionState(None, s.user)
  }

  /** `login`: the token is stored before it is decoded. */
  function LoginStep(s: SessionState, reply: Reply<LoginResponse>, decode: Decoder): Step {
    match reply
    case Err(e) => Step(SessionState(TokenAfterReply(s.token, reply), s.user), Some(RequestFailed(e)))
    case Ok(body) =>
      var stored := Some(StoredText(body.token));
      match DecodeField(decode, body.token)
      case Some(u) => Step(SessionState(stored, Some(u)), None)
      case None => Step(SessionState(stored, s.user), Some(TokenUndecodable))
  }

  /** `register`: the login follows only a successful registration. */
  function RegisterStep<R>(s: SessionState, registered: Reply<R>, reply: Reply<LoginResponse>,
                           decode: Decoder): Step {
    match registered
    case Err(e) => Step(SessionState(TokenAfterReply(s.token, registered), s.user), Some(RequestFailed(e)))
    case Ok(_) => LoginStep(s, reply, decode)
  }

  /** `logout` */
  function LoggedOut(s: SessionState): SessionState {
    SessionState(None, None)
  }

  /** `refreshUser`: re-decode a truthy stored token; with none, nothing happens. */
  function Refresh(s: SessionState, decode: Decoder): SessionState {
    if !Truthy(s.token) then s
    else match decode(s.token.value)
      case Some(u) => SessionState(s.token, Some(u))
      case None => SessionState(None, None)
  }

  /** Any other call through the gateway answered with `reply`: only the token slot can change. */
  function AfterCall<T>(s: SessionState, reply: Reply<T>): SessionState {
    SessionState(TokenAfterReply(s.token, reply), s.user)
  }

  // ---------------------------------------------------------------------------
  // The provider itself

  class AuthProvider {
    const store: TokenStore
    const decode: Decoder
    var user: Option<User>

    function State(): SessionState
      reads this, store
    {
      SessionState(store.token, user)
    }

    /** `useState<User | null>(null)`, over whatever the slot already holds. */
    constructor (store: TokenStore, decode: Decoder)
      ensures this.store == store && this.decode == decode
      ensures State() == SessionState(store.token, None)
    {
      this.store := store;
      this.decode := decode;
      user := None;
    }

    /** `isAuthenticated: !!user` */
    function IsAuthenticated(): (b: bool)
      reads this
      ensures b <==> user.Some?
    {
      user.Some?
    }

    /** The effect that runs once on mount. */
    method Mount()
      modifies this, store
      ensures State() == Restore(old(State()), decode)
    {
      var token := store.GetItem();
      if Truthy(token) {
        match decode(token.value)
        case Some(u) =>
          user := Some(u);
        case None =>
          store.RemoveItem();
      }
    }

    /** `login(email, password)`; `reply` is the server's answer to `/auth/login`. */
    method Login(reply: Reply<LoginResponse>) returns (raised: Option<AuthFailure>)
      modifies this, store
      ensures Step(State(), raised) == LoginStep(old(State()), reply, decode)
      ensures raised == None ==> IsAuthenticated()
      ensures raised != None ==> IsAuthenticated() == old(IsAuthenticated())
    {
      var _, response := Send(store, LoginPath, map[], reply);
      match response
      case Err(e) =>
        raised := Some(RequestFailed(e));
      case Ok(body) =>
        store.SetItem(StoredText(body.token));
        match DecodeField(decode, body.token)
        case Some(u) =>
          user := Some(u);
          raised := None;
        case None =>
          raised := Some(TokenUndecodable);
    }

    /** `register(...)`, then `login` with the same credentials once the account exists. */
    method Register<R>(registered: Reply<R>, reply: Reply<LoginResponse>) returns (raised: Option<AuthFailure>)
      modifies this, store
      ensures Step(State(), raised) == RegisterStep(old(State()), registered, reply, decode)
    {
      var _, response := Send(store, RegisterPath, map[], registered);
      match response
      case Err(e) =>
        raised := Some(RequestFailed(e));
      case Ok(_) =>
        raised := Login(reply);
    }

    /** `logout()` */
    method Logout()
      modifies this, store
      ensures State() == LoggedOut(old(State()))
      ensures !IsAuthenticated()
    {
      store.RemoveItem();
      user := None;
    }

    /**
     * Any other API call made while this provider is mounted: it goes through
     * the gateway, whose 401 rule can remove the stored token, but nothing on
     * that path touches `user`, so `isAuthenticated` is what it was.
     */
    method Call<T>(url: string, reply: Reply<T>) returns (r: Reply<T>)
      modifies this, store
      ensures r == reply
      ensures State() == AfterCall(old(State()), reply)
      ensures IsAuthenticated() == old(IsAuthenticated())
    {
      var _, response := Send(store, url, map[], reply);
      r := response;
    }

    /** `refreshUser()` */
    method RefreshUser()
      modifies this, store
      ensures State() == Refresh(old(State()), decode)
    {
      var token := store.GetItem();
      if Truthy(token) {
        match decode(token.value)
        case Some(u) =>
          user := Some(u);
        case None =>
          store.RemoveItem();
          user := None;
      }
    }
  }

  // ---------------------------------------------------------------------------
  // What each path leaves behind

  /** Startup: a decodable token gives its user, an undecodable one is removed, no token changes nothing. */
  lemma RestoreOutcomes(s: SessionState, decode: Decoder)
    ensures Truthy(s.token) && decode(s.token.value).Some? ==>
              Restore(s, decode) == SessionState(s.token, decode(s.token.value))
    ensures Truthy(s.token) && decode(s.token.value).None? ==>
              Restore(s, decode) == SessionState(None, s.user)
    ensures !Truthy(s.token) ==> Restore(s, decode) == s
    ensures s.user == None ==> Coherent(Restore(s, decode), decode)
  {
  }

  /** `logout` ends signed out from any state, so a second `logout` changes nothing. */
  lemma LogoutIdempotent(s: SessionState, decode: Decoder)
    ensures LoggedOut(s).token == None && LoggedOut(s).user == None
    ensures LoggedOut(LoggedOut(s)) == LoggedOut(s)
    ensures Coherent(LoggedOut(s), decode)
  {
  }

  /** A login answer with a token that decodes stores exactly that token and sets its user. */
  lemma LoginSuccess(s: SessionState, t: string, decode: Decoder)
    requires decode(t).Some?
    ensures LoginStep(s, Ok(LoginResponse(Some(t))), decode) == Step(SessionState(Some(t), decode(t)), None)
    ensures t != "" ==> Coherent(LoginStep(s, Ok(LoginResponse(Some(t))), decode).state, decode)
  {
  }

  /** A failed login request re-raises its error and leaves the user alone; only a 401 drops the token. */
  lemma LoginRequestFailure(s: SessionState, e: HttpError, decode: Decoder)
    ensures LoginStep(s, Err(e), decode).raised == Some(RequestFailed(e))
    ensures LoginStep(s, Err(e), decode).state.user == s.user
    ensures e.status != Some(Unauthorized) ==> LoginStep(s, Err(e), decode).state == s
    ensures e.status == Some(Unauthorized) ==> LoginStep(s, Err(e), decode).state.token == None
  {
  }

  /**
   * A login answer whose token does not decode has already been stored when the
   * decode fails: the token stays, the user is unchanged and the error is re-raised.
   */
  lemma LoginStoresBeforeDecoding(s: SessionState, body: LoginResponse, decode: Decoder)
    requires DecodeField(decode, body.token).None?
    ensures LoginStep(s, Ok(body), decode) ==
              Step(SessionState(Some(StoredText(body.token)), s.user), Some(TokenUndecodable))
    ensures body.token == None ==> LoginStep(s, Ok(body), decode).state.token == Some("undefined")
  {
  }

  /** With a user already signed in, an undecodable login answer leaves a session that breaks the intended invariant. */
  lemma LoginUndecodableBreaksCoherence(s: SessionState, t: string, decode: Decoder)
    requires s.user.Some? && t != "" && decode(t).None?
    ensures !Coherent(LoginStep(s, Ok(LoginResponse(Some(t))), decode).state, decode)
  {
  }

  /** A failed registration attempts no login: the login answer is irrelevant. */
  lemma RegisterFailureSkipsLogin<R>(s: SessionState, registered: Reply<R>, reply1: Reply<LoginResponse>,
                                     reply2: Reply<LoginResponse>, decode: Decoder)
    requires registered.Err?
    ensures RegisterStep(s, registered, reply1, decode) == RegisterStep(s, registered, reply2, decode)
    ensures RegisterStep(s, registered, reply1, decode).raised == Some(RequestFailed(registered.error))
    ensures RegisterStep(s, registered, reply1, decode).state == AfterCall(s, registered)
  {
  }

  /** A successful registration is followed by exactly the login step. */
  lemma RegisterSuccessLogsIn<R>(s: SessionState, r: R, reply: Reply<LoginResponse>, decode: Decoder)
    ensures RegisterStep(s, Ok(r), reply, decode) == LoginStep(s, reply, decode)
  {
  }

  /** `refreshUser` with a truthy token: a valid one keeps the token and sets its user, an invalid one signs out. */
  lemma RefreshOutcomes(s: SessionState, decode: Decoder)
    ensures Truthy(s.token) && decode(s.token.value).Some? ==>
              Refresh(s, decode) == SessionState(s.token, decode(s.token.value))
    ensures Truthy(s.token) && decode(s.token.value).None? ==> Refresh(s, decode) == SessionState(None, None)
    ensures !Truthy(s.token) ==> Refresh(s, decode) == s
    ensures Truthy(s.token) ==> Coherent(Refresh(s, decode), decode)
    ensures Coherent(s, decode) ==> Coherent(Refresh(s, decode), decode)
  {
  }

  /**
   * `refreshUser` with no token leaves a stale user in place, so "absent token
   * means absent user" does not hold of the code.
   */
  lemma RefreshKeepsStaleUser(u: User, decode: Decoder)
    ensures Refresh(SessionState(None, Some(u)), decode).user == Some(u)
    ensures !Coherent(Refresh(SessionState(None, Some(u)), decode), decode)
  {
  }

  /** A 401 from any call removes the token but not the in-memory user. */
  lemma UnauthorizedKeepsUser<T>(s: SessionState, message: string, decode: Decoder)
    requires Coherent(s, decode) && s.user.Some?
    ensures AfterCall<T>(s, Err(HttpError(Some(Unauthorized), message))) == SessionState(None, s.user)
    ensures !Coherent(AfterCall<T>(s, Err(HttpError(Some(Unauthorized), message))), decode)
  {
  }

  /**
   * Sign in, then receive a 401 from some other call: the token is gone but the
   * user is still signed in; a `refreshUser` does not remove it, a `logout` does.
   */
  lemma SignInThenUnauthorized<T>(s: SessionState, t: string, message: string, decode: Decoder)
    requires t != "" && decode(t).Some?
    ensures var signedIn := LoginStep(s, Ok(LoginResponse(Some(t))), decode).state;
            var rejected := AfterCall<T>(signedIn, Err(HttpError(Some(Unauthorized), message)));
            && signedIn == SessionState(Some(t), decode(t))
            && rejected == SessionState(None, decode(t))
            && Refresh(rejected, decode) == rejected
            && LoggedOut(rejected) == SessionState(None, None)
  {
  }
}
