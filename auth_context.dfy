/**
 * The authentication provider: the in-memory `user`, `token` and
 * `loading` state, mirrored to the stored token, with the start-up
 * restore, `login`, `register` and `logout`.
 *
 * Each operation is first given as a transition function on a Session
 * value (the three fields plus the storage map); the AuthProvider class
 * holds the same state in fields and its methods are proved to perform
 * exactly those transitions. Runs of several operations are folded by
 * Run, and the lemmas at the end are about such runs.
 */
module AuthContext {
  import opened JsValues
  import opened Storage
  import Api

  /** A user record as the backend sends it; the client only passes it on. */
  datatype User = User(fields: map<string, string>)

  /** `response.data` of /auth/login and /auth/register; `data` may be missing. */
  datatype AuthPayload = AuthPayload(token: string, data: Option<User>)

  /** The provider's state together with the storage it mirrors. */
  datatype Session = Session(user: Option<User>, token: Option<string>, loading: bool,
                             items: map<string, string>)

  /** The state on mount: nobody signed in, restore still pending. */
  function Start(items: map<string, string>): (s: Session)
    ensures s.user == None && s.token == None && s.loading && s.items == items
  {
    Session(None, None, true, items)
  }

  /** `isAuthenticated`: `!!user && !!token`. */
  predicate Authenticated(s: Session)
    ensures Authenticated(s) <==> s.user != None && s.token != None && |s.token.value| > 0
    ensures Authenticated(s) ==> UserHasToken(s)
  {
    s.user.Some? && Truthy(s.token)
  }

  /** A user record is never held without a token. */
  predicate UserHasToken(s: Session)
  {
    s.user.Some? ==> s.token.Some?
  }

  /** The in-memory token and the stored one agree. */
  predicate Converged(s: Session)
  {
    Lookup(s.items, AuthTokenKey) == s.token
  }

  /** Storage differs at most in the auth key. */
  ghost predicate SameExceptToken(a: map<string, string>, b: map<string, string>)
  {
    forall k :: k != AuthTokenKey ==> (k in a <==> k in b) && (k in a ==> a[k] == b[k])
  }

  /** The request bodies the provider builds. */
  function LoginBody(login: string, password: string): (b: Api.Body)
    ensures b.Keys == {"login", "password"}
    ensures b["login"] == login && b["password"] == password
  {
    map["login" := login, "password" := password]
  }

  function RegisterBody(username: string, email: string, password: string): (b: Api.Body)
    ensures b.Keys == {"username", "email", "password"}
    ensures b["username"] == username && b["email"] == email && b["password"] == password
  {
    map["username" := username, "email" := email, "password" := password]
  }

  /**
   * `checkAuthStatus`. `readFails` makes the storage read reject; `me` is
   * what the /auth/me call settles to, and is consulted only when a
   * truthy token was read.
   */
  function Restored(s: Session, readFails: bool, me: Api.Reply<Option<User>>): (r: Session)
    ensures !r.loading
    ensures UserHasToken(s) ==> UserHasToken(r)
    ensures SameExceptToken(r.items, s.items)
  {
    if readFails then
      s.(loading := false, items := s.items - {AuthTokenKey})
    else
      var stored := Lookup(s.items, AuthTokenKey);
      if !Truthy(stored) then
        s.(loading := false)
      else
        match me
        case Ok(data) =>
          s.(token := stored, user := data, loading := false, items := Api.AfterReply(s.items, me))
        case Err(_) =>
          s.(token := stored, loading := false, items := Api.AfterReply(s.items, me) - {AuthTokenKey})
  }

  /** `login` and `register` alike, given what the backend call settled to. */
  function SignedIn(s: Session, reply: Api.Reply<AuthPayload>): (r: Session)
    ensures r.loading == s.loading
    ensures UserHasToken(s) ==> UserHasToken(r)
    ensures SameExceptToken(r.items, s.items)
  {
    match reply
    case Ok(p) =>
      s.(token := Some(p.token), user := p.data, items := s.items[AuthTokenKey := p.token])
    case Err(_) =>
      s.(items := Api.AfterReply(s.items, reply))
  }

  /** `logout`, whatever the backend call settled to. */
  function LoggedOut(s: Session, reply: Api.Reply<()>): (r: Session)
    ensures r.user == None && r.token == None && r.loading == s.loading
    ensures r.items == s.items - {AuthTokenKey}
    ensures UserHasToken(r)
    ensures SameExceptToken(r.items, s.items)
  {
    s.(user := None, token := None, items := Api.AfterReply(s.items, reply) - {AuthTokenKey})
  }

  /** Any other call a screen makes through the client: only its 401 handling touches the session. */
  function Requested(s: Session, reply: Api.Reply<()>): (r: Session)
    ensures r.user == s.user && r.token == s.token && r.loading == s.loading
    ensures SameExceptToken(r.items, s.items)
  {
    s.(items := Api.AfterReply(s.items, reply))
  }

  // ---------------------------------------------------------------------
  // Single operations

  /** With no truthy token stored, restore only clears `loading`, whatever /auth/me would say. */
  lemma RestoreWithoutToken(s: Session, me: Api.Reply<Option<User>>)
    requires !Truthy(Lookup(s.items, AuthTokenKey))
    ensures Restored(s, false, me) == s.(loading := false)
  {
  }

  /** An accepted stored token is restored together with the user record /auth/me returned. */
  lemma RestoreAccepted(items: map<string, string>, data: Option<User>)
    requires Truthy(Lookup(items, AuthTokenKey))
    ensures var r := Restored(Start(items), false, Ok(data));
            r.token == Some(items[AuthTokenKey]) && r.user == data && !r.loading
            && r.items == items && Converged(r)
  {
  }

  /**
   * A rejected stored token is removed from storage and the user stays
   * signed out, but the in-memory token keeps the stored value: memory
   * and storage diverge.
   */
  lemma RestoreRejectedKeepsToken(items: map<string, string>, e: Api.HttpError)
    requires Truthy(Lookup(items, AuthTokenKey))
    ensures var r := Restored(Start(items), false, Err(e));
            r.token == Some(items[AuthTokenKey]) && r.user == None && !r.loading
            && AuthTokenKey !in r.items && !Authenticated(r) && !Converged(r)
  {
  }

  /** A failed storage read at start-up ends signed out, with the key removed. */
  lemma RestoreReadFailure(items: map<string, string>, me: Api.Reply<Option<User>>)
    ensures var r := Restored(Start(items), true, me);
            r.user == None && r.token == None && !r.loading && AuthTokenKey !in r.items
            && Converged(r)
  {
  }

  /** A successful login or register holds and stores the returned token. */
  lemma SignInSuccess(s: Session, p: AuthPayload)
    ensures var r := SignedIn(s, Ok(p));
            r.token == Some(p.token) && r.user == p.data && Converged(r)
            && (Authenticated(r) <==> p.data.Some? && p.token != "")
  {
  }

  /**
   * A failed login or register leaves the in-memory state alone; storage
   * is unchanged too unless the backend answered 401, in which case the
   * response interceptor removed the stored token.
   */
  lemma SignInFailure(s: Session, e: Api.HttpError)
    ensures var r := SignedIn(s, Err(e));
            r.user == s.user && r.token == s.token && r.loading == s.loading
            && (e.status != Some(401) ==> r.items == s.items)
            && (e.status == Some(401) ==> r.items == s.items - {AuthTokenKey})
  {
  }

  /**
   * So a signed-in user whose second login is refused with 401 stays
   * authenticated in memory while the stored token is gone.
   */
  lemma RefusedLoginWhileSignedIn(s: Session, message: string)
    requires Authenticated(s) && Converged(s)
    ensures var r := SignedIn(s, Err(Api.HttpError(Some(401), message)));
            Authenticated(r) && AuthTokenKey !in r.items && !Converged(r)
  {
  }

  /** Logout always ends signed out with nothing stored under the auth key. */
  lemma LogoutAlwaysSignsOut(s: Session, reply: Api.Reply<()>)
    ensures var r := LoggedOut(s, reply);
            r.user == None && r.token == None && AuthTokenKey !in r.items
            && r.items == s.items - {AuthTokenKey} && !Authenticated(r) && Converged(r)
  {
  }

  // ---------------------------------------------------------------------
  // Runs of operations

  /** One operation, with the outcomes of its storage read and backend call. */
  datatype Action =
    | Restore(readFails: bool, me: Api.Reply<Option<User>>)
    | Login(reply: Api.Reply<AuthPayload>)
    | Register(reply: Api.Reply<AuthPayload>)
    | Logout(done: Api.Reply<()>)
    | Request(answer: Api.Reply<()>)

  /** One operation's transition; only the restore touches `loading`, and it always clears it. */
  function Step(s: Session, a: Action): (r: Session)
    ensures a.Restore? ==> !r.loading
    ensures !a.Restore? ==> r.loading == s.loading
    ensures UserHasToken(s) ==> UserHasToken(r)
    ensures SameExceptToken(r.items, s.items)
  {
    match a
    case Restore(readFails, me) => Restored(s, readFails, me)
    case Login(reply) => SignedIn(s, reply)
    case Register(reply) => SignedIn(s, reply)
    case Logout(done) => LoggedOut(s, done)
    case Request(answer) => Requested(s, answer)
  }

  /** The operations in order; once the restore has settled, `loading` stays false. */
  function Run(s: Session, actions: seq<Action>): (r: Session)
    ensures !s.loading ==> !r.loading
    decreases |actions|
  {
    if actions == [] then s else Run(Step(s, actions[0]), actions[1..])
  }

  /** Running two sequences one after the other is running their concatenation. */
  lemma {:induction false} RunAppend(s: Session, a: seq<Action>, b: seq<Action>)
    ensures Run(s, a + b) == Run(Run(s, a), b)
    decreases |a|
  {
    if a == [] {
      assert a + b == b;
    } else {
      assert (a + b)[0] == a[0];
      assert (a + b)[1..] == a[1..] + b;
      RunAppend(Step(s, a[0]), a[1..], b);
    }
  }

  /** After any run from mount, a user record is only ever held together with a token. */
  lemma {:induction false} RunKeepsUserWithToken(s: Session, actions: seq<Action>)
    requires UserHasToken(s)
    ensures UserHasToken(Run(s, actions))
    decreases |actions|
  {
    if actions != [] {
      RunKeepsUserWithToken(Step(s, actions[0]), actions[1..]);
    }
  }

  /** No run touches any storage key but the auth key. */
  lemma {:induction false} RunOnlyTouchesTokenKey(s: Session, actions: seq<Action>)
    ensures SameExceptToken(Run(s, actions).items, s.items)
    decreases |actions|
  {
    if actions != [] {
      RunOnlyTouchesTokenKey(Step(s, actions[0]), actions[1..]);
    }
  }

  /** Whatever happened before, a run that ends in logout ends signed out and converged. */
  lemma RunEndingInLogout(s: Session, actions: seq<Action>, done: Api.Reply<()>)
    ensures var r := Run(s, actions + [Logout(done)]);
            r.user == None && r.token == None && AuthTokenKey !in r.items
            && !Authenticated(r) && Converged(r)
  {
    RunAppend(s, actions, [Logout(done)]);
    LogoutAlwaysSignsOut(Run(s, actions), done);
  }

  /**
   * The request after a successful sign-in carries the returned token as
   * its bearer credential (when the token is truthy and the read succeeds).
   */
  lemma NextRequestCarriesToken(s: Session, p: AuthPayload, call: Api.ApiCall)
    requires p.token != ""
    ensures var o := Api.Prepared(call, ReadToken(SignedIn(s, Ok(p)).items, false));
            Api.BearerToken(o.headers) == Some(p.token)
  {
  }

  /** After logout the next request carries no credential. */
  lemma NoCredentialAfterLogout(s: Session, done: Api.Reply<()>, call: Api.ApiCall, readFails: bool)
    ensures var o := Api.Prepared(call, ReadToken(LoggedOut(s, done).items, readFails));
            Api.AuthorizationHeader !in o.headers
  {
  }

  // ---------------------------------------------------------------------
  // The provider

  class AuthProvider {
    var user: Option<User>
    var token: Option<string>
    var loading: bool
    const api: Api.Client
    const store: Store

    /** The client consults the same storage the provider writes. */
    ghost predicate Valid()
      reads this
    {
      api.store == store
    }

    function State(): Session
      reads this, store
    {
      Session(user, token, loading, store.items)
    }

    /** Mounting the provider, before the restore has run. */
    constructor (api: Api.Client)
      ensures Valid() && this.api == api && store == api.store
      ensures State() == Start(api.store.items)
    {
      user := None;
      token := None;
      loading := true;
      this.api := api;
      store := api.store;
    }

    /** `isAuthenticated`: the provider's state is `Authenticated`. */
    function IsAuthenticated(): (b: bool)
      reads this, store
      ensures b <==> user != None && token != None && token.value != ""
    {
      Authenticated(State())
    }

    /** `checkAuthStatus`, run once on mount. */
    method CheckAuthStatus(readFails: bool, headerReadFails: bool,
                           backend: Api.Outgoing -> Api.Reply<Option<User>>)
      requires Valid()
      modifies this, api, store
      ensures Valid()
      ensures State() == Restored(old(State()), readFails,
                                  backend(Api.Prepared(Api.GetMe, ReadToken(old(store.items), headerReadFails))))
      ensures api.sent == if !readFails && Truthy(Lookup(old(store.items), AuthTokenKey))
                          then old(api.sent) + [Api.Prepared(Api.GetMe, ReadToken(old(store.items), headerReadFails))]
                          else old(api.sent)
    {
      var read := store.GetItem(AuthTokenKey, readFails);
      match read {
        case Err(_) =>
          store.RemoveItem(AuthTokenKey);
        case Ok(stored) =>
          if Truthy(stored) {
            token := stored;
            var response := api.Send(Api.GetMe, headerReadFails, backend);
            match response {
              case Ok(data) =>
                user := data;
              case Err(_) =>
                store.RemoveItem(AuthTokenKey);
            }
          }
      }
      loading := false;
    }

    /** `login` and `register` share this body: call, then hold and store the token, or rethrow. */
    method SignIn(call: Api.ApiCall, headerReadFails: bool, backend: Api.Outgoing -> Api.Reply<AuthPayload>)
      returns (r: Api.Reply<AuthPayload>)
      requires Valid()
      modifies this, api, store
      ensures Valid()
      ensures r == backend(Api.Prepared(call, ReadToken(old(store.items), headerReadFails)))
      ensures State() == SignedIn(old(State()), r)
      ensures api.sent == old(api.sent) + [Api.Prepared(call, ReadToken(old(store.items), headerReadFails))]
    {
      r := api.Send(call, headerReadFails, backend);
      match r {
        case Ok(p) =>
          token := Some(p.token);
          user := p.data;
          store.SetItem(AuthTokenKey, p.token);
        case Err(_) =>
      }
    }

    /** `login(login, password)`: resolves to `response.data`, or rejects with the same error. */
    method Login(login: string, password: string, headerReadFails: bool,
                 backend: Api.Outgoing -> Api.Reply<AuthPayload>)
      returns (r: Api.Reply<AuthPayload>)
      requires Valid()
      modifies this, api, store
      ensures Valid()
      ensures r == backend(Api.Prepared(Api.Login(LoginBody(login, password)),
                                        ReadToken(old(store.items), headerReadFails)))
      ensures State() == SignedIn(old(State()), r)
      ensures api.sent == old(api.sent) + [Api.Prepared(Api.Login(LoginBody(login, password)),
                                                        ReadToken(old(store.items), headerReadFails))]
    {
      r := SignIn(Api.Login(LoginBody(login, password)), headerReadFails, backend);
    }

    /** `register(username, email, password)`: same contract as Login. */
    method Register(username: string, email: string, password: string, headerReadFails: bool,
                    backend: Api.Outgoing -> Api.Reply<AuthPayload>)
      returns (r: Api.Reply<AuthPayload>)
      requires Valid()
      modifies this, api, store
      ensures Valid()
      ensures r == backend(Api.Prepared(Api.Register(RegisterBody(username, email, password)),
                                        ReadToken(old(store.items), headerReadFails)))
      ensures State() == SignedIn(old(State()), r)
      ensures api.sent == old(api.sent) + [Api.Prepared(Api.Register(RegisterBody(username, email, password)),
                                                        ReadToken(old(store.items), headerReadFails))]
    {
      r := SignIn(Api.Register(RegisterBody(username, email, password)), headerReadFails, backend);
    }

    /** `logout`: the backend's answer is only logged; local state is cleared regardless. */
    method Logout(headerReadFails: bool, backend: Api.Outgoing -> Api.Reply<()>)
      requires Valid()
      modifies this, api, store
      ensures Valid()
      ensures State() == LoggedOut(old(State()),
                                   backend(Api.Prepared(Api.Logout, ReadToken(old(store.items), headerReadFails))))
      ensures api.sent == old(api.sent) + [Api.Prepared(Api.Logout, ReadToken(old(store.items), headerReadFails))]
    {
      var ignored := api.Send(Api.Logout, headerReadFails, backend);
      user := None;
      token := None;
      store.RemoveItem(AuthTokenKey);
    }
  }
}
