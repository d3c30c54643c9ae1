/**
 * The axios instance `api` and the `apiService` table built on it: every
 * call is routed to a method and a backend-relative path, a request
 * interceptor attaches the stored session token as a bearer credential,
 * and a response interceptor forgets that token when the backend answers
 * 401. The transport itself is an oracle: a function from the request
 * that leaves the client to the backend's reply.
 */
module Api {
  import opened JsValues
  import opened Storage

  datatype Method = Get | Post

  /** A JSON request body with string fields (credentials, event data). */
  type Body = map<string, string>

  /** One constructor per entry of `apiService`. */
  datatype ApiCall =
    | Login(credentials: Body)
    | Register(userData: Body)
    | Logout
    | GetMe
    | GetAlumni
    | GetAlumniGrouped
    | GetAlumniGroupedWithSearch(searchQuery: string)
    | GetAlumna(id: string)
    | GetEvents
    | CreateEvent(eventData: Body)
    | GetEvent(id: string)
    | GetBatchYears

  /** Where a call goes: HTTP verb, path relative to the base URL, body. */
  datatype Route = Route(verb: Method, path: string, body: Option<Body>)

  const AlumniPrefix: string := "/alumni/"
  const EventsPrefix: string := "/events/"
  const SearchPrefix: string := "/alumni/grouped?search="

  /** Calls that change something on the backend, and so are sent as POST. */
  predicate IsWrite(call: ApiCall)
  {
    call.Login? || call.Register? || call.Logout? || call.CreateEvent?
  }

  /** Calls that carry a request body. */
  predicate HasBody(call: ApiCall)
  {
    call.Login? || call.Register? || call.CreateEvent?
  }

  /** The `apiService` table. Parameters are spliced into the path as they are, unencoded. */
  function RouteOf(call: ApiCall): (r: Route)
    ensures r.verb == Post <==> IsWrite(call)
    ensures r.body.Some? <==> HasBody(call)
    ensures HasBody(call) ==> r.body.value == (if call.Login? then call.credentials
                                               else if call.Register? then call.userData
                                               else call.eventData)
    ensures |r.path| > 0 && r.path[0] == '/'
  {
    match call
    case Login(credentials) => Route(Post, "/auth/login", Some(credentials))
    case Register(userData) => Route(Post, "/auth/register", Some(userData))
    case Logout => Route(Post, "/auth/logout", None)
    case GetMe => Route(Get, "/auth/me", None)
    case GetAlumni => Route(Get, "/alumni", None)
    case GetAlumniGrouped => Route(Get, "/alumni/grouped", None)
    case GetAlumniGroupedWithSearch(q) => Route(Get, SearchPrefix + q, None)
    case GetAlumna(id) => Route(Get, AlumniPrefix + id, None)
    case GetEvents => Route(Get, "/events", None)
    case CreateEvent(eventData) => Route(Post, "/events", Some(eventData))
    case GetEvent(id) => Route(Get, EventsPrefix + id, None)
    case GetBatchYears => Route(Get, "/batch-years", None)
  }

  /** What follows `prefix` in `path`, if `path` starts with it. */
  function AfterPrefix(prefix: string, path: string): (rest: Option<string>)
    ensures rest.Some? <==> prefix <= path
    ensures rest.Some? ==> prefix + rest.value == path
  {
    if prefix <= path then Some(path[|prefix|..]) else None
  }

  /**
   * The parameter of a path builder comes back out of the path intact:
   * the id or query is the text after the fixed prefix, character for character.
   */
  lemma ParameterRoundTrip(call: ApiCall)
    requires call.GetAlumna? || call.GetEvent? || call.GetAlumniGroupedWithSearch?
    ensures call.GetAlumna? ==> AfterPrefix(AlumniPrefix, RouteOf(call).path) == Some(call.id)
    ensures call.GetEvent? ==> AfterPrefix(EventsPrefix, RouteOf(call).path) == Some(call.id)
    ensures call.GetAlumniGroupedWithSearch? ==>
              AfterPrefix(SearchPrefix, RouteOf(call).path) == Some(call.searchQuery)
  {
    var p := RouteOf(call).path;
    match call
    case GetAlumna(id) => assert p[|AlumniPrefix|..] == id;
    case GetEvent(id) => assert p[|EventsPrefix|..] == id;
    case GetAlumniGroupedWithSearch(q) => assert p[|SearchPrefix|..] == q;
  }

  /** Hence each path builder is injective: different ids give different paths. */
  lemma PathBuildersInjective(a: string, b: string)
    ensures RouteOf(GetAlumna(a)) == RouteOf(GetAlumna(b)) ==> a == b
    ensures RouteOf(GetEvent(a)) == RouteOf(GetEvent(b)) ==> a == b
    ensures RouteOf(GetAlumniGroupedWithSearch(a)) == RouteOf(GetAlumniGroupedWithSearch(b)) ==> a == b
  {
    ParameterRoundTrip(GetAlumna(a));
    ParameterRoundTrip(GetAlumna(b));
    ParameterRoundTrip(GetEvent(a));
    ParameterRoundTrip(GetEvent(b));
    ParameterRoundTrip(GetAlumniGroupedWithSearch(a));
    ParameterRoundTrip(GetAlumniGroupedWithSearch(b));
  }

  /**
   * Because nothing is encoded, an id can stand for another endpoint: the
   * alumna "grouped" is the grouped listing, and an id that carries
   * "grouped?search=" is a search.
   */
  lemma UnencodedIdsReachOtherEndpoints(q: string)
    ensures RouteOf(GetAlumna("grouped")) == RouteOf(GetAlumniGrouped)
    ensures RouteOf(GetAlumna("grouped?search=" + q)) == RouteOf(GetAlumniGroupedWithSearch(q))
  {
    assert AlumniPrefix + ("grouped?search=" + q) == SearchPrefix + q;
  }

  // ---------------------------------------------------------------------
  // Request interceptor

  const AuthorizationHeader: string := "Authorization"
  const BearerPrefix: string := "Bearer "

  /** The headers every request starts with (set when the instance is created). */
  const DefaultHeaders: map<string, string> := map["Content-Type" := "application/json"]

  /** The interceptor attaches a credential only after a successful read of a truthy token. */
  predicate Attaches(read: Result<Option<string>, StorageError>)
  {
    read.Ok? && Truthy(read.value)
  }

  /** The headers after the request interceptor, given the outcome of its storage read. */
  function Authorize(headers: map<string, string>, read: Result<Option<string>, StorageError>)
    : (h: map<string, string>)
    ensures forall k :: k != AuthorizationHeader ==> (k in h <==> k in headers)
    ensures forall k :: k in h && k != AuthorizationHeader ==> h[k] == headers[k]
    ensures Attaches(read) ==>
              AuthorizationHeader in h && h[AuthorizationHeader] == BearerPrefix + read.value.value
    ensures !Attaches(read) ==> h == headers
  {
    if Attaches(read) then headers[AuthorizationHeader := BearerPrefix + read.value.value]
    else headers
  }

  /** The token a server reads back out of an `Authorization: Bearer <token>` header. */
  function BearerToken(headers: map<string, string>): (t: Option<string>)
    ensures t.Some? ==> AuthorizationHeader in headers
                        && headers[AuthorizationHeader] == BearerPrefix + t.value
  {
    if AuthorizationHeader in headers && BearerPrefix <= headers[AuthorizationHeader]
    then Some(headers[AuthorizationHeader][|BearerPrefix|..])
    else None
  }

  /**
   * On headers without a credential, the server reads back exactly the
   * stored token when it is truthy and no credential otherwise; in
   * particular a bare "Bearer " with an empty token is never produced.
   */
  lemma BearerRoundTrip(headers: map<string, string>, read: Result<Option<string>, StorageError>)
    requires AuthorizationHeader !in headers
    ensures BearerToken(Authorize(headers, read)) == (if Attaches(read) then read.value else None)
    ensures AuthorizationHeader in Authorize(headers, read) ==>
              Authorize(headers, read)[AuthorizationHeader] != BearerPrefix
  {
    var h := Authorize(headers, read);
    if Attaches(read) {
      assert BearerPrefix <= h[AuthorizationHeader];
      assert h[AuthorizationHeader][|BearerPrefix|..] == read.value.value;
    }
  }

  /** A request as it leaves the client: its route and its final headers. */
  datatype Outgoing = Outgoing(route: Route, headers: map<string, string>)

  /** The request for `call`, after the interceptor saw the given storage read. */
  function Prepared(call: ApiCall, read: Result<Option<string>, StorageError>): (o: Outgoing)
    ensures o.route == RouteOf(call)
    ensures BearerToken(o.headers) == (if Attaches(read) then read.value else None)
  {
    BearerRoundTrip(DefaultHeaders, read);
    Outgoing(RouteOf(call), Authorize(DefaultHeaders, read))
  }

  // ---------------------------------------------------------------------
  // Response interceptor

  /** `error.response?.status` is absent when no response arrived (network error, timeout). */
  datatype HttpError = HttpError(status: Option<int>, message: string)

  /** A settled request: the response body, or the rejection. */
  type Reply<T> = Result<T, HttpError>

  predicate IsUnauthorized<T>(reply: Reply<T>)
  {
    reply.Err? && reply.error.status == Some(401)
  }

  /**
   * Storage after the response interceptor ran: the auth key is forgotten
   * on a 401 rejection; nothing is ever written and no other key is touched.
   */
  function AfterReply<T>(items: map<string, string>, reply: Reply<T>): (r: map<string, string>)
    ensures forall k :: k in r ==> k in items && r[k] == items[k]
    ensures forall k :: k in items && k != AuthTokenKey ==> k in r
    ensures AuthTokenKey in r <==> AuthTokenKey in items && !IsUnauthorized(reply)
  {
    if IsUnauthorized(reply) then items - {AuthTokenKey} else items
  }

  /** The options object axios hands to the interceptor, whose headers it edits in place. */
  class RequestConfig {
    const route: Route
    var headers: map<string, string>

    constructor (route: Route)
      ensures this.route == route && headers == DefaultHeaders
    {
      this.route := route;
      headers := DefaultHeaders;
    }
  }

  /** The axios instance: its interceptors and the storage they consult. */
  class Client {
    const store: Store
    /** Every request that has left the client, in order. */
    ghost var sent: seq<Outgoing>

    constructor (store: Store)
      ensures this.store == store && sent == []
    {
      this.store := store;
      sent := [];
    }

    /** The request interceptor; a failed storage read leaves the headers as they were. */
    method InterceptRequest(config: RequestConfig, readFails: bool) returns (out: RequestConfig)
      modifies config
      ensures out == config
      ensures config.headers == Authorize(old(config.headers), ReadToken(store.items, readFails))
    {
      var token := store.GetItem(AuthTokenKey, readFails);
      if token.Ok? && Truthy(token.value) {
        config.headers := config.headers[AuthorizationHeader := BearerPrefix + token.value.value];
      }
      return config;
    }

    /** The response interceptor: successes pass through, every rejection is re-raised. */
    method InterceptResponse<T>(reply: Reply<T>) returns (r: Reply<T>)
      modifies store
      ensures r == reply
      ensures store.items == AfterReply(old(store.items), reply)
    {
      if reply.Err? && reply.error.status == Some(401) {
        store.RemoveItem(AuthTokenKey);
      }
      return reply;
    }

    /** One round trip: build the request, intercept it, send it, intercept the reply. */
    method Send<T>(call: ApiCall, readFails: bool, backend: Outgoing -> Reply<T>) returns (r: Reply<T>)
      modifies this, store
      ensures r == backend(Prepared(call, ReadToken(old(store.items), readFails)))
      ensures store.items == AfterReply(old(store.items), r)
      ensures sent == old(sent) + [Prepared(call, ReadToken(old(store.items), readFails))]
    {
      var config := new RequestConfig(RouteOf(call));
      config := InterceptRequest(config, readFails);
      var request := Outgoing(config.route, config.headers);
      sent := sent + [request];
      r := InterceptResponse(backend(request));
    }
  }
}
