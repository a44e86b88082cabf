/**
 * Server-side construction of the two backend scopes: a session scope bound
 * to the caller's `appwrite-session` cookie, and an admin scope bound to the
 * server's secret key.
 *
 * The backend SDK is abstracted to a `Client` whose setters record the
 * endpoint, project, session and key, and to service handles that remember
 * which client they were built on. Reading the environment and the cookie
 * store is I/O: their values are parameters here.
 */
module AppwriteServer {
  import opened Wrappers

  /** Name of the cookie that carries the session secret. */
  const SessionCookieName: string := "appwrite-session"

  /** Message of the error thrown when there is no usable session cookie. */
  const NoSession: string := "No session"

  /** The SDK client, configured step by step through its setters. */
  class Client {
    var endpoint: Option<string>
    var project: Option<string>
    var session: Option<string>
    var key: Option<string>

    /** `new Client()`: nothing is configured yet. */
    constructor ()
      ensures endpoint == None && project == None && session == None && key == None
    {
      endpoint, project, session, key := None, None, None, None;
    }

    /** `setEndpoint`: records the API endpoint and leaves the rest alone. */
    method SetEndpoint(value: string)
      modifies this
      ensures endpoint == Some(value)
      ensures project == old(project) && session == old(session) && key == old(key)
    {
      endpoint := Some(value);
    }

    /** `setProject`: records the project id and leaves the rest alone. */
    method SetProject(value: string)
      modifies this
      ensures project == Some(value)
      ensures endpoint == old(endpoint) && session == old(session) && key == old(key)
    {
      project := Some(value);
    }

    /** `setSession`: binds the client to a user session and leaves the rest alone. */
    method SetSession(value: string)
      modifies this
      ensures session == Some(value)
      ensures endpoint == old(endpoint) && project == old(project) && key == old(key)
    {
      session := Some(value);
    }

    /** `setKey`: binds the client to the server's secret key and leaves the rest alone. */
    method SetKey(value: string)
      modifies this
      ensures key == Some(value)
      ensures endpoint == old(endpoint) && project == old(project) && session == old(session)
    {
      key := Some(value);
    }
  }

  /**
   * The configuration read from the environment:
   * `NEXT_PUBLIC_APPWRITE_ENDPOINT`, `NEXT_PUBLIC_APPWRITE_PROJECT` and
   * `NEXT_APPWRITE_SECRET_KEY`.
   */
  datatype Env = Env(endpoint: string, project: string, secretKey: string)

  /** The services a scope can hand out through its getters. */
  datatype Service = AccountService | DatabaseService | UserService

  /** `{account, database, user}`: what the session scope exposes. */
  const SessionServices: set<Service> := {AccountService, DatabaseService, UserService}

  /** `{account, database}`: what the admin scope exposes. */
  const AdminServices: set<Service> := {AccountService, DatabaseService}

  /** `new Account(client)`, `new Databases(client)`, `new Users(client)`: a service bound to a client. */
  datatype Handle = Handle(service: Service, client: Client)

  /** The object a scope constructor returns: one getter per exposed service, all over one client. */
  datatype Scope = Scope(client: Client, services: set<Service>)
  {
    /**
     * Reading a getter: a handle on the scope's own client for an exposed
     * service, nothing for any other.
     */
    function Get(service: Service): (h: Option<Handle>)
      ensures h.Some? <==> service in services
      ensures h.Some? ==> h.value.service == service && h.value.client == client
    {
      if service in services then Some(Handle(service, client)) else None
    }
  }

  /**
   * The cookie check: the cookie's value when the cookie is present and its
   * value is not empty; otherwise the "No session" error, the same for a
   * missing cookie as for an empty one.
   */
  function SessionGuard(cookie: Option<string>): (r: Result<string, string>)
    ensures r.Failure? <==> cookie.None? || cookie.value == ""
    ensures r.Failure? ==> r.error == NoSession
    ensures r.Success? ==> cookie == Some(r.value) && r.value != ""
  {
    match cookie
    case None => Failure(NoSession)
    case Some(value) => if value == "" then Failure(NoSession) else Success(value)
  }

  /** The client is pointed at the configured endpoint and project. */
  predicate Configured(client: Client, env: Env)
    reads client
  {
    client.endpoint == Some(env.endpoint) && client.project == Some(env.project)
  }

  /**
   * `createSessionClient`: `cookie` is the value of the `appwrite-session`
   * cookie, `None` when the request has none. Fails with "No session"
   * exactly when the cookie is missing or empty; otherwise returns a scope
   * over a new client configured from `env`, bound to the cookie's value as
   * its session and holding no key, exposing account, database and user.
   */
  method CreateSessionClient(env: Env, cookie: Option<string>) returns (r: Result<Scope, string>)
    ensures r.Failure? <==> cookie.None? || cookie.value == ""
    ensures r.Failure? ==> r.error == NoSession
    ensures r.Success? ==>
              && fresh(r.value.client)
              && Configured(r.value.client, env)
              && r.value.client.session == cookie
              && r.value.client.key == None
              && r.value.services == SessionServices
  {
    var client := new Client();
    client.SetEndpoint(env.endpoint);
    client.SetProject(env.project);
    var session := SessionGuard(cookie);
    if session.Failure? {
      return Failure(session.error);
    }
    client.SetSession(session.value);
    r := Success(Scope(client, SessionServices));
  }

  /**
   * `createAdminClient`: takes no cookie and cannot fail. Returns a scope
   * over a new client configured from the same `env` values, bound to the
   * secret key and holding no session, exposing account and database only.
   */
  method CreateAdminClient(env: Env) returns (scope: Scope)
    ensures fresh(scope.client)
    ensures Configured(scope.client, env)
    ensures scope.client.key == Some(env.secretKey)
    ensures scope.client.session == None
    ensures scope.services == AdminServices
  {
    var client := new Client();
    client.SetEndpoint(env.endpoint);
    client.SetProject(env.project);
    client.SetKey(env.secretKey);
    scope := Scope(client, AdminServices);
  }

  /**
   * The admin scope's getters are a strict subset of the session scope's:
   * it hands out account and database handles, never a users handle.
   */
  lemma AdminScopeIsNarrower(admin: Scope, user: Scope)
    requires admin.services == AdminServices && user.services == SessionServices
    ensures admin.Get(UserService) == None && user.Get(UserService).Some?
    ensures forall s :: admin.Get(s).Some? ==> user.Get(s).Some?
    ensures admin.Get(AccountService).Some? && admin.Get(DatabaseService).Some?
  {
  }

  /**
   * A caller that builds both scopes from one configuration gets two
   * distinct clients pointed at the same endpoint and project; only the
   * session one carries the cookie, only the admin one carries the key.
   */
  method BuildBothScopes(env: Env, cookie: Option<string>) returns (user: Result<Scope, string>, admin: Scope)
    ensures user.Success? ==>
              && user.value.client != admin.client
              && user.value.client.endpoint == admin.client.endpoint
              && user.value.client.project == admin.client.project
              && user.value.client.session == cookie && admin.client.session == None
              && user.value.client.key == None && admin.client.key == Some(env.secretKey)
  {
    admin := CreateAdminClient(env);
    user := CreateSessionClient(env, cookie);
  }
}
