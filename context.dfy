/** The per-request context factory (`createContext`) and the caller identity
    that every handler reads from it. */
module Context {
  import opened Common

  /** The `role` enumeration of the users table. */
  datatype Role = UserRole | AdminRole

  /** A row of the users table: the authenticated principal. */
  datatype User = User(
    id: int,
    openId: string,
    name: Option<string>,
    email: Option<string>,
    loginMethod: Option<string>,
    role: Role,
    createdAt: Time,
    updatedAt: Time,
    lastSignedIn: Time)

  /** The two environment variables the factory reads; `None` is an unset variable. */
  datatype Env = Env(mockModeVar: Option<string>, databaseUrl: Option<string>)

  /** What the session resolver (`sdk.authenticateRequest`) does with a request:
      it yields a user, or it throws. The resolver itself is not part of this model. */
  datatype Resolution = Authenticated(user: User) | Rejected(reason: string)

  /** The context handed to every procedure: the raw request and response
      handles and the caller, `None` for `null`. */
  datatype TrpcContext<Req, Res> = TrpcContext(req: Req, res: Res, user: Option<User>)

  /** `MOCK_MODE === 'true' || !DATABASE_URL`; the empty string is falsy, so an
      empty `DATABASE_URL` counts as missing. */
  predicate IsMockMode(env: Env): (mock: bool)
    ensures env.mockModeVar == Some("true") ==> mock
    ensures env.databaseUrl.None? || env.databaseUrl == Some("") ==> mock
    ensures env.mockModeVar != Some("true") && env.databaseUrl.Some? && env.databaseUrl.value != "" ==> !mock
  {
    env.mockModeVar == Some("true") || env.databaseUrl.None? || env.databaseUrl == Some("")
  }

  /** The fixed placeholder principal used in mock mode; its three timestamps
      are the moment the context is built. */
  function PlaceholderUser(now: Time): (u: User)
    ensures u.id == 1 && u.openId == "mock-user-001" && u.role == UserRole
    ensures u.name == Some("Mock User") && u.email == Some("mock@example.com") && u.loginMethod == Some("mock")
    ensures u.createdAt == now && u.updatedAt == now && u.lastSignedIn == now
  {
    User(1, "mock-user-001", Some("Mock User"), Some("mock@example.com"), Some("mock"),
         UserRole, now, now, now)
  }

  /** `createContext`: total, it never fails. In mock mode the caller is the
      placeholder and the resolver is not called; otherwise a resolved user
      becomes the caller and a resolver failure is caught and becomes `null`. */
  function CreateContext<Req, Res>(env: Env, req: Req, res: Res,
                                   resolve: Req -> Resolution, now: Time): (ctx: TrpcContext<Req, Res>)
    ensures ctx.req == req && ctx.res == res
    ensures IsMockMode(env) ==> ctx.user == Some(PlaceholderUser(now))
    ensures !IsMockMode(env) && resolve(req).Authenticated? ==> ctx.user == Some(resolve(req).user)
    ensures !IsMockMode(env) && resolve(req).Rejected? ==> ctx.user == None
  {
    var user :=
      if IsMockMode(env) then Some(PlaceholderUser(now))
      else match resolve(req)
        case Authenticated(u) => Some(u)
        case Rejected(_) => None;
    TrpcContext(req, res, user)
  }

  /** `ctx.user?.id || 1`: the owner stamped on new records. A missing caller
      and a caller whose id is 0 (falsy) both give 1. */
  function OwnerId(user: Option<User>): (id: int)
    ensures id != 0
    ensures user.Some? && user.value.id != 0 ==> id == user.value.id
    ensures user.None? || user.value.id == 0 ==> id == 1
  {
    if user.Some? && user.value.id != 0 then user.value.id else 1
  }

  /** `auth.me`: the context's user, or the mock data's user when it is `null`. */
  function Me<Req, Res>(ctx: TrpcContext<Req, Res>, fallback: User): (u: User)
    ensures ctx.user.Some? ==> u == ctx.user.value
    ensures ctx.user.None? ==> u == fallback
  {
    ctx.user.GetOr(fallback)
  }

  // ---------------------------------------------------------------------
  // Properties

  /** `MOCK_MODE=true` forces mock mode whatever `DATABASE_URL` says, an unset
      `DATABASE_URL` forces it whatever `MOCK_MODE` says, and a non-empty
      `DATABASE_URL` with any other `MOCK_MODE` turns it off. */
  lemma MockModeDecision(env: Env)
    ensures env.mockModeVar == Some("true") ==> IsMockMode(env)
    ensures env.databaseUrl.None? ==> IsMockMode(env)
    ensures env.mockModeVar != Some("true") && env.databaseUrl.Some? && env.databaseUrl.value != ""
            ==> !IsMockMode(env)
  {
  }

  /** In mock mode the context user is the placeholder: id 1, open id
      "mock-user-001", role user. */
  lemma MockModeUsesPlaceholder<Req, Res>(env: Env, req: Req, res: Res,
                                          resolve: Req -> Resolution, now: Time)
    requires IsMockMode(env)
    ensures var u := CreateContext(env, req, res, resolve, now).user;
      u.Some? && u.value.id == 1 && u.value.openId == "mock-user-001" && u.value.role == UserRole
  {
  }

  /** In mock mode the resolver is never consulted: any two resolvers give the
      same context. */
  lemma MockModeIgnoresResolver<Req, Res>(env: Env, req: Req, res: Res,
                                          r1: Req -> Resolution, r2: Req -> Resolution, now: Time)
    requires IsMockMode(env)
    ensures CreateContext(env, req, res, r1, now) == CreateContext(env, req, res, r2, now)
  {
  }

  /** The context has no user exactly when mock mode is off and the resolver
      failed: a failure is downgraded, never raised. */
  lemma NoUserOnlyOnResolverFailure<Req, Res>(env: Env, req: Req, res: Res,
                                              resolve: Req -> Resolution, now: Time)
    ensures CreateContext(env, req, res, resolve, now).user.None? <==>
      (!IsMockMode(env) && resolve(req).Rejected?)
  {
  }

  /** Outside mock mode the context depends on the resolver only through its
      outcome for this request. */
  lemma ResolverOutcomeDecides<Req, Res>(env: Env, req: Req, res: Res,
                                         r1: Req -> Resolution, r2: Req -> Resolution, now: Time)
    requires r1(req) == r2(req)
    ensures CreateContext(env, req, res, r1, now) == CreateContext(env, req, res, r2, now)
  {
  }

  /** In mock mode every record a handler creates is owned by user 1. */
  lemma MockModeOwnerIsOne<Req, Res>(env: Env, req: Req, res: Res,
                                     resolve: Req -> Resolution, now: Time)
    requires IsMockMode(env)
    ensures OwnerId(CreateContext(env, req, res, resolve, now).user) == 1
  {
  }

  /** In mock mode `auth.me` answers the placeholder user. */
  lemma MeInMockMode<Req, Res>(env: Env, req: Req, res: Res,
                               resolve: Req -> Resolution, now: Time, fallback: User)
    requires IsMockMode(env)
    ensures Me(CreateContext(env, req, res, resolve, now), fallback) == PlaceholderUser(now)
  {
  }
}
