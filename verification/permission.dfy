/** The navigation guard of src/permission.js: the `router.beforeEach` hook
    (lines 13-84) as a pure function from what it reads to the argument it
    passes to `next` and the ordered effects it performs, and the
    `router.afterEach` hook (lines 86-89). */
module Permission {
  import opened Wrappers
  import opened Locations
  import opened Effects

  /** Paths reachable without a token. */
  const WhiteList: seq<string> := [LoginPath]

  /** `getToken()` is truthy: present and not the empty string. */
  predicate HasToken(token: Option<string>) {
    token.Some? && token.value != ""
  }

  /** `store.getters.roles && store.getters.roles.length > 0`. */
  predicate HasRoles(roles: Option<seq<Role>>) {
    roles.Some? && |roles.value| > 0
  }

  /** How the two awaited store actions of the bootstrap settle: the `roles`
      that `user/getInfo` resolves with, then the route table that
      `permission/generateRoutes` resolves with. */
  datatype Replies = Replies(getInfo: Attempt<seq<Role>>, generateRoutes: Attempt<seq<RouteConfig>>)

  /** One run of the guard: the argument it passed to `next`, and everything it did, in order. */
  datatype Run = Run(next: NextArg, trace: seq<Effect>)

  /** The `beforeEach` guard. `token` is what `getToken()` returned, `to` the
      target, `roles` the roles cached in the store, and `replies` how the
      bootstrap's store actions settle should the guard await them. */
  function BeforeEach(token: Option<string>, to: Location, roles: Option<seq<Role>>, replies: Replies): Run
  {
    var start := [ProgressStart];
    if HasToken(token) then
      if to.path == LoginPath then
        Run(ToPath(HomePath), start + [Next(ToPath(HomePath))] + [ProgressDone])
      else if HasRoles(roles) then
        Run(Proceed, start + [Next(Proceed)])
      else
        Bootstrap(to, replies, start)
    else if to.path in WhiteList then
      Run(Proceed, start + [Next(Proceed)])
    else
      var url := LoginRedirect(to.path);
      Run(ToUrl(url), start + [Next(ToUrl(url))] + [ProgressDone])
  }

  /** The `try`/`catch` block of the guard (lines 34-69), after the effects
      `t` performed so far: fetch the roles, derive and register the routes,
      and re-enter the same target; on a rejection reset the token and go
      through the login page. */
  function Bootstrap(to: Location, replies: Replies, t: seq<Effect>): Run
  {
    var fetching := t + [Dispatch(GetInfo)];
    match replies.getInfo
    case Err =>
      Recover(to, fetching)
    case Ok(roles) =>
      var generating := fetching + [Dispatch(GenerateRoutes(roles))];
      match replies.generateRoutes
      case Err =>
        Recover(to, generating)
      case Ok(routes) =>
        Run(Replace(to), generating + [AddRoutes(routes)] + [Next(Replace(to))])
  }

  /** The `catch` clause (lines 63-69), after the effects `t` performed before the rejection. */
  function Recover(to: Location, t: seq<Effect>): Run
  {
    var url := LoginRedirect(to.path);
    Run(ToUrl(url), t + [Dispatch(ResetToken)] + [ShowError] + [Next(ToUrl(url))] + [ProgressDone])
  }

  /** The `afterEach` hook: it stops the progress bar, unconditionally. */
  function AfterEach(): (t: seq<Effect>)
    ensures Dones(t) == 1 && Starts(t) == 0
    ensures NextCalls(t) == [] && Dispatched(t) == [] && Registered(t) == []
  {
    One(ProgressDone);
    [ProgressDone]
  }
}
