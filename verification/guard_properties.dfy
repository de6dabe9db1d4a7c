/** What the navigation guard of src/permission.js promises, branch by branch,
    stated over the observable effects of one run. */
module GuardProperties {
  import opened Wrappers
  import opened Locations
  import opened Effects
  import opened Permission

  /** The `catch` clause adds one reset, one error notification, one `next`
      to the login page and one stop of the progress bar, and nothing else. */
  lemma RecoverProfile(to: Location, t: seq<Effect>)
    ensures var r := Recover(to, t);
      && r.next == ToUrl(LoginRedirect(to.path))
      && r.trace == t + [Dispatch(ResetToken)] + [ShowError] + [Next(r.next)] + [ProgressDone]
      && NextCalls(r.trace) == NextCalls(t) + [r.next]
      && Dispatched(r.trace) == Dispatched(t) + [ResetToken]
      && Registered(r.trace) == Registered(t)
      && Starts(r.trace) == Starts(t)
      && Dones(r.trace) == Dones(t) + 1
      && Errors(r.trace) == Errors(t) + 1
  {
    var url := LoginRedirect(to.path);
    var t1 := t + [Dispatch(ResetToken)];
    var t2 := t1 + [ShowError];
    var t3 := t2 + [Next(ToUrl(url))];
    Snoc(t, Dispatch(ResetToken));
    Snoc(t1, ShowError);
    Snoc(t2, Next(ToUrl(url)));
    Snoc(t3, ProgressDone);
  }

  /** When both store actions resolve, the bootstrap adds, after the effects
      `t` so far, the two dispatches in the order they were awaited, the one
      registration of the generated table, and the one `next` re-entering the target. */
  lemma BootstrapResolved(to: Location, fetched: seq<Role>, table: seq<RouteConfig>, t: seq<Effect>)
    ensures var r := Bootstrap(to, Replies(Ok(fetched), Ok(table)), t);
      && r.next == Replace(to)
      && NextCalls(r.trace) == NextCalls(t) + [Replace(to)]
      && Dispatched(r.trace) == Dispatched(t) + [GetInfo, GenerateRoutes(fetched)]
      && Registered(r.trace) == Registered(t) + [table]
      && Starts(r.trace) == Starts(t) && Dones(r.trace) == Dones(t) && Errors(r.trace) == Errors(t)
  {
    var fetching := t + [Dispatch(GetInfo)];
    var generating := fetching + [Dispatch(GenerateRoutes(fetched))];
    Snoc(t, Dispatch(GetInfo));
    Snoc(fetching, Dispatch(GenerateRoutes(fetched)));
    Snoc(generating, AddRoutes(table));
    Snoc(generating + [AddRoutes(table)], Next(Replace(to)));
  }

  /** When either store action rejects, the bootstrap adds, after the effects
      `t` so far, the dispatches made before the rejection and the `catch`
      clause's reset, and no registration. */
  lemma BootstrapRejected(to: Location, replies: Replies, t: seq<Effect>)
    requires replies.getInfo.Err? || replies.generateRoutes.Err?
    ensures var r := Bootstrap(to, replies, t);
      && r.next == ToUrl(LoginRedirect(to.path))
      && |r.trace| >= 4 && r.trace[|r.trace| - 4..] == [Dispatch(ResetToken), ShowError, Next(r.next), ProgressDone]
      && NextCalls(r.trace) == NextCalls(t) + [r.next]
      && Dispatched(r.trace) == Dispatched(t) +
           (match replies.getInfo
            case Err => [GetInfo, ResetToken]
            case Ok(fetched) => [GetInfo, GenerateRoutes(fetched), ResetToken])
      && Registered(r.trace) == Registered(t)
      && Starts(r.trace) == Starts(t) && Dones(r.trace) == Dones(t) + 1 && Errors(r.trace) == Errors(t) + 1
  {
    var fetching := t + [Dispatch(GetInfo)];
    Snoc(t, Dispatch(GetInfo));
    match replies.getInfo {
      case Err =>
        RecoverProfile(to, fetching);
      case Ok(fetched) =>
        Snoc(fetching, Dispatch(GenerateRoutes(fetched)));
        RecoverProfile(to, fetching + [Dispatch(GenerateRoutes(fetched))]);
    }
  }

  /** Either way, the bootstrap starts with `user/getInfo`, calls `next` once,
      and registers a table only on the branch that re-enters the target. */
  lemma BootstrapProfile(to: Location, replies: Replies, t: seq<Effect>)
    ensures var r := Bootstrap(to, replies, t);
      && NextCalls(r.trace) == NextCalls(t) + [r.next]
      && |Dispatched(r.trace)| > |Dispatched(t)| && Dispatched(r.trace)[|Dispatched(t)|] == GetInfo
      && (Registered(r.trace) != Registered(t) <==> replies.getInfo.Ok? && replies.generateRoutes.Ok?)
      && Starts(r.trace) == Starts(t)
      && Dones(r.trace) == Dones(t) + (if r.next.Redirects() then 1 else 0)
      && Errors(r.trace) == Errors(t) + (if ResetToken in Dispatched(r.trace)[|Dispatched(t)|..] then 1 else 0)
  {
    if replies.getInfo.Ok? && replies.generateRoutes.Ok? {
      BootstrapResolved(to, replies.getInfo.value, replies.generateRoutes.value, t);
    } else {
      BootstrapRejected(to, replies, t);
    }
  }

  /** The bootstrap, after effects `t` that begin by starting the bar, keeps
      that beginning and ends with `next` or, on a redirect, with `next`
      followed by stopping the bar. */
  lemma BootstrapShape(to: Location, replies: Replies, t: seq<Effect>)
    requires |t| >= 1 && t[0] == ProgressStart
    ensures var r := Bootstrap(to, replies, t);
      && |r.trace| >= 2 && r.trace[0] == ProgressStart
      && r.trace[|r.trace| - 1] == (if r.next.Redirects() then ProgressDone else Next(r.next))
      && (r.next.Redirects() ==> r.trace[|r.trace| - 2] == Next(r.next))
      && (r.next.Replace? ==> r.next.to == to)
  {
    var fetching := t + [Dispatch(GetInfo)];
    match replies.getInfo {
      case Err =>
        RecoverProfile(to, fetching);
        assert Bootstrap(to, replies, t) == Recover(to, fetching);
      case Ok(fetched) =>
        var generating := fetching + [Dispatch(GenerateRoutes(fetched))];
        match replies.generateRoutes {
          case Err =>
            RecoverProfile(to, generating);
            assert Bootstrap(to, replies, t) == Recover(to, generating);
          case Ok(table) =>
            assert Bootstrap(to, replies, t).trace == generating + [AddRoutes(table)] + [Next(Replace(to))];
        }
    }
  }

  /** Every run starts the progress bar and ends with `next` or, on a
      redirect, with `next` followed by stopping the bar; a `replace` re-enters
      the very target the guard was given. */
  lemma BeforeEachShape(token: Option<string>, to: Location, roles: Option<seq<Role>>, replies: Replies)
    ensures var r := BeforeEach(token, to, roles, replies);
      && |r.trace| >= 2 && r.trace[0] == ProgressStart
      && r.trace[|r.trace| - 1] == (if r.next.Redirects() then ProgressDone else Next(r.next))
      && (r.next.Redirects() ==> r.trace[|r.trace| - 2] == Next(r.next))
      && (r.next.Replace? ==> r.next.to == to)
  {
    if HasToken(token) && to.path != LoginPath && !HasRoles(roles) {
      BootstrapShape(to, replies, [ProgressStart]);
    }
  }

  /** Every run starts the progress bar once and calls `next` exactly once,
      with the argument the run reports. It stops the bar itself exactly on
      the branches that redirect, shows an error exactly when it resets the
      token, and registers routes only on the branch that re-enters the target. */
  lemma BeforeEachWellFormed(token: Option<string>, to: Location, roles: Option<seq<Role>>, replies: Replies)
    ensures var r := BeforeEach(token, to, roles, replies);
      && Starts(r.trace) == 1
      && NextCalls(r.trace) == [r.next]
      && Dones(r.trace) == (if r.next.Redirects() then 1 else 0)
      && Errors(r.trace) == (if ResetToken in Dispatched(r.trace) then 1 else 0)
      && (Registered(r.trace) != [] ==> r.next.Replace?)
  {
    var start := [ProgressStart];
    One(ProgressStart);
    if HasToken(token) && to.path != LoginPath && !HasRoles(roles) {
      BootstrapProfile(to, replies, start);
    } else {
      var r := BeforeEach(token, to, roles, replies);
      Snoc(start, Next(r.next));
      Snoc(start + [Next(r.next)], ProgressDone);
    }
  }

  /** Without a token, a whitelisted target (the login page is the only one)
      proceeds: no redirect, no store action, and the progress bar is left to
      the `afterEach` hook. */
  lemma NoTokenWhiteListedProceeds(token: Option<string>, to: Location, roles: Option<seq<Role>>, replies: Replies)
    requires !HasToken(token) && to.path in WhiteList
    ensures to.path == "/login"
    ensures var r := BeforeEach(token, to, roles, replies);
      && r.next == Proceed
      && Dispatched(r.trace) == [] && Registered(r.trace) == []
      && Dones(r.trace) == 0
  {
    One(ProgressStart);
    Snoc([ProgressStart], Next(Proceed));
  }

  /** Without a token, every other target is sent to the login page with the
      target path appended verbatim as the `redirect` query, and the guard
      stops the progress bar itself. The router then lands on a whitelisted
      path, so the redirected navigation proceeds. */
  lemma NoTokenRedirectsToLogin(token: Option<string>, to: Location, roles: Option<seq<Role>>, replies: Replies)
    requires !HasToken(token) && to.path !in WhiteList
    ensures var r := BeforeEach(token, to, roles, replies);
      && r.next == ToUrl(LoginRedirect(to.path))
      && r.trace == [ProgressStart, Next(r.next), ProgressDone]
      && Dispatched(r.trace) == [] && Registered(r.trace) == []
      && Resolve(r.next.url) == Location(LoginPath, "redirect=" + to.path)
      && BeforeEach(token, Resolve(r.next.url), roles, replies).next == Proceed
  {
    var url := LoginRedirect(to.path);
    var start := [ProgressStart];
    One(ProgressStart);
    Snoc(start, Next(ToUrl(url)));
    Snoc(start + [Next(ToUrl(url))], ProgressDone);
    assert start + [Next(ToUrl(url))] + [ProgressDone] == [ProgressStart, Next(ToUrl(url)), ProgressDone];
    LoginRedirectResolves(to.path);
    assert Resolve(url).path in WhiteList;
  }

  /** With a token, the login page redirects home; the cached roles and the
      bootstrap are never consulted. */
  lemma TokenOnLoginGoesHome(token: Option<string>, to: Location, roles: Option<seq<Role>>, replies: Replies)
    requires HasToken(token) && to.path == "/login"
    ensures var r := BeforeEach(token, to, roles, replies);
      && r.next == ToPath("/")
      && r.trace == [ProgressStart, Next(ToPath("/")), ProgressDone]
      && Dispatched(r.trace) == [] && Registered(r.trace) == []
      && forall roles', replies' :: BeforeEach(token, to, roles', replies') == r
  {
    One(ProgressStart);
    Snoc([ProgressStart], Next(ToPath(HomePath)));
    Snoc([ProgressStart] + [Next(ToPath(HomePath))], ProgressDone);
  }

  /** With a token and roles already cached, any other target proceeds without
      any store action or route registration, whatever the bootstrap would do. */
  lemma CachedRolesProceed(token: Option<string>, to: Location, roles: Option<seq<Role>>, replies: Replies)
    requires HasToken(token) && to.path != "/login" && HasRoles(roles)
    ensures var r := BeforeEach(token, to, roles, replies);
      && r.next == Proceed
      && Dispatched(r.trace) == [] && Registered(r.trace) == []
      && Dones(r.trace) == 0
      && forall replies' :: BeforeEach(token, to, roles, replies') == r
  {
    One(ProgressStart);
    Snoc([ProgressStart], Next(Proceed));
    var r := BeforeEach(token, to, roles, replies);
    forall replies' ensures BeforeEach(token, to, roles, replies') == r {
    }
  }

  /** The guard talks to the store exactly when it holds a token, the target is
      not the login page, and no roles are cached; absent roles and an empty
      role list are alike. It then starts with `user/getInfo`. */
  lemma DispatchesIffRolesMissing(token: Option<string>, to: Location, roles: Option<seq<Role>>, replies: Replies)
    ensures var r := BeforeEach(token, to, roles, replies);
      (Dispatched(r.trace) != [] <==> HasToken(token) && to.path != "/login" && (roles.None? || roles.value == []))
    ensures var r := BeforeEach(token, to, roles, replies);
      Dispatched(r.trace) != [] ==> Dispatched(r.trace)[0] == GetInfo && Dispatched(r.trace)[0].Name() == "user/getInfo"
  {
    var start := [ProgressStart];
    One(ProgressStart);
    if HasToken(token) && to.path != LoginPath && !HasRoles(roles) {
      BootstrapProfile(to, replies, start);
    } else {
      var r := BeforeEach(token, to, roles, replies);
      Snoc(start, Next(r.next));
      Snoc(start + [Next(r.next)], ProgressDone);
    }
  }

  /** When both bootstrap actions resolve, `permission/generateRoutes` receives
      exactly the roles `user/getInfo` returned, the router receives exactly the
      generated table, and only then does the guard re-enter the same target with
      `replace: true`, leaving the progress bar running. */
  lemma BootstrapSucceeds(token: Option<string>, to: Location, roles: Option<seq<Role>>,
                          fetched: seq<Role>, table: seq<RouteConfig>)
    requires HasToken(token) && to.path != "/login" && !HasRoles(roles)
    ensures var r := BeforeEach(token, to, roles, Replies(Ok(fetched), Ok(table)));
      && r.trace == [ProgressStart, Dispatch(GetInfo), Dispatch(GenerateRoutes(fetched)), AddRoutes(table), Next(Replace(to))]
      && Dispatched(r.trace) == [GetInfo, GenerateRoutes(fetched)]
      && Registered(r.trace) == [table]
      && r.next == Replace(to)
      && Dones(r.trace) == 0 && Errors(r.trace) == 0
  {
    One(ProgressStart);
    BootstrapResolved(to, fetched, table, [ProgressStart]);
  }

  /** When either bootstrap action rejects, the guard resets the token, shows
      the error, and goes through the login page with the target path as the
      `redirect` query; no routes are registered, and after a failed
      `user/getInfo` no routes are generated either. */
  lemma BootstrapFails(token: Option<string>, to: Location, roles: Option<seq<Role>>, replies: Replies)
    requires HasToken(token) && to.path != "/login" && !HasRoles(roles)
    requires replies.getInfo.Err? || replies.generateRoutes.Err?
    ensures var r := BeforeEach(token, to, roles, replies);
      && r.next == ToUrl("/login?redirect=" + to.path)
      && r.trace[|r.trace| - 4..] == [Dispatch(ResetToken), ShowError, Next(r.next), ProgressDone]
      && Registered(r.trace) == []
      && Dones(r.trace) == 1 && Errors(r.trace) == 1
      && Dispatched(r.trace) ==
           (match replies.getInfo
            case Err => [GetInfo, ResetToken]
            case Ok(fetched) => [GetInfo, GenerateRoutes(fetched), ResetToken])
  {
    One(ProgressStart);
    assert BeforeEach(token, to, roles, replies) == Bootstrap(to, replies, [ProgressStart]);
    BootstrapRejected(to, replies, [ProgressStart]);
  }

  /** Routes are registered exactly when both bootstrap actions resolve, and
      then exactly once, with the generated table, and `next` re-enters the
      target; a registration never happens on any other branch. */
  lemma RegistersIffBootstrapSucceeds(token: Option<string>, to: Location, roles: Option<seq<Role>>, replies: Replies)
    ensures var r := BeforeEach(token, to, roles, replies);
      (Registered(r.trace) != [] <==>
        HasToken(token) && to.path != "/login" && !HasRoles(roles)
        && replies.getInfo.Ok? && replies.generateRoutes.Ok?)
    ensures var r := BeforeEach(token, to, roles, replies);
      Registered(r.trace) != [] ==> Registered(r.trace) == [replies.generateRoutes.value] && r.next == Replace(to)
  {
    var start := [ProgressStart];
    One(ProgressStart);
    if HasToken(token) && to.path != LoginPath && !HasRoles(roles) {
      if replies.getInfo.Ok? && replies.generateRoutes.Ok? {
        BootstrapResolved(to, replies.getInfo.value, replies.generateRoutes.value, start);
      } else {
        BootstrapRejected(to, replies, start);
      }
    } else {
      var r := BeforeEach(token, to, roles, replies);
      Snoc(start, Next(r.next));
      Snoc(start + [Next(r.next)], ProgressDone);
    }
  }

  /** One navigation attempt as the router sees it: the guard's effects, then
      the `afterEach` hook's when the guard confirmed the navigation with `next()`. */
  function NavigationAttempt(token: Option<string>, to: Location, roles: Option<seq<Role>>, replies: Replies): seq<Effect>
  {
    var r := BeforeEach(token, to, roles, replies);
    r.trace + (if r.next == Proceed then AfterEach() else [])
  }

  /** Every attempt starts the progress bar once and calls `next` once. It
      stops the bar once, by the guard on a redirect or by `afterEach` on a
      confirmed navigation, except when the guard re-enters the target after
      registering routes: it then leaves the bar running, and `afterEach` does
      not fire for the abandoned attempt (`Session.WarmUpStopsBar` follows the
      re-entered run to the stop). */
  lemma ProgressBalanced(token: Option<string>, to: Location, roles: Option<seq<Role>>, replies: Replies)
    ensures var t := NavigationAttempt(token, to, roles, replies);
      && Starts(t) == 1
      && |NextCalls(t)| == 1
      && Dones(t) == (if BeforeEach(token, to, roles, replies).next.Replace? then 0 else 1)
  {
    var r := BeforeEach(token, to, roles, replies);
    var after := if r.next == Proceed then AfterEach() else [];
    BeforeEachWellFormed(token, to, roles, replies);
    CountAppend(r.trace, after);
  }
}
