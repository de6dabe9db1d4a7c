/** A navigation followed through the redirects the guard of
    src/permission.js issues, over the state that persists between guard runs.

    The store actions and the router are not part of this model; how they
    change that state is an assumption made by `Absorb` (and spelled out by
    `AbsorbEffects`), taken from what
    the guard relies on: `user/getInfo` caches the roles it resolves with
    (the guard reads them back at line 30), `user/resetToken` removes the
    token (line 64) and empties the cached roles, and `router.addRoutes` adds
    the table it receives. One `Replies` answers every bootstrap of a journey:
    the store is assumed to answer the same way each time it is asked. */
module Session {
  import opened Wrappers
  import opened Locations
  import opened Effects
  import opened Permission
  import opened GuardProperties

  /** What outlives one guard run: the token, the roles cached in the store,
      and the route tables the router has received, in order. */
  datatype State = State(token: Option<string>, roles: Option<seq<Role>>, routes: seq<seq<RouteConfig>>)

  /** The state after run `r`, under the assumed effects of the store actions
      and of `router.addRoutes`. */
  function Absorb(s: State, r: Run, replies: Replies): State {
    var actions := Dispatched(r.trace);
    var routes := s.routes + Registered(r.trace);
    if ResetToken in actions then State(None, Some([]), routes)
    else if GetInfo in actions && replies.getInfo.Ok? then State(s.token, Some(replies.getInfo.value), routes)
    else State(s.token, s.roles, routes)
  }

  /** The router keeps every table it received; a reset leaves neither token
      nor roles; without a reset the token stays; a run that neither
      dispatches nor registers leaves the state as it was. */
  lemma AbsorbEffects(s: State, r: Run, replies: Replies)
    ensures var s' := Absorb(s, r, replies);
      && s'.routes == s.routes + Registered(r.trace)
      && (ResetToken in Dispatched(r.trace) ==> !HasToken(s'.token) && !HasRoles(s'.roles))
      && (ResetToken !in Dispatched(r.trace) ==> s'.token == s.token)
      && (Dispatched(r.trace) == [] && Registered(r.trace) == [] ==> s' == s)
  {
  }

  /** Where the router goes after the guard called `next(arg)`: nowhere new
      when the navigation is confirmed, else the location `arg` names. */
  function Target(arg: NextArg): (loc: Option<Location>)
    ensures loc.None? <==> arg.Proceed?
    ensures arg.ToUrl? ==> loc == Some(Resolve(arg.url))
    ensures arg.Replace? ==> loc == Some(arg.to)
  {
    match arg
    case Proceed => None
    case ToPath(p) => Some(Resolve(p))
    case ToUrl(u) => Some(Resolve(u))
    case Replace(to) => Some(to)
  }

  /** Where each branch of the guard sends the router: nowhere new when it
      confirms the navigation; home from the login page when a token is held;
      back to the very target after a successful bootstrap; and to the login
      page, carrying the target path as its `redirect` query, after a failed
      bootstrap or when no token is held. */
  lemma GuardTargets(token: Option<string>, to: Location, roles: Option<seq<Role>>, replies: Replies)
    ensures var loc := Target(BeforeEach(token, to, roles, replies).next);
      && (HasToken(token) && to.path == LoginPath ==> loc == Some(Location(HomePath, "")))
      && (HasToken(token) && to.path != LoginPath && HasRoles(roles) ==> loc == None)
      && (HasToken(token) && to.path != LoginPath && !HasRoles(roles) ==>
            loc == if replies.getInfo.Ok? && replies.generateRoutes.Ok? then Some(to)
                   else Some(Location(LoginPath, "redirect=" + to.path)))
      && (!HasToken(token) && to.path in WhiteList ==> loc == None)
      && (!HasToken(token) && to.path !in WhiteList ==> loc == Some(Location(LoginPath, "redirect=" + to.path)))
  {
    if HasToken(token) && to.path != LoginPath && !HasRoles(roles) {
      if replies.getInfo.Ok? && replies.generateRoutes.Ok? {
        BootstrapResolved(to, replies.getInfo.value, replies.generateRoutes.value, [ProgressStart]);
        assert replies == Replies(Ok(replies.getInfo.value), Ok(replies.generateRoutes.value));
      } else {
        BootstrapRejected(to, replies, [ProgressStart]);
        LoginRedirectResolves(to.path);
      }
    } else if !HasToken(token) && to.path !in WhiteList {
      LoginRedirectResolves(to.path);
    }
  }

  /** A navigation followed to its end: every effect of every guard run, the
      last `next` argument, how many guard runs it took, and the state after. */
  datatype Journey = Journey(trace: seq<Effect>, last: NextArg, runs: nat, end: State)

  /** Navigate to `to` from state `s`, following at most `hops` redirects. */
  function Navigate(s: State, to: Location, replies: Replies, hops: nat): (j: Journey)
    decreases hops, 1
    ensures 1 <= j.runs <= hops + 1
    ensures j.last.Proceed? || j.runs == hops + 1
  {
    Follow(s, BeforeEach(s.token, to, s.roles, replies), replies, hops)
  }

  /** Carry on after guard run `r` from state `s`: stop when it confirmed the
      navigation or no redirect may be followed, else navigate where it points. */
  function Follow(s: State, r: Run, replies: Replies, hops: nat): (j: Journey)
    decreases hops, 0
    ensures 1 <= j.runs <= hops + 1
    ensures j.last.Proceed? || j.runs == hops + 1
  {
    var s' := Absorb(s, r, replies);
    match Target(r.next)
    case None => Journey(r.trace, r.next, 1, s')
    case Some(loc) =>
      if hops == 0 then Journey(r.trace, r.next, 1, s')
      else
        var rest := Navigate(s', loc, replies, hops - 1);
        Journey(r.trace + rest.trace, rest.last, rest.runs + 1, rest.end)
  }

  /** The first step of a journey that continues: its effects come first. */
  lemma NavigateStep(s: State, to: Location, replies: Replies, hops: nat)
    requires BeforeEach(s.token, to, s.roles, replies).next != Proceed
    ensures var r := BeforeEach(s.token, to, s.roles, replies);
      var rest := Navigate(Absorb(s, r, replies), Target(r.next).value, replies, hops);
      var j := Navigate(s, to, replies, hops + 1);
      && j.trace == r.trace + rest.trace
      && j.last == rest.last && j.runs == rest.runs + 1 && j.end == rest.end
      && Dispatched(j.trace) == Dispatched(r.trace) + Dispatched(rest.trace)
      && Registered(j.trace) == Registered(r.trace) + Registered(rest.trace)
      && NextCalls(j.trace) == NextCalls(r.trace) + NextCalls(rest.trace)
  {
    var r := BeforeEach(s.token, to, s.roles, replies);
    var rest := Navigate(Absorb(s, r, replies), Target(r.next).value, replies, hops);
    CountAppend(r.trace, rest.trace);
  }

  /** A journey whose first run confirms the navigation, or that may not
      follow any redirect, is that run alone. */
  lemma NavigateStops(s: State, to: Location, replies: Replies, hops: nat)
    requires BeforeEach(s.token, to, s.roles, replies).next == Proceed || hops == 0
    ensures var r := BeforeEach(s.token, to, s.roles, replies);
      var j := Navigate(s, to, replies, hops);
      && j.trace == r.trace && j.last == r.next && j.runs == 1 && j.end == Absorb(s, r, replies)
  {
  }

  /** Two stretches of registrations compose. */
  lemma ChainRoutes<T>(start: seq<T>, middle: seq<T>, end: seq<T>, first: seq<T>, second: seq<T>)
    requires middle == start + first && end == middle + second
    ensures end == start + (first + second)
  {
  }

  /** The router ends up with exactly the tables registered along the way, in order. */
  lemma {:induction false} RoutesAccumulate(s: State, to: Location, replies: Replies, hops: nat)
    decreases hops
    ensures var j := Navigate(s, to, replies, hops);
      j.end.routes == s.routes + Registered(j.trace)
  {
    var r := BeforeEach(s.token, to, s.roles, replies);
    var s' := Absorb(s, r, replies);
    if r.next != Proceed && hops > 0 {
      var h: nat := hops - 1;
      var rest := Navigate(s', Target(r.next).value, replies, h);
      NavigateStep(s, to, replies, h);
      RoutesAccumulate(s', Target(r.next).value, replies, h);
      AbsorbEffects(s, r, replies);
      ChainRoutes(s.routes, s'.routes, rest.end.routes, Registered(r.trace), Registered(rest.trace));
    } else {
      NavigateStops(s, to, replies, hops);
      AbsorbEffects(s, r, replies);
    }
  }

  /** A session holding a token but no roles, whose `user/getInfo` keeps
      resolving with an empty role list, never settles: the cached roles stay empty, so
      every re-entered navigation bootstraps again and registers the table once
      more, however many redirects are followed. */
  lemma {:induction false} EmptyRolesNeverSettle(s: State, to: Location, table: seq<RouteConfig>, hops: nat)
    requires HasToken(s.token) && !HasRoles(s.roles) && to.path != LoginPath
    decreases hops
    ensures var j := Navigate(s, to, Replies(Ok([]), Ok(table)), hops);
      && j.last == Replace(to) && j.runs == hops + 1
      && |Registered(j.trace)| == hops + 1
      && !HasRoles(j.end.roles) && j.end.token == s.token
  {
    var replies := Replies(Ok([]), Ok(table));
    var r := BeforeEach(s.token, to, s.roles, replies);
    var s' := Absorb(s, r, replies);
    BootstrapSucceeds(s.token, to, s.roles, [], table);
    assert s' == State(s.token, Some([]), s.routes + [table]);
    if hops == 0 {
      NavigateStops(s, to, replies, hops);
    } else {
      var h: nat := hops - 1;
      assert Target(r.next).value == to;
      NavigateStep(s, to, replies, h);
      EmptyRolesNeverSettle(s', to, table, h);
    }
  }

  /** A session that holds a token and cached roles never talks to the store
      again: any navigation is confirmed at once, or after one redirect when it
      targets the login page, which bounces home, and leaves the state as it was. */
  lemma WarmSessionStaysQuiet(s: State, to: Location, replies: Replies, hops: nat)
    requires HasToken(s.token) && HasRoles(s.roles) && (to.path == LoginPath ==> hops >= 1)
    ensures var j := Navigate(s, to, replies, hops);
      && j.last == Proceed && j.runs == (if to.path == LoginPath then 2 else 1)
      && Dispatched(j.trace) == [] && Registered(j.trace) == []
      && j.end == s
  {
    if to.path == LoginPath {
      var h: nat := hops - 1;
      var r := BeforeEach(s.token, to, s.roles, replies);
      TokenOnLoginGoesHome(s.token, to, s.roles, replies);
      AbsorbEffects(s, r, replies);
      var home := Location("/", "");
      assert Target(r.next).value == home;
      NavigateStep(s, to, replies, h);
      CachedRolesProceed(s.token, home, s.roles, replies);
      var r' := BeforeEach(s.token, home, s.roles, replies);
      AbsorbEffects(s, r', replies);
      NavigateStops(s, home, replies, h);
    } else {
      var r := BeforeEach(s.token, to, s.roles, replies);
      CachedRolesProceed(s.token, to, s.roles, replies);
      AbsorbEffects(s, r, replies);
      NavigateStops(s, to, replies, hops);
    }
  }

  /** Without a token, a whitelisted target is confirmed at once, and any
      other is redirected to the login page, which is confirmed: no store
      action, and the state is left as it was. */
  lemma TokenlessSettles(s: State, to: Location, replies: Replies, hops: nat)
    requires !HasToken(s.token) && (to.path !in WhiteList ==> hops >= 1)
    ensures var j := Navigate(s, to, replies, hops);
      && j.last == Proceed && j.runs == (if to.path in WhiteList then 1 else 2)
      && Dispatched(j.trace) == [] && Registered(j.trace) == []
      && j.end == s
  {
    if to.path !in WhiteList {
      var h: nat := hops - 1;
      var r := BeforeEach(s.token, to, s.roles, replies);
      NoTokenRedirectsToLogin(s.token, to, s.roles, replies);
      AbsorbEffects(s, r, replies);
      var login := Target(r.next).value;
      assert login == Resolve(r.next.url);
      NavigateStep(s, to, replies, h);
      NoTokenWhiteListedProceeds(s.token, login, s.roles, replies);
      var r' := BeforeEach(s.token, login, s.roles, replies);
      AbsorbEffects(s, r', replies);
      NavigateStops(s, login, replies, h);
    } else {
      var r := BeforeEach(s.token, to, s.roles, replies);
      NoTokenWhiteListedProceeds(s.token, to, s.roles, replies);
      AbsorbEffects(s, r, replies);
      NavigateStops(s, to, replies, hops);
    }
  }

  /** A session holding a token but no roles, whose bootstrap succeeds with
      some role: the table is registered once, the re-entered navigation finds
      the roles cached and proceeds, and the session is warm afterwards. */
  lemma ColdSessionWarmsUp(s: State, to: Location, fetched: seq<Role>, table: seq<RouteConfig>, hops: nat)
    requires HasToken(s.token) && !HasRoles(s.roles) && to.path != LoginPath && hops >= 1
    requires fetched != []
    ensures var j := Navigate(s, to, Replies(Ok(fetched), Ok(table)), hops);
      && j.last == Proceed && j.runs == 2
      && Dispatched(j.trace) == [GetInfo, GenerateRoutes(fetched)]
      && Registered(j.trace) == [table]
      && j.end == State(s.token, Some(fetched), s.routes + [table])
  {
    var replies := Replies(Ok(fetched), Ok(table));
    var r := BeforeEach(s.token, to, s.roles, replies);
    var s' := Absorb(s, r, replies);
    var h: nat := hops - 1;
    BootstrapSucceeds(s.token, to, s.roles, fetched, table);
    assert s' == State(s.token, Some(fetched), s.routes + [table]);
    assert Target(r.next).value == to;
    NavigateStep(s, to, replies, h);
    WarmSessionStaysQuiet(s', to, replies, h);
  }

  /** Everything the router does for a navigation: every guard run's effects,
      then the `afterEach` hook's once the last run confirmed the navigation. */
  function Settled(j: Journey): seq<Effect> {
    j.trace + (if j.last == Proceed then AfterEach() else [])
  }

  /** Two guard runs that each start the bar and leave it running, followed
      by the `afterEach` hook: two starts, one stop. */
  lemma TwoStartsOneStop(first: seq<Effect>, second: seq<Effect>)
    requires Starts(first) == 1 && Dones(first) == 0 && Starts(second) == 1 && Dones(second) == 0
    ensures Starts(first + second + AfterEach()) == 2 && Dones(first + second + AfterEach()) == 1
  {
    CountAppend(first, second);
    CountAppend(first + second, AfterEach());
  }

  /** The guard leaves the progress bar running when it re-enters the target
      after a successful bootstrap; the re-entered run finds the roles cached
      and confirms, so `afterEach` stops the bar: two starts, one stop, and
      the stop comes last. */
  lemma WarmUpStopsBar(s: State, to: Location, fetched: seq<Role>, table: seq<RouteConfig>, hops: nat)
    requires HasToken(s.token) && !HasRoles(s.roles) && to.path != LoginPath && hops >= 1
    requires fetched != []
    ensures var t := Settled(Navigate(s, to, Replies(Ok(fetched), Ok(table)), hops));
      && Starts(t) == 2 && Dones(t) == 1 && t[|t| - 1] == ProgressDone
  {
    var replies := Replies(Ok(fetched), Ok(table));
    var r := BeforeEach(s.token, to, s.roles, replies);
    var s' := State(s.token, Some(fetched), s.routes + [table]);
    var h: nat := hops - 1;
    BootstrapSucceeds(s.token, to, s.roles, fetched, table);
    BeforeEachWellFormed(s.token, to, s.roles, replies);
    assert Absorb(s, r, replies) == s';
    assert Target(r.next).value == to;
    NavigateStep(s, to, replies, h);
    var r' := BeforeEach(s'.token, to, s'.roles, replies);
    CachedRolesProceed(s'.token, to, s'.roles, replies);
    BeforeEachWellFormed(s'.token, to, s'.roles, replies);
    NavigateStops(s', to, replies, h);
    TwoStartsOneStop(r.trace, r'.trace);
  }

  /** A session holding a token but no roles, whose bootstrap is rejected: the
      token is gone, the login page proceeds, nothing is registered, and
      `user/getInfo` was dispatched once. */
  lemma ColdSessionSignsOut(s: State, to: Location, replies: Replies, hops: nat)
    requires HasToken(s.token) && !HasRoles(s.roles) && to.path != LoginPath && hops >= 1
    requires replies.getInfo.Err? || replies.generateRoutes.Err?
    ensures var j := Navigate(s, to, replies, hops);
      && j.last == Proceed && j.runs == 2
      && Dispatched(j.trace) == Dispatched(BeforeEach(s.token, to, s.roles, replies).trace)
      && Registered(j.trace) == []
      && !HasToken(j.end.token) && !HasRoles(j.end.roles)
  {
    var r := BeforeEach(s.token, to, s.roles, replies);
    var s' := Absorb(s, r, replies);
    var h: nat := hops - 1;
    BootstrapFails(s.token, to, s.roles, replies);
    AbsorbEffects(s, r, replies);
    NavigateStep(s, to, replies, h);
    var login := Target(r.next).value;
    LoginRedirectResolves(to.path);
    assert login.path in WhiteList;
    TokenlessSettles(s', login, replies, h);
  }

  /** A session holding a token but no roles bootstraps exactly once, whatever
      the store replies, provided `user/getInfo` never resolves with an empty
      role list: it settles after two guard runs, registering at most one table,
      warm if it registered one and signed out otherwise. */
  lemma ColdSessionSettles(s: State, to: Location, replies: Replies, hops: nat)
    requires HasToken(s.token) && !HasRoles(s.roles) && to.path != LoginPath && hops >= 1
    requires replies.getInfo.Ok? ==> replies.getInfo.value != []
    ensures var j := Navigate(s, to, replies, hops);
      && j.last == Proceed && j.runs == 2
      && multiset(Dispatched(j.trace))[GetInfo] == 1
      && |Registered(j.trace)| <= 1
      && (Registered(j.trace) != [] ==> HasToken(j.end.token) && HasRoles(j.end.roles))
      && (Registered(j.trace) == [] ==> !HasToken(j.end.token))
  {
    if replies.getInfo.Ok? && replies.generateRoutes.Ok? {
      ColdSessionWarmsUp(s, to, replies.getInfo.value, replies.generateRoutes.value, hops);
      assert replies == Replies(Ok(replies.getInfo.value), Ok(replies.generateRoutes.value));
    } else {
      ColdSessionSignsOut(s, to, replies, hops);
      BootstrapFails(s.token, to, s.roles, replies);
    }
  }
}
