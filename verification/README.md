# Route guard of vue-admin-template, in Dafny

This project models the navigation guard of `src/permission.js` in
vue-admin-template. The guard is the `router.beforeEach` hook. On every
navigation it:

- starts the progress bar;
- reads the login token from the cookie;
- with a token, either lets the navigation through or bootstraps the session. The bootstrap fetches the user's roles with `user/getInfo`, derives the accessible routes with `permission/generateRoutes`, registers them with `router.addRoutes`, and re-enters the same target with `replace: true`;
- without a token, lets only the whitelisted login page through, and redirects everything else to `/login?redirect=<path>`.

The `router.afterEach` hook stops the progress bar.

The model is pure. `Permission.BeforeEach` maps four inputs to a `Run`:

- the token;
- the target location;
- the roles cached in the store;
- how the two awaited store actions settle (`Replies`).

A `Run` holds the argument passed to `next` and the ordered list of observable effects:

- `NProgress.start`/`done`;
- the store dispatches;
- `router.addRoutes`;
- the error message;
- `next`.

Module `Effects` sorts a trace into a `Tally`: the `next` arguments, the dispatched actions and the registered tables, each in order, plus how often the bar was started and stopped and how often an error was shown. The counts of effects are stated over that tally, and `Effects.CountAccountsForAll` shows that the tally accounts for every effect of the trace.

Module `Session` follows a navigation through the redirects the guard issues. It carries the token, the cached roles and the registered tables from one guard run to the next. The router's URL resolution is modelled only as far as the guard depends on it:

- `Locations.Resolve` splits a URL at its first `?`.
- `Session.Absorb` states what the guard relies on the store to do: `user/getInfo` caches the roles it returns, `user/resetToken` removes the token and empties the cached roles, and `router.addRoutes` keeps the table.

The store itself is not part of this model, so these three are assumptions, not derived facts.

Modules:

- `Wrappers`: `Option` and `Attempt`, an awaited promise that resolves with a value or rejects.
- `Locations`: locations, the login and home paths, the login redirect URL and its resolution.
- `Effects`: store actions, `next` arguments, effects, and the tally of a trace.
- `Permission`: the whitelist, `BeforeEach` with its bootstrap and `catch` branches, and `AfterEach`.
- `GuardProperties`: what one guard run promises, branch by branch.
- `Session`: consecutive guard runs linked by the redirects they issue.

## Model

| member | source | states |
|---|---|---|
| Locations.LoginRedirect | src/permission.js:67 | The redirect URL starts with the login path and ends with the intended path, appended verbatim, with exactly ten characters between them. That those ten are the `?redirect=` marker is stated by `Locations.LoginRedirectResolves`. |
| Locations.LoginRedirectResolves | src/permission.js:80 | Round trip: resolving the login redirect lands on `/login`, and the query it carries is `redirect=` followed by the original path, unchanged. |
| Permission.BeforeEach | src/permission.js:13-84 | The `beforeEach` guard itself, branch for branch. It carries no contract of its own. Its properties are stated by `GuardProperties.BeforeEachShape`, `GuardProperties.BeforeEachWellFormed` and the branch lemmas below. |
| Permission.Bootstrap | src/permission.js:34-69 | The `try`/`catch` block. It carries no contract of its own. Its properties are stated by `GuardProperties.BootstrapResolved`, `GuardProperties.BootstrapRejected` and `GuardProperties.BootstrapProfile`. |
| Permission.Recover | src/permission.js:63-69 | The `catch` clause. It carries no contract of its own. Its properties are stated by `GuardProperties.RecoverProfile`. |
| Permission.AfterEach | src/permission.js:86-89 | The `afterEach` hook stops the progress bar exactly once. It starts nothing, dispatches nothing, registers nothing and calls no `next`. |
| GuardProperties.BeforeEachShape | src/permission.js:13-84 | Every run begins by starting the bar. It ends with `next`, or on a redirect with `next` followed by stopping the bar. A `replace` targets the very location the guard was given. |
| GuardProperties.BeforeEachWellFormed | src/permission.js:13-84 | Every run starts the bar once and calls `next` exactly once, with the argument it reports. It stops the bar itself exactly on redirects. It shows an error exactly when it resets the token. It registers routes only when it re-enters the target. |
| GuardProperties.RecoverProfile | src/permission.js:63-69 | The `catch` clause adds exactly four effects, in order: one `user/resetToken` dispatch, one error message, `next` to the login redirect for the target's path, and stopping the bar. |
| GuardProperties.BootstrapResolved | src/permission.js:37-62 | When both actions resolve, the bootstrap dispatches `user/getInfo` and then `permission/generateRoutes` with exactly the fetched roles. It registers exactly the generated table and re-enters the target with `replace`. |
| GuardProperties.BootstrapRejected | src/permission.js:34-69 | When either action rejects, the bootstrap ends with the `catch` clause's four effects and registers nothing. After a failed `user/getInfo`, routes are never generated. |
| GuardProperties.BootstrapProfile | src/permission.js:34-69 | Whatever the store replies, the bootstrap's first action is `user/getInfo` and it calls `next` once. It registers a table if and only if both actions resolve. |
| GuardProperties.NoTokenWhiteListedProceeds | src/permission.js:75-77 | Without a token, a target on the whitelist (only `/login`) proceeds with `next()`. There is no store action and no registration, and the guard does not stop the bar itself. |
| GuardProperties.NoTokenRedirectsToLogin | src/permission.js:78-82 | Without a token, any other target gets exactly start, `next('/login?redirect=' + path)`, done. The redirect resolves to the login page, which the guard then lets through. |
| GuardProperties.TokenOnLoginGoesHome | src/permission.js:24-27 | With a token, `/login` is redirected to `/` and the bar is stopped. The result does not depend on the cached roles or the store's replies. |
| GuardProperties.CachedRolesProceed | src/permission.js:29-32 | With a token and a non-empty cached role list, any target other than `/login` proceeds with no dispatch, no registration and no `done`. The result does not depend on the store's replies. |
| GuardProperties.DispatchesIffRolesMissing | src/permission.js:23-37 | The guard talks to the store if and only if it holds a token, the target is not `/login`, and the cached roles are absent or empty. Its first action is then `user/getInfo`. |
| GuardProperties.BootstrapSucceeds | src/permission.js:37-62 | A successful bootstrap's full trace is start, `user/getInfo`, `permission/generateRoutes(fetched roles)`, `addRoutes(generated table)`, `next({...to, replace: true})`, in that order. There is no `done` and no error. |
| GuardProperties.BootstrapFails | src/permission.js:63-69 | A failed bootstrap goes to the login redirect for the target's path. It ends with reset, error, `next`, done, and registers nothing. Its dispatches are exactly getInfo and reset, or getInfo, generateRoutes and reset. |
| GuardProperties.RegistersIffBootstrapSucceeds | src/permission.js:55-62 | Routes are registered if and only if the guard bootstraps and both actions resolve. Then exactly the generated table is registered, once, and `next` re-enters the target. |
| GuardProperties.ProgressBalanced | src/permission.js:13-89 | Counting `afterEach` when the navigation is confirmed, every attempt starts the bar once, calls `next` once, and stops the bar once. The exception is a `replace`: the guard leaves the bar running and `afterEach` does not fire for the abandoned attempt. |
| Session.GuardTargets | src/permission.js:23-83 | Where each branch sends the router. A confirmed navigation goes nowhere new. With a token, `/login` goes to `/`. A successful bootstrap re-enters the very target (line 62). A failed bootstrap, and any non-whitelisted target without a token, go to `/login` with `redirect=` and the target path as the query. |
| Session.Navigate | src/permission.js:13-84 | A navigation followed through at most `hops` redirects takes between one and `hops + 1` guard runs. It ends confirmed unless it used up every hop. |
| Session.RoutesAccumulate | src/permission.js:58 | The router ends up holding exactly the tables registered along the way, in order, after those it held before. |
| Session.WarmSessionStaysQuiet | src/permission.js:24-32 | A session with a token and cached roles never dispatches or registers, and keeps its state. It is confirmed at once, or after one bounce home when it targets `/login`. |
| Session.TokenlessSettles | src/permission.js:75-82 | Without a token, a navigation is confirmed at once on the whitelist, or after one redirect to the login page otherwise. It never dispatches or registers, and keeps its state. |
| Session.ColdSessionWarmsUp | src/permission.js:34-62 | A session with a token but no roles whose bootstrap returns some role registers the table once. The re-entered navigation then proceeds, and the session ends holding the token and the fetched roles. |
| Session.WarmUpStopsBar | src/permission.js:62-89 | After a successful bootstrap that fetched some role, the bar left running by the `replace` is stopped by `afterEach` once the re-entered run confirms. The whole navigation starts the bar twice and stops it once, and stopping it is the last effect. |
| Session.ColdSessionSignsOut | src/permission.js:63-69 | A session with a token but no roles whose bootstrap is rejected ends without token or roles after two runs, the second of them confirmed, and nothing is registered. |
| Session.ColdSessionSettles | src/permission.js:30-69 | Whatever the store replies, a session with a token but no roles dispatches `user/getInfo` exactly once and settles after two runs with at most one table registered. It ends warm if a table was registered and signed out otherwise. This requires that `user/getInfo` never resolves with an empty role list. That is an assumption about the `user/getInfo` action, which is not part of this model. The comment at line 36 only asks for an array and gives non-empty examples. |
| Session.EmptyRolesNeverSettle | src/permission.js:30-62 | If `user/getInfo` keeps resolving with an empty role list, the cached roles stay empty. Every re-entered navigation bootstraps again and registers the table once more, for as many redirects as are followed. This is why `Session.ColdSessionSettles` must assume a non-empty role list. |

## Left out

- Page title: `document.title = getPageTitle(to.meta.title)` (line 18) is a DOM write with no bearing on the guard's decision.
- Progress bar configuration: `NProgress.configure` (line 9) is cosmetic. Progress calls are modelled only as start and done effects.
- Error message text: the text of `Message.error(error || 'Has Error')` (line 66) is not modelled. The error is recorded only as an effect.
- Cookie reading: `getToken()` is an input. It is either absent or a string, and the empty string counts as absent, as JavaScript truthiness makes it.
- The `from` argument of the hook is unused by the guard and is not modelled.
- Store and router internals: the store actions and `router.addRoutes` are not part of this model. How they settle is an input (`Replies`). Within a `Session` journey one `Replies` answers every bootstrap, so the store is assumed to answer the same way each time. How they change the session is the assumption stated on `Session.Absorb`.
- Exceptions other than store rejections: a throw from `router.addRoutes` or `next` inside the `try`, and a rejection of `user/resetToken` inside the `catch`, are not modelled.
- Concurrency: overlapping navigations and the interleaving of the awaited actions with other navigations are not modelled. Each guard run is atomic.
- URL details: the router's resolution of the redirect string is reduced to splitting at the first `?`. Percent-encoding, `&` and `#` in paths, and query parsing are not modelled.
- Session.Navigate: it follows at most `hops` redirects. A navigation that needs more ends with the last redirect unfollowed, which is what `EmptyRolesNeverSettle` exhibits. One `Replies` answers every bootstrap of the journey, so the store is assumed to answer the same way each time. A store whose later replies differ from its first is not modelled.
- Session.ColdSessionSettles: it assumes that `user/getInfo` never resolves with an empty role list. That is an assumption about the store action, which is not part of this model. The comment at line 36 only asks for an array, with non-empty examples. If `user/getInfo` keeps resolving with an empty role list, the navigation never settles, and `Session.EmptyRolesNeverSettle` states what happens instead.
- Duplicate navigations: `Session.State` has no current route. The router aborts a redirect to the route it is already on as a duplicate, without running the guard again. The model re-runs the guard after every redirect. So `Session.WarmSessionStaysQuiet`, when the router is already at `/`, and `Session.TokenlessSettles`, when it is already at that login redirect URL, count a second, confirmed run that the router would not perform.
