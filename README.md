# Futsal-Pulse front end: session, guard, interceptors and display helpers in Dafny

This project models the client-side session and authorization logic of the
Futsal-Pulse tournament front end, and proves properties of the model. The
front end is a Vue single-page application. The model covers these parts:

- **Session store** (`src/stores/auth.js`, module `Auth`). It owns the access
  token, the cached role and the notification digest, and mirrors the token
  and role into `localStorage` under the keys `token` and `userRole`.
  - The derived facts are modelled as functions: decoding, expiry, logged-in,
    user id, the effective role, and the organizer/player flags.
  - The transitions are modelled as functions on a `SessionState` snapshot:
    hydration at start-up, `setAuthData`, `hardResetLocal`/`logout`, the
    notification fetch and `login`.
  - The `Session` class holds the same fields as the store. Each of its
    methods is proved to move the snapshot exactly as its transition function
    says, and to keep the invariant `Consistent`.
- **Token store** (`localStorage`, module `Storage`). A class holding a
  `map<string, string>` with get, set and remove.
- **Navigation guard** (`src/router/index.js`, module `Router`). The route
  table is constant data. The `beforeEach` guard is a pure decision over the
  destination and the current storage contents.
- **HTTP interceptors** (`src/services/api.js`, module `Api`).
  - The request interceptor edits the headers of the request configuration in
    place.
  - The response interceptor is a one-flag debounce. It is a class whose
    methods follow a pure `Step` function. Lemmas about bursts of failures are
    proved over `Run`, which folds `Step` over a sequence of events.
  - The `listTournamentReviews` query builder.
- **Match display helpers** (`src/utils/match.js`, module `MatchUtil`):
  `totalScore` and `resultSuffix`.
- **Image URL normaliser** (`src/utils/url.js`, module `Url`): `getImageUrl`.

The model stands in for several environment inputs with explicit parameters:

| Environment input | In the model |
|---|---|
| `jwtDecode` | any total function `string -> DecodeResult`, where `Threw` models the library throwing |
| `Date.now()` | the parameter `nowMs` |
| The base URL | a parameter |
| The notification endpoint's answer | the parameter `response`; `None` is a failed request |
| The login endpoint's reply | a `Transport` value |
| The 300 ms `setTimeout` | an explicit `Release` step, with a `releaseScheduled` field that says a timer is pending |
| Whether the interceptor's dynamic import of the store succeeds | a `StoreLookup` value |

In five places the code behaves differently from what a reader of the store
and the guard might expect. The model follows the code in each:

- **The guard does not check expiry.** One would expect the guard to treat an expired
  token as no token, as `isLoggedIn` and the start-up hydration (which resets
  the session on an expired token) do. The code only tests that a token is
  present. So a present but expired token passes the guard, which
  `Router.ExpiredTokenStillProceeds` states.
- **The cached role wins.** A signed token is the more trustworthy source of the
  role. Yet the code resolves the role as `userRole || roleFromToken`, so
  the cached role wins whenever it is non-empty (see `Auth.EffectiveRole`).
- **A failed notification fetch keeps the digest.** The fetch's `catch` leaves
  the list and counters as they were. The only exception is a 401/403 reply,
  which the response interceptor turns into a logout before the fetch sees the
  error (`Api.FailedNotificationFetch`).
- **The original error is not always re-raised.** The response interceptor is
  meant to hand every failed request's error back to its caller. In the code, if
  the dynamic `import('@/stores/auth')` or `useAuthStore()` throws inside the
  `try`/`finally`, that exception escapes instead of the original error. The
  model keeps this case (`Api.Rejection.LookupThrew`).
- **The stale role survives in storage.** `setAuthData` writes `userRole` to
  storage only when the resolved role is non-null. If it resolves to null,
  the in-memory role becomes null while any older stored role stays in
  storage. The invariant `Auth.Consistent` therefore only ties a non-null role
  to storage.

## Model

| member | source | states |
|---|---|---|
| `Js.IntToString` | src/utils/match.js:13-16 | the rendering of an integer is non-empty, starts with `-` exactly for negatives, and is digits everywhere else (including the first character of a non-negative one) |
| `Js.NatToStringValue` | src/services/api.js:70-71 | the digits rendered for `String(n)` denote `n` again, so the decimal rendering is faithful |
| `Js.IntToStringInjective` | src/utils/match.js:13-16 | different integers render to different strings |
| `Storage.WithoutSession` | src/stores/auth.js:84-85 | removing both session keys leaves neither `token` nor `userRole` and keeps every other key with its value |
| `Storage.WithoutSessionIdempotent` | src/stores/auth.js:84-85 | removing the session keys twice is the same as once |
| `Storage.TokenStore.Get` | src/stores/auth.js:23-24 | no contract of its own; `localStorage.getItem` is `Js.GetItem` of the stored map |
| `Storage.TokenStore.SetItem` | src/stores/auth.js:59-60 | `setItem` updates exactly one key |
| `Storage.TokenStore.RemoveItem` | src/stores/auth.js:84-85 | `removeItem` drops exactly one key, and removing a missing key changes nothing |
| `Auth.DecodeJwt` | src/stores/auth.js:7-14 | yields no claims for a missing or empty token or when the decoder throws, and yields the decoder's claims otherwise; it never fails |
| `Auth.ExpiredIffExpInPast` | src/stores/auth.js:15-20 | a token is expired iff it decodes, its `exp` is truthy (non-zero), and `exp * 1000 <= now`, which is the same as `exp <= floor(now / 1000)` |
| `Auth.PastExpiryNotLoggedIn` | src/stores/auth.js:30 | a token whose `exp` lies in the past at `nowMs` is not logged in when `isLoggedIn` is evaluated at `nowMs` (see the `Auth.LoggedIn` line under Left out) |
| `Auth.NoExpiryAlwaysLoggedIn` | src/stores/auth.js:15-30 | a non-empty token without claims or without a truthy `exp` is logged in at every time |
| `Auth.IsExpired` | src/stores/auth.js:15-20 | no contract of its own; its meaning is stated by `Auth.ExpiredIffExpInPast` |
| `Auth.LoggedIn` | src/stores/auth.js:30 | no contract of its own; its properties are `Auth.PastExpiryNotLoggedIn` and `Auth.NoExpiryAlwaysLoggedIn` |
| `Auth.UserId` | src/stores/auth.js:26-27 | the user id is the decoder's `id` claim whenever the token is non-empty, decodes and the claim is truthy; any id returned is non-zero and is that claim, so null is returned otherwise |
| `Auth.RoleFromToken` | src/stores/auth.js:26-28 | the token's role is the decoder's `role` claim whenever the token is non-empty, decodes and the claim is non-empty; any role returned is non-empty and is that claim, so null is returned otherwise |
| `Auth.EffectiveRole` | src/stores/auth.js:31-32 | the role read is never empty; it is null exactly when the cached role is empty or null and the token carries no non-empty role claim; a non-empty cached role wins |
| `Auth.IsOrganizer` | src/stores/auth.js:31 | no contract of its own; its properties are `Auth.OrganizerAndPlayerExclusive` and `Auth.RoleReadBack` |
| `Auth.IsPlayer` | src/stores/auth.js:32 | no contract of its own; its properties are `Auth.OrganizerAndPlayerExclusive` and `Auth.RoleReadBack` |
| `Auth.OrganizerAndPlayerExclusive` | src/stores/auth.js:31-32 | `isOrganizer` and `isPlayer` never hold together |
| `Auth.CountUnread` | src/stores/auth.js:46 | the number of unread notifications is at most the list length |
| `Auth.CountUnreadInvitations` | src/stores/auth.js:47-49 | the number of unread team invitations is at most the number of unread notifications |
| `Auth.CountsAppend` | src/stores/auth.js:46-49 | both counts add up over concatenated lists |
| `Auth.CountUnreadZero` | src/stores/auth.js:46 | the unread count is zero exactly when every notification is read |
| `Auth.Consistent` | src/stores/auth.js:34-36 | no contract of its own (the session invariant); `Auth.ConsistentCountsBounded` and the `Auth.Session` methods state what it gives and that it is kept |
| `Auth.ConsistentCountsBounded` | src/stores/auth.js:34-36 | in a consistent session, unread invitations ≤ unread total ≤ list length |
| `Auth.Loaded` | src/stores/auth.js:23-24 | the store as first loaded from storage is consistent |
| `Auth.Cleared` | src/stores/auth.js:78-86 | no contract of its own; its properties are `Auth.ClearedProperties` |
| `Auth.ClearedProperties` | src/stores/auth.js:78-86 | after `hardResetLocal`: logged out, both keys removed, other keys kept, list and counters emptied, consistent, and a second reset changes nothing |
| `Auth.ResolvedRole` | src/stores/auth.js:57 | the role kept is the new role when it is non-empty, else the new token's role claim, else null |
| `Auth.WithAuthData` | src/stores/auth.js:55-60 | no contract of its own; its properties are `Auth.SetAuthDataProperties` and `Auth.RoleReadBack` |
| `Auth.RoleReadBack` | src/stores/auth.js:55-60 | after `setAuthData(t, r)`, the role read by `isOrganizer` and `isPlayer` is the role that was resolved and kept, so each flag holds exactly when that role is `organizer` or `player` |
| `Auth.WithNotifications` | src/stores/auth.js:40-53 | no contract of its own; its properties are `Auth.NotificationsProperties` |
| `Auth.NotificationsProperties` | src/stores/auth.js:40-53 | the fetch changes nothing when not logged in, or when its request fails and the interceptor has not logged out (composed with the interceptor in `Api.FailedFetchProperties`); on success it installs the list with matching counts, bounds hold, consistency is kept, and the token, role and storage are untouched |
| `Auth.SetAuthDataProperties` | src/stores/auth.js:55-63 | after `setAuthData(t, r)`: the token is `t` and is stored; the role is resolved as above; the stored role is written only when that role is non-null and is left alone otherwise; other keys are kept; consistency is kept |
| `Auth.Hydrated` | src/stores/auth.js:98-102 | no contract of its own; its properties are `Auth.HydratedProperties` |
| `Auth.HydratedProperties` | src/stores/auth.js:98-102 | hydration with an expired stored token ends logged out with both keys gone; otherwise the stored token and role are kept; a live token ends logged in; no expired token survives |
| `Auth.LoginTarget` | src/stores/auth.js:69-70 | after login the user goes to the non-empty `redirect` query value, or else to `/` |
| `Auth.Session.constructor` | src/stores/auth.js:22-36 | the store's setup loads from storage and hydrates, establishing `Valid` |
| `Auth.Session.FetchAllNotifications` | src/stores/auth.js:40-53 | moves the state as the notifications transition says and keeps the invariant |
| `Auth.Session.SetAuthData` | src/stores/auth.js:55-63 | moves the state as `setAuthData` followed by its notification refresh, and keeps the invariant |
| `Auth.Session.HardResetLocal` | src/stores/auth.js:78-86 | the new state is the cleared state, and the invariant is kept |
| `Auth.Session.IsLoggedIn` | src/stores/auth.js:30 | no contract of its own; it reads `Auth.LoggedIn` of the current token |
| `Auth.Session.CurrentUserId` | src/stores/auth.js:27 | no contract of its own; it reads `Auth.UserId` of the current token |
| `Auth.Session.CurrentIsOrganizer` | src/stores/auth.js:31 | no contract of its own; it reads `Auth.IsOrganizer` of the current role and token |
| `Auth.Session.CurrentIsPlayer` | src/stores/auth.js:32 | no contract of its own; it reads `Auth.IsPlayer` of the current role and token |
| `Auth.Session.Logout` | src/stores/auth.js:88-96 | the local effect of logout is the reset |
| `Auth.Session.Login` | src/stores/auth.js:65-71 | a transport error that reaches `login` is rethrown with no further change to the state (a 401/403 has already logged out through the interceptor, see `Api.FailedLogin`); on success the session is established and the user is sent to the login target |
| `Router.Routes` | src/router/index.js:20-82 | the route table as data; its properties are `Router.RestrictedRoutes` and `Router.AnonymousPublicRoutesProceed` |
| `Router.BeforeEach` | src/router/index.js:92-108 | the guard only ever proceeds, sends to `/login` carrying the destination's full path (only for routes that require auth), or sends to `/` (only for the auth pages or role-restricted routes) |
| `Router.AnonymousToProtectedGoesToLogin` | src/router/index.js:96-98 | without a token, a route that requires auth yields the login redirect with `redirect=<fullPath>`, even when the route is role-restricted |
| `Router.SignedInAuthPageGoesHome` | src/router/index.js:99-101 | with a token, `/login` and `/register` yield `/` |
| `Router.RoleCheck` | src/router/index.js:102-106 | once the first two checks pass, a non-empty role list sends home exactly when the stored role is missing or not listed, and proceeds exactly when it is listed |
| `Router.NoRolesNoRestriction` | src/router/index.js:102 | a missing or empty role list makes the decision independent of the stored role |
| `Router.ProceedIffNoRuleFires` | src/router/index.js:96-107 | the guard proceeds exactly when none of its three rules fires |
| `Router.OnlyTokenPresenceMatters` | src/router/index.js:93-96 | the decision depends on the token only through whether it is non-empty, so expiry never matters |
| `Router.ExpiredTokenStillProceeds` | src/router/index.js:96-107 | a session whose token has expired is not logged in, yet it passes the guard into a protected route without roles |
| `Router.AfterResetProtectedGoesToLogin` | src/router/index.js:96-98 | after `hardResetLocal`, every protected route leads to the login page |
| `Router.AnonymousPublicRoutesProceed` | src/router/index.js:20-82 | every route of the table without `requiresAuth` (login, register, not-found) lets an anonymous user through |
| `Router.RestrictedRoutes` | src/router/index.js:31-79 | the role-restricted routes all require auth; the organizer-only ones are CreateTournament and EditTournament, and the player-only ones are CreateTeam and MyInvitations |
| `Router.PlayerCannotCreateTournament` | src/router/index.js:35 | a signed-in player going to `/tournaments/create` is sent to `/` |
| `Router.OrganizerCannotCreateTeam` | src/router/index.js:69 | a signed-in organizer going to `/teams/create` is sent to `/` |
| `Router.AnonymousTournamentsScenario` | src/router/index.js:29 | an anonymous user going to `/tournaments` is redirected to `/login` with `redirect=/tournaments` |
| `Api.OutgoingHeaders` | src/services/api.js:15-32 | no contract of its own; its properties are `Api.OutgoingHeadersSpec` and `Api.PlainRequestUnchanged` |
| `Api.OutgoingHeadersSpec` | src/services/api.js:15-32 | with a non-empty stored token, `Authorization` is `Bearer <token>`; otherwise `Authorization` is left as it was; a form-data payload loses `Content-Type`; every other header is untouched |
| `Api.PlainRequestUnchanged` | src/services/api.js:15-32 | without a token and without form data, the headers are unchanged |
| `Api.OnRequest` | src/services/api.js:13-35 | the interceptor edits the config's headers in place to the outgoing headers, returns the same config, and never writes storage |
| `Api.Step` | src/services/api.js:41-65 | no contract of its own; `Api.AuthErrorGate.OnResponseError` follows it, and the lemmas over `Api.Run` state its effect |
| `Api.Run` | src/services/api.js:41-65 | no contract of its own; its properties are `Api.HandlingBlocksLogout`, `Api.BurstCollapsesToOneLogout`, `Api.OtherFailuresIgnored` and `Api.LogoutsBoundedByReleases` |
| `Api.HandlingBlocksLogout` | src/services/api.js:43 | while the flag is set, any number of failures trigger no further logout |
| `Api.BurstCollapsesToOneLogout` | src/services/api.js:43-49 | a burst of one or more 401/403 failures with the flag clear yields exactly one logout and leaves the flag set |
| `Api.OtherFailuresIgnored` | src/services/api.js:42-43 | failures with any other status, or none, never log out and leave the flag unchanged |
| `Api.LogoutsBoundedByReleases` | src/services/api.js:43-61 | over any event sequence, the logouts are at most one more than the timer releases, and none more when the flag starts set |
| `Api.AuthErrorGate.constructor` | src/services/api.js:5 | the flag starts clear with no release pending |
| `Api.AuthErrorGate.OnResponseError` | src/services/api.js:41-65 | follows `Step`. It always rejects: with the original error, unless the store lookup threw after the flag was set. A triggered logout clears the session, or, without a store, removes both storage keys. Otherwise nothing changes |
| `Api.AuthErrorGate.Release` | src/services/api.js:60-61 | the timer callback clears the flag |
| `Api.AfterAuthFailure` | src/services/api.js:42-52 | no contract of its own; the session once a failed request has passed the interceptor, stated by `Api.FailedFetchProperties` and `Api.RefusedLoginLogsOut` |
| `Api.FailedFetchState` | src/stores/auth.js:40-53 | no contract of its own; a failed notification fetch composed with the interceptor, stated by `Api.FailedFetchProperties` |
| `Api.FailedFetchProperties` | src/stores/auth.js:40-53 | a failed notification fetch changes the session exactly when it was logged in and the failure is a 401/403 that the clear flag lets through to a working store; the session is then the cleared one, logged out with no stored token, and it is consistent either way |
| `Api.RefusedLoginLogsOut` | src/stores/auth.js:65-67 | a 401/403 reply to the login request while the flag is clear resets the session before `login` rethrows, counts one logout and leaves the flag set |
| `Api.FailedNotificationFetch` | src/stores/auth.js:40-53 | the interceptor then the fetch's `catch`: the new session is `Api.FailedFetchState` of the old one, the gate takes one `Step` exactly when a request was sent, and both invariants are kept |
| `Api.FailedLogin` | src/stores/auth.js:65-67 | the interceptor then `login`'s rethrow: the login fails with the error that reached it (the lookup's exception when that escaped, the request's error otherwise), the rejection is exactly `OnResponseError`'s, the session is `Api.AfterAuthFailure` of the old one, the gate takes one `Step`, and the store lookup's exception is what escapes exactly when it threw on a handled 401/403 |
| `Api.ReviewsQuery` | src/services/api.js:69-74 | no contract of its own; its properties are `Api.ReviewsQueryShape`, and `Api.ReviewsUrl` is proved equal to it |
| `Api.ReviewsQueryShape` | src/services/api.js:69-74 | the reviews URL gets a `?` suffix exactly when page or limit is non-zero |
| `Api.ReviewsUrl` | src/services/api.js:68-75 | the URL is the reviews path followed by `?page=P&limit=L`, `?page=P`, `?limit=L` or nothing, keeping only the non-zero ones, with defaults 1 and 20 |
| `MatchUtil.TotalScore` | src/utils/match.js:1-8 | no contract of its own; its properties are `MatchUtil.TotalScoreProperties` |
| `MatchUtil.TotalScoreProperties` | src/utils/match.js:1-8 | no match gives the dash pair; otherwise the totals are regular goals plus overtime goals, missing parts counting as 0 |
| `MatchUtil.ResultSuffix` | src/utils/match.js:10-27 | the suffix is one of `""`, `"P"`, `"AET"` or a string starting with `"P "` |
| `MatchUtil.ShootoutTakesPrecedence` | src/utils/match.js:13-16 | a shootout with both counts numeric yields `"P a–b"`, whatever else is set |
| `MatchUtil.LaterRules` | src/utils/match.js:10-27 | without such a shootout: `"P"` iff the result type is penalties; `"AET"` iff not penalties and the match went to extra time; `""` otherwise. No match also gives `""` |
| `MatchUtil.LateEventMeansExtraTime` | src/utils/match.js:19-24 | an event after minute 40 gives `"AET"` when the earlier rules do not apply, and a missing minute counts as 0 |
| `MatchUtil.ShootoutSuffixInjective` | src/utils/match.js:15 | equal shootout suffixes come from equal goal counts, so the suffix shows the score unambiguously |
| `Url.StripTrailingSlashes` | src/utils/url.js:16 | the result is a prefix of the input without a trailing `/`, and everything removed is `/` |
| `Url.StripIdempotent` | src/utils/url.js:16 | stripping twice is stripping once |
| `Url.WithLeadingSlash` | src/utils/url.js:17 | the path always starts with `/` |
| `Url.GetImageUrl` | src/utils/url.js:5-19 | the result is null exactly for a missing or empty input, and otherwise it ends with the input |
| `Url.EmptyHasNoUrl` | src/utils/url.js:6 | a null or empty input returns null |
| `Url.IsAbsolute` | src/utils/url.js:3 | no contract of its own; used by `Url.PassThroughUnchanged` |
| `Url.PassesThrough` | src/utils/url.js:8-13 | no contract of its own; its properties are `Url.PassThroughUnchanged` and `Url.JoinedWithOneSlash` |
| `Url.PassThroughUnchanged` | src/utils/url.js:3-13 | inputs matching `^(https?:)?//` (case-insensitive), or starting with `data:` or `blob:`, come back unchanged |
| `Url.JoinedWithOneSlash` | src/utils/url.js:16-18 | any other path becomes the stripped base, exactly one `/`, and the rest of the path; the base has no trailing `/` and the rest no leading one |
| `Url.NoBaseGivesRootedPath` | src/utils/url.js:16-17 | without a configured base, the result is the slash-prefixed path |

## Left out

- Navigation: `router.push`, the `window.location.pathname` fallbacks and `console.error` are browser side effects. `Auth.Session.Logout` models only the local reset, and the interceptor's fallback models only the storage removal.
- `register` (src/stores/auth.js:73-76) only passes the request to the transport, so it has no model of its own. A 401/403 reply to it passes through the response interceptor and logs out, exactly as `Api.FailedLogin` shows for `login`.
- Asynchrony: the notification fetch is fire-and-forget, and its answer is applied in the same step that starts it (the `response` parameter). So a logout that happens while a fetch is still running is not modelled. The code has no apply-time check against one either.
- Timing: the 300 ms delay is not modelled; `Release` is the timer firing.
- The axios instance, the base URL default, timeouts and every network call are transport and are left out. `jwtDecode` is abstract.
- Dynamic JavaScript values are given fixed types:
  - numbers are `int` (no fractions, `NaN` or numeric strings);
  - tokens and roles are strings or null;
  - a token value `undefined` stored by `setItem` as the text `"undefined"` is not modelled;
  - `isRead` is a boolean;
  - numbers are unbounded integers, so `Js.IntToString` and `Js.IntToStringInjective` do not model JavaScript doubles: precision is lost beyond 2^53, and `String(n)` switches to exponent form from 1e21;
  - a `null` entry in a match's `events` would make reading its `minute` throw (src/utils/match.js:21); every event is modelled as a record;
  - the `redirect` query value is a single string, so an array-valued `redirect`, which `String(...)` would join with commas (src/stores/auth.js:69-70), is not modelled;
  - a notification response that is not an array, where `filter` would throw after the list was replaced, is not modelled.
- Header names are compared exactly. Axios header objects compare names case-insensitively, and the `headers.set`/`delete` versus plain-object branches are collapsed onto one map.
- `URLSearchParams` percent-encoding is left out: the only names and values are `page`, `limit` and integer renderings, none of which needs escaping.
- `Router.BeforeEach`: `to.meta` is taken as given. Matching a URL against the route patterns (`:id` parameters, the catch-all) is the router library's job and is not modelled.
- `Auth.NotificationsProperties`, `Auth.SetAuthDataProperties`, `Auth.HydratedProperties`, `Auth.Session.FetchAllNotifications`, `Auth.Session.SetAuthData` and `Auth.Session.constructor`: their `response` is the notification fetch's outcome as the store sees it, after the response interceptor has run. A 401/403 failure has by then already logged out, so the token these members keep for every `response` is in fact cleared in that case. They do not compose this; `Api.FailedNotificationFetch` (run after `Auth.Session.SetAuthData` or the constructor) and `Api.FailedFetchProperties` do.
- `Auth.Session.Login`: its `reply` is the login request's outcome as the store sees it, after the response interceptor has run. A 401/403 failure has by then already logged out, and this method does not compose that; `Api.FailedLogin` does.
- `Auth.LoggedIn`: `nowMs` is the time at which `isLoggedIn` was last evaluated. In the store `isLoggedIn` is a cached computed value whose only reactive input is `token`; `Date.now()` is not reactive. So the store re-checks expiry only on the first read after `token` changes. A token that was live then still reads as logged in after its `exp` passes, and `fetchAllNotifications` then passes its guard and sends the request. The model re-evaluates at every `nowMs` and does not capture this caching. This applies to `Auth.PastExpiryNotLoggedIn`, `Auth.Session.IsLoggedIn` and the fetch guard. Hydration calls `isExpired` directly and is not affected.
- `Auth.Session.constructor`: the model starts the notification refresh only at set-up. Pinia creating the store lazily on first use is not modelled.
- `upsertTournamentReview` and `deleteTournamentReview` (src/services/api.js:79-88) only build a fixed path and call the transport; they hold no logic beyond the network call.
