/** The HTTP client's interceptors and the reviews query builder
    (src/services/api.js).

    Before a request is sent, the request interceptor attaches the stored token
    as a bearer credential. It also drops `Content-Type` for form-data payloads.
    When a request fails, the response interceptor logs the user out on a 401
    or 403. A module-level flag makes sure that a burst of such failures logs
    out only once, and a timer clears the flag again after 300 ms. */
module Api {
  import opened Js
  import opened Storage
  import Auth

  const AuthorizationHeader: string := "Authorization"
  const ContentTypeHeader: string := "Content-Type"
  const BearerPrefix: string := "Bearer "

  // ---------------------------------------------------------------------------
  // Request side

  /** The headers the request leaves with: `Authorization: Bearer <token>` when
      a non-empty token is stored, then no `Content-Type` for a form-data body. */
  function OutgoingHeaders(headers: map<string, string>, token: Option<string>, isFormData: bool): map<string, string>
  {
    var withAuth := if Truthy(token) then headers[AuthorizationHeader := BearerPrefix + token.value] else headers;
    if isFormData then withAuth - {ContentTypeHeader} else withAuth
  }

  /** The request side in plain terms, key by key. */
  lemma OutgoingHeadersSpec(headers: map<string, string>, token: Option<string>, isFormData: bool)
    ensures var h := OutgoingHeaders(headers, token, isFormData);
      && (Truthy(token) ==> AuthorizationHeader in h && h[AuthorizationHeader] == BearerPrefix + token.value)
      && (!Truthy(token) ==> (AuthorizationHeader in h <==> AuthorizationHeader in headers))
      && (!Truthy(token) && AuthorizationHeader in headers ==> h[AuthorizationHeader] == headers[AuthorizationHeader])
      && (isFormData ==> ContentTypeHeader !in h)
      && (!isFormData ==> (ContentTypeHeader in h <==> ContentTypeHeader in headers))
      && (!isFormData && ContentTypeHeader in headers ==> h[ContentTypeHeader] == headers[ContentTypeHeader])
      && (forall k :: k != AuthorizationHeader && k != ContentTypeHeader ==>
            (k in h <==> k in headers) && (k in h ==> h[k] == headers[k]))
  {
  }

  /** Without a stored token and without a form-data body, a request leaves unchanged. */
  lemma PlainRequestUnchanged(headers: map<string, string>, token: Option<string>)
    requires !Truthy(token)
    ensures OutgoingHeaders(headers, token, false) == headers
  {
  }

  /** The request configuration the interceptor receives and edits in place. */
  class RequestConfig {
    var headers: map<string, string>
    /** `config.data instanceof FormData` */
    const isFormData: bool

    constructor (headers: map<string, string>, isFormData: bool)
      ensures this.headers == headers && this.isFormData == isFormData
    {
      this.headers := headers;
      this.isFormData := isFormData;
    }
  }

  /** The request interceptor: edits `config.headers` in place, returns the same config.
      It reads the storage and never writes it. */
  method OnRequest(config: RequestConfig, store: TokenStore) returns (r: RequestConfig)
    modifies config
    ensures r == config
    ensures config.headers == OutgoingHeaders(old(config.headers), store.Get(TokenKey), config.isFormData)
  {
    var token := store.Get(TokenKey);
    if Truthy(token) {
      config.headers := config.headers[AuthorizationHeader := BearerPrefix + token.value];
    }
    if config.isFormData {
      config.headers := config.headers - {ContentTypeHeader};
    }
    r := config;
  }

  // ---------------------------------------------------------------------------
  // Response side: the one-flag debounce

  /** A failed request: `error?.response?.status`, None when there was no response. */
  datatype HttpError = HttpError(status: Option<int>)

  predicate IsAuthStatus(status: Option<int>)
  {
    status == Some(401) || status == Some(403)
  }

  /** How obtaining the session store goes: the dynamic import and
      `useAuthStore()` succeed, or one of them throws. */
  datatype StoreLookup = LookupOk | LookupFailed(reason: string)

  /** What the interceptor rejects with: the original error, or the exception
      from the store lookup, which escapes through `try`/`finally`. */
  datatype Rejection = Rejected(error: HttpError) | LookupThrew(reason: string)

  /** The flag and how many logouts it has let through so far. */
  datatype Gate = Gate(handling: bool, logouts: nat)

  /** What happens to the gate: a failed request under the given store lookup,
      or the 300 ms timer firing. */
  datatype Event = Failure(status: Option<int>, lookup: StoreLookup) | TimerFired

  /** One event: an auth failure while the flag is clear sets it and logs out
      (unless the store lookup throws first); the timer clears the flag;
      everything else leaves the gate as it is. */
  function Step(g: Gate, e: Event): Gate
  {
    match e
    case Failure(status, lookup) =>
      if IsAuthStatus(status) && !g.handling then
        Gate(true, if lookup.LookupOk? then g.logouts + 1 else g.logouts)
      else g
    case TimerFired => g.(handling := false)
  }

  function Run(g: Gate, events: seq<Event>): Gate
    decreases |events|
  {
    if events == [] then g else Run(Step(g, events[0]), events[1..])
  }

  predicate IsAuthBurstEvent(e: Event)
  {
    e.Failure? && IsAuthStatus(e.status) && e.lookup.LookupOk?
  }

  function CountTimers(events: seq<Event>): nat
  {
    if events == [] then 0 else (if events[0].TimerFired? then 1 else 0) + CountTimers(events[1..])
  }

  /** While the flag is set and the timer has not fired, no failure logs out again. */
  lemma {:induction false} HandlingBlocksLogout(g: Gate, events: seq<Event>)
    requires g.handling
    requires forall i :: 0 <= i < |events| ==> events[i].Failure?
    ensures Run(g, events) == g
    decreases |events|
  {
    if events != [] {
      HandlingBlocksLogout(Step(g, events[0]), events[1..]);
    }
  }

  /** A burst of N >= 1 401/403 failures with the flag clear and no timer in
      between causes exactly one logout. */
  lemma BurstCollapsesToOneLogout(g: Gate, events: seq<Event>)
    requires !g.handling && |events| >= 1
    requires forall i :: 0 <= i < |events| ==> IsAuthBurstEvent(events[i])
    ensures Run(g, events) == Gate(true, g.logouts + 1)
  {
    HandlingBlocksLogout(Step(g, events[0]), events[1..]);
  }

  /** Failures with any other status (or none) never log out and never touch the flag. */
  lemma {:induction false} OtherFailuresIgnored(g: Gate, events: seq<Event>)
    requires forall i :: 0 <= i < |events| ==> events[i].Failure? && !IsAuthStatus(events[i].status)
    ensures Run(g, events) == g
    decreases |events|
  {
    if events != [] {
      OtherFailuresIgnored(g, events[1..]);
    }
  }

  /** Over any sequence of events, the logouts are at most one more than the
      number of times the timer fired (none more when the flag starts set). */
  lemma {:induction false} LogoutsBoundedByReleases(g: Gate, events: seq<Event>)
    ensures Run(g, events).logouts + (if Run(g, events).handling then 0 else 1)
            <= g.logouts + (if g.handling then 0 else 1) + CountTimers(events)
    decreases |events|
  {
    if events != [] {
      LogoutsBoundedByReleases(Step(g, events[0]), events[1..]);
    }
  }

  /** The module-level `isHandlingAuthError` flag, the pending release timer,
      and the number of logouts triggered (the effect the flag debounces). */
  class AuthErrorGate {
    var isHandlingAuthError: bool
    var releaseScheduled: bool
    var logoutCount: nat

    /** Between calls the flag is set exactly while its release is pending. */
    ghost predicate Valid()
      reads this
    {
      isHandlingAuthError == releaseScheduled
    }

    function State(): Gate
      reads this
    {
      Gate(isHandlingAuthError, logoutCount)
    }

    constructor ()
      ensures Valid() && State() == Gate(false, 0)
    {
      isHandlingAuthError := false;
      releaseScheduled := false;
      logoutCount := 0;
    }

    /** The response interceptor's error handler. `auth` is the session store
        when it offers `logout` (null otherwise), `store` is `localStorage`.
        It always rejects, with the original error unless the store lookup threw. */
    method OnResponseError(error: HttpError, lookup: StoreLookup, auth: Auth.Session?, store: TokenStore)
      returns (rejection: Rejection)
      requires Valid()
      requires auth != null ==> auth.Valid() && auth.store == store
      modifies this, store, auth
      ensures Valid()
      ensures State() == Step(old(State()), Failure(error.status, lookup))
      ensures auth != null ==> auth.Valid()
      ensures var fired := IsAuthStatus(error.status) && !old(isHandlingAuthError);
        && (fired && lookup.LookupFailed? ==> rejection == LookupThrew(lookup.reason))
        && (!(fired && lookup.LookupFailed?) ==> rejection == Rejected(error))
        && (fired && lookup.LookupOk? && auth != null ==> auth.State() == Auth.Cleared(old(auth.State())))
        && (fired && lookup.LookupOk? && auth == null ==> store.entries == WithoutSession(old(store.entries)))
        && (!(fired && lookup.LookupOk?) ==> store.entries == old(store.entries))
        && (!(fired && lookup.LookupOk?) && auth != null ==> auth.State() == old(auth.State()))
    {
      rejection := Rejected(error);
      if IsAuthStatus(error.status) && !isHandlingAuthError {
        isHandlingAuthError := true;
        if lookup.LookupFailed? {
          rejection := LookupThrew(lookup.reason);
        } else {
          if auth != null {
            auth.Logout();
          } else {
            store.RemoveItem(TokenKey);
            store.RemoveItem(RoleKey);
          }
          logoutCount := logoutCount + 1;
        }
        // the `finally` branch: schedule the release
        releaseScheduled := true;
      }
    }

    /** The 300 ms timer callback: clears the flag. */
    method Release()
      requires Valid()
      modifies this
      ensures Valid()
      ensures State() == Step(old(State()), TimerFired)
    {
      if releaseScheduled {
        isHandlingAuthError := false;
        releaseScheduled := false;
      }
    }
  }

  // ---------------------------------------------------------------------------
  // Store requests that fail: the interceptor runs before the caller sees the error

  /** The session after a failed request has passed through the response
      interceptor, with the gate in state `g` when it arrives: a 401/403 while
      the flag is clear logs out (unless the store lookup throws); any other
      failure leaves the session alone. */
  function AfterAuthFailure(g: Gate, s: Auth.SessionState, status: Option<int>, lookup: StoreLookup): Auth.SessionState
  {
    if IsAuthStatus(status) && !g.handling && lookup.LookupOk? then Auth.Cleared(s) else s
  }

  /** `fetchAllNotifications` whose `GET /api/notifications` fails with `status`:
      no request when logged out; otherwise the interceptor's effect, after which
      the fetch's `catch` touches nothing. */
  function FailedFetchState(jwt: Auth.Decoder, g: Gate, s: Auth.SessionState, nowMs: int,
                            status: Option<int>, lookup: StoreLookup): Auth.SessionState
  {
    if Auth.LoggedIn(jwt, s.token, nowMs) then
      Auth.WithNotifications(jwt, AfterAuthFailure(g, s, status, lookup), nowMs, None)
    else s
  }

  /** A failed notification fetch changes the session exactly when the session
      was logged in and the failure logged it out; the session is then the
      cleared one, and it is consistent either way. */
  lemma FailedFetchProperties(jwt: Auth.Decoder, g: Gate, s: Auth.SessionState, nowMs: int,
                              status: Option<int>, lookup: StoreLookup)
    requires Auth.Consistent(s)
    ensures var r := FailedFetchState(jwt, g, s, nowMs, status, lookup);
      && Auth.Consistent(r)
      && (r != s <==> Auth.LoggedIn(jwt, s.token, nowMs) && IsAuthStatus(status) && !g.handling && lookup.LookupOk?)
      && (r != s ==> r == Auth.Cleared(s) && !Auth.LoggedIn(jwt, r.token, nowMs) && TokenKey !in r.storage)
  {
    Auth.ClearedProperties(jwt, s, nowMs);
    Auth.NotificationsProperties(jwt, AfterAuthFailure(g, s, status, lookup), nowMs, None);
  }

  /** A login whose `POST /auth/login` is refused with 401 or 403 (a wrong
      password, say) while the flag is clear: the rejection reaches `login`
      with the session already reset, and the flag is left set. */
  lemma RefusedLoginLogsOut(jwt: Auth.Decoder, g: Gate, s: Auth.SessionState, nowMs: int, status: Option<int>)
    requires IsAuthStatus(status) && !g.handling
    ensures AfterAuthFailure(g, s, status, LookupOk) == Auth.Cleared(s)
    ensures !Auth.LoggedIn(jwt, AfterAuthFailure(g, s, status, LookupOk).token, nowMs)
    ensures Step(g, Failure(status, LookupOk)) == Gate(true, g.logouts + 1)
  {
    Auth.ClearedProperties(jwt, s, nowMs);
  }

  /** `fetchAllNotifications` whose request fails with `status`: the response
      interceptor runs on the failure, then the fetch's `catch` swallows the
      rejection. */
  method FailedNotificationFetch(gate: AuthErrorGate, auth: Auth.Session, nowMs: int,
                                 status: Option<int>, lookup: StoreLookup)
    requires gate.Valid() && auth.Valid()
    modifies gate, auth, auth.store
    ensures gate.Valid() && auth.Valid()
    ensures auth.State() == FailedFetchState(auth.jwt, old(gate.State()), old(auth.State()), nowMs, status, lookup)
    ensures gate.State() ==
      if Auth.LoggedIn(auth.jwt, old(auth.token), nowMs) then Step(old(gate.State()), Failure(status, lookup))
      else old(gate.State())
  {
    if !auth.IsLoggedIn(nowMs) {
      return;
    }
    var _ := gate.OnResponseError(HttpError(status), lookup, auth, auth.store);
    auth.FetchAllNotifications(nowMs, None);
  }

  /** `login` whose request fails with `status` and the error text `message`:
      the response interceptor runs on the failure first, then `login`
      rethrows what the interceptor rejected with: the request's error, or the
      store lookup's exception when that escaped. */
  method FailedLogin(gate: AuthErrorGate, auth: Auth.Session, status: Option<int>, lookup: StoreLookup,
                     message: string, redirect: Option<string>, nowMs: int)
    returns (rejection: Rejection, outcome: Auth.LoginOutcome)
    requires gate.Valid() && auth.Valid()
    modifies gate, auth, auth.store
    ensures gate.Valid() && auth.Valid()
    ensures outcome == Auth.Failed(if rejection.LookupThrew? then rejection.reason else message)
    ensures auth.State() == AfterAuthFailure(old(gate.State()), old(auth.State()), status, lookup)
    ensures gate.State() == Step(old(gate.State()), Failure(status, lookup))
    ensures rejection.LookupThrew? <==> IsAuthStatus(status) && !old(gate.isHandlingAuthError) && lookup.LookupFailed?
    ensures rejection ==
      if IsAuthStatus(status) && !old(gate.isHandlingAuthError) && lookup.LookupFailed? then LookupThrew(lookup.reason)
      else Rejected(HttpError(status))
  {
    rejection := gate.OnResponseError(HttpError(status), lookup, auth, auth.store);
    outcome := auth.Login(Auth.TransportError(if rejection.LookupThrew? then rejection.reason else message), redirect, nowMs, None);
  }

  // ---------------------------------------------------------------------------
  // listTournamentReviews: the request URL

  /** An optional numeric argument: omitted (so the default applies) or given. */
  datatype NumberArg = Omitted | Given(n: int)

  function ArgOr(a: NumberArg, default: int): int
  {
    if a.Omitted? then default else a.n
  }

  const DefaultPage: int := 1
  const DefaultLimit: int := 20

  function ReviewsPath(tournamentId: string): string
  {
    "/api/tournaments/" + tournamentId + "/reviews"
  }

  /** One `name=value` pair of a query string. */
  function Param(name: string, value: int): string
  {
    name + "=" + IntToString(value)
  }

  /** `URLSearchParams.toString()` for names and values that need no escaping. */
  function Serialize(params: seq<(string, int)>): string
    decreases |params|
  {
    if params == [] then ""
    else if |params| == 1 then Param(params[0].0, params[0].1)
    else Param(params[0].0, params[0].1) + "&" + Serialize(params[1..])
  }

  /** The query part of the reviews URL for an effective page `p` and limit `l`:
      the zero ones are left out, and no `?` is written when both are zero. */
  function ReviewsQuery(p: int, l: int): string
  {
    if p != 0 && l != 0 then "?" + (Param("page", p) + "&" + Param("limit", l))
    else if p != 0 then "?" + Param("page", p)
    else if l != 0 then "?" + Param("limit", l)
    else ""
  }

  /** A `?` is appended exactly when the page or the limit is non-zero. */
  lemma ReviewsQueryShape(p: int, l: int)
    ensures ReviewsQuery(p, l) != "" <==> p != 0 || l != 0
    ensures ReviewsQuery(p, l) != "" ==> ReviewsQuery(p, l)[0] == '?'
  {
  }

  /** The request URL of `listTournamentReviews`, built as the source does:
      collect the non-zero parameters, serialise them, append `?` and the
      result when it is not empty. */
  method ReviewsUrl(tournamentId: string, page: NumberArg, limit: NumberArg) returns (url: string)
    ensures url == ReviewsPath(tournamentId) + ReviewsQuery(ArgOr(page, DefaultPage), ArgOr(limit, DefaultLimit))
  {
    var p := ArgOr(page, DefaultPage);
    var l := ArgOr(limit, DefaultLimit);
    var params: seq<(string, int)> := [];
    if p != 0 {
      params := params + [("page", p)];
    }
    if l != 0 {
      params := params + [("limit", l)];
    }
    var qs := Serialize(params);
    if p != 0 && l != 0 {
      assert params == [("page", p), ("limit", l)] && params[1..] == [("limit", l)];
      assert Serialize(params[1..]) == Param("limit", l);
      assert qs == Param("page", p) + "&" + Param("limit", l);
    } else if p != 0 {
      assert params == [("page", p)];
    } else if l != 0 {
      assert params == [("limit", l)];
    }
    url := ReviewsPath(tournamentId) + (if qs != "" then "?" + qs else "");
  }
}
