/** The session store (src/stores/auth.js): the access token, the cached role,
    the notification digest, and their mirror in `localStorage`.

    The pure part (token decoding, expiry, the derived values, the counts and
    the transitions as functions on a `SessionState` snapshot) comes first;
    the `Session` class holds the mutable fields and its methods are proved to
    move the snapshot exactly as the transition functions say. */
module Auth {
  import opened Js
  import opened Storage

  /** The claims of a decoded token; a missing field is None. */
  datatype Claims = Claims(id: Option<int>, role: Option<string>, exp: Option<int>)

  /** What the `jwtDecode` library does with a token string: return its claims or throw. */
  datatype DecodeResult = Decoded(claims: Claims) | Threw

  /** The library itself is not modelled: any total function will do. */
  type Decoder = string -> DecodeResult

  datatype Notification = Notification(kind: string, isRead: bool)

  const TeamInvitation: string := "team_invitation"
  const Organizer: string := "organizer"
  const Player: string := "player"

  /** `decodeJwt`: no claims for a missing or empty token, and a decoder that
      throws is caught and yields no claims, so decoding never fails. */
  function DecodeJwt(jwt: Decoder, t: Option<string>): (d: Option<Claims>)
    ensures d.Some? <==> Truthy(t) && jwt(t.value).Decoded?
    ensures d.Some? ==> jwt(t.value) == Decoded(d.value)
  {
    if !Truthy(t) then None
    else match jwt(t.value)
      case Decoded(c) => Some(c)
      case Threw => None
  }

  /** JavaScript truthiness of an optional number: missing and 0 are falsy. */
  predicate NumberTruthy(n: Option<int>)
  {
    n.Some? && n.value != 0
  }

  /** `isExpired(t)` at wall-clock time `nowMs` (milliseconds): a token without
      claims or without a truthy `exp` never expires; otherwise it is expired
      once `exp <= Math.floor(nowMs / 1000)`. Dafny's `/` by a positive divisor
      rounds down, like `Math.floor`. */
  predicate IsExpired(jwt: Decoder, t: Option<string>, nowMs: int)
  {
    var d := DecodeJwt(jwt, t);
    d.Some? && NumberTruthy(d.value.exp) && d.value.exp.value <= nowMs / 1000
  }

  lemma SecondsBound(e: int, nowMs: int)
    ensures e <= nowMs / 1000 <==> e * 1000 <= nowMs
  {
    var q, r := nowMs / 1000, nowMs % 1000;
    assert nowMs == q * 1000 + r && 0 <= r < 1000;
    if e <= q {
      assert e * 1000 <= q * 1000;
    } else {
      assert e * 1000 >= q * 1000 + 1000;
    }
  }

  /** Expiry in plain terms: the token decodes, carries a non-zero `exp`, and
      that second has begun by `nowMs`. */
  lemma ExpiredIffExpInPast(jwt: Decoder, t: Option<string>, nowMs: int)
    ensures IsExpired(jwt, t, nowMs) <==>
      (Truthy(t) && jwt(t.value).Decoded? && NumberTruthy(jwt(t.value).claims.exp)
       && jwt(t.value).claims.exp.value * 1000 <= nowMs)
  {
    if Truthy(t) && jwt(t.value).Decoded? && NumberTruthy(jwt(t.value).claims.exp) {
      SecondsBound(jwt(t.value).claims.exp.value, nowMs);
    }
  }

  /** `isLoggedIn`: a non-empty token that has not expired. */
  predicate LoggedIn(jwt: Decoder, t: Option<string>, nowMs: int)
  {
    Truthy(t) && !IsExpired(jwt, t, nowMs)
  }

  /** A token whose claims carry an `exp` in the past is never logged in. */
  lemma PastExpiryNotLoggedIn(jwt: Decoder, t: string, nowMs: int, c: Claims)
    requires jwt(t) == Decoded(c) && c.exp.Some? && c.exp.value != 0 && c.exp.value * 1000 <= nowMs
    ensures !LoggedIn(jwt, Some(t), nowMs)
  {
    ExpiredIffExpInPast(jwt, Some(t), nowMs);
  }

  /** A non-empty token without a truthy `exp` (or without claims at all) is
      logged in at every time: it is never force-expired on the client. */
  lemma NoExpiryAlwaysLoggedIn(jwt: Decoder, t: string, nowMs: int)
    requires t != ""
    requires jwt(t).Threw? || !NumberTruthy(jwt(t).claims.exp)
    ensures LoggedIn(jwt, Some(t), nowMs)
  {
  }

  /** `userId`: the `id` claim when truthy, else null. */
  function UserId(jwt: Decoder, t: Option<string>): (r: Option<int>)
    ensures r.Some? ==> r.value != 0
    ensures r.Some? ==> DecodeJwt(jwt, t).Some? && DecodeJwt(jwt, t).value.id == r
    ensures Truthy(t) && jwt(t.value).Decoded? && NumberTruthy(jwt(t.value).claims.id) ==> r == jwt(t.value).claims.id
  {
    var d := DecodeJwt(jwt, t);
    if d.Some? && NumberTruthy(d.value.id) then d.value.id else None
  }

  /** `roleFromToken`: the `role` claim when truthy, else null. */
  function RoleFromToken(jwt: Decoder, t: Option<string>): (r: Option<string>)
    ensures r.Some? ==> r.value != ""
    ensures r.Some? ==> DecodeJwt(jwt, t).Some? && DecodeJwt(jwt, t).value.role == r
    ensures Truthy(t) && jwt(t.value).Decoded? && Truthy(jwt(t.value).claims.role) ==> r == jwt(t.value).claims.role
  {
    var d := DecodeJwt(jwt, t);
    if d.Some? && Truthy(d.value.role) then d.value.role else None
  }

  /** `userRole || roleFromToken`: the cached role wins when it is non-empty. */
  function EffectiveRole(jwt: Decoder, userRole: Option<string>, t: Option<string>): (r: Option<string>)
    ensures Truthy(userRole) ==> r == userRole
    ensures !Truthy(userRole) ==> r == RoleFromToken(jwt, t)
    ensures r.Some? ==> r.value != ""
    ensures r.None? <==> !Truthy(userRole) && (DecodeJwt(jwt, t).None? || !Truthy(DecodeJwt(jwt, t).value.role))
  {
    if Truthy(userRole) then userRole else RoleFromToken(jwt, t)
  }

  predicate IsOrganizer(jwt: Decoder, userRole: Option<string>, t: Option<string>)
  {
    EffectiveRole(jwt, userRole, t) == Some(Organizer)
  }

  predicate IsPlayer(jwt: Decoder, userRole: Option<string>, t: Option<string>)
  {
    EffectiveRole(jwt, userRole, t) == Some(Player)
  }

  /** Both flags test the one effective role, so they never hold together. */
  lemma OrganizerAndPlayerExclusive(jwt: Decoder, userRole: Option<string>, t: Option<string>)
    ensures !(IsOrganizer(jwt, userRole, t) && IsPlayer(jwt, userRole, t))
  {
  }

  // ---------------------------------------------------------------------------
  // Notification counts: the lengths of two filters of the fetched list

  predicate IsUnreadInvitation(n: Notification)
  {
    n.kind == TeamInvitation && !n.isRead
  }

  /** The number of notifications not yet read. */
  function CountUnread(ns: seq<Notification>): (c: nat)
    ensures c <= |ns|
  {
    if ns == [] then 0 else (if ns[0].isRead then 0 else 1) + CountUnread(ns[1..])
  }

  /** The number of unread notifications of the team-invitation type; every
      unread invitation is an unread notification. */
  function CountUnreadInvitations(ns: seq<Notification>): (c: nat)
    ensures c <= CountUnread(ns)
  {
    if ns == [] then 0 else (if IsUnreadInvitation(ns[0]) then 1 else 0) + CountUnreadInvitations(ns[1..])
  }

  /** Counting distributes over concatenation (with the single-element values,
      this pins both counts down as filter lengths). */
  lemma {:induction false} CountsAppend(a: seq<Notification>, b: seq<Notification>)
    ensures CountUnread(a + b) == CountUnread(a) + CountUnread(b)
    ensures CountUnreadInvitations(a + b) == CountUnreadInvitations(a) + CountUnreadInvitations(b)
    decreases |a|
  {
    if a == [] {
      assert a + b == b;
    } else {
      assert (a + b)[0] == a[0] && (a + b)[1..] == a[1..] + b;
      CountsAppend(a[1..], b);
    }
  }

  /** No unread notification exactly when the unread count is zero. */
  lemma {:induction false} CountUnreadZero(ns: seq<Notification>)
    ensures CountUnread(ns) == 0 <==> forall i :: 0 <= i < |ns| ==> ns[i].isRead
    decreases |ns|
  {
    if ns != [] {
      CountUnreadZero(ns[1..]);
      assert forall i :: 1 <= i < |ns| ==> ns[i] == ns[1..][i - 1];
    }
  }

  // ---------------------------------------------------------------------------
  // The session as a value, and its transitions

  datatype SessionState = SessionState(
    token: Option<string>,
    userRole: Option<string>,
    notifications: seq<Notification>,
    totalUnread: int,
    unreadInvitations: int,
    storage: map<string, string>)

  /** The invariant every transition keeps: the counters are the counts of the
      list, the stored token mirrors the in-memory one, and a non-null role is
      the stored one. */
  predicate Consistent(s: SessionState)
  {
    && s.totalUnread == CountUnread(s.notifications)
    && s.unreadInvitations == CountUnreadInvitations(s.notifications)
    && GetItem(s.storage, TokenKey) == s.token
    && (s.userRole.Some? ==> GetItem(s.storage, RoleKey) == s.userRole)
  }

  /** In a consistent session: invitations <= unread <= notifications. */
  lemma ConsistentCountsBounded(s: SessionState)
    requires Consistent(s)
    ensures 0 <= s.unreadInvitations <= s.totalUnread <= |s.notifications|
  {
  }

  /** The refs as the store's setup reads them from storage (auth.js:23-24, 34-36). */
  function Loaded(storage: map<string, string>): (s: SessionState)
    ensures Consistent(s) && s.storage == storage
  {
    SessionState(GetItem(storage, TokenKey), GetItem(storage, RoleKey), [], 0, 0, storage)
  }

  /** `hardResetLocal`: every field emptied, both session keys removed. */
  function Cleared(s: SessionState): SessionState
  {
    SessionState(None, None, [], 0, 0, WithoutSession(s.storage))
  }

  /** After a reset nobody is logged in and nothing of the session is stored;
      other storage keys are untouched, and a second reset changes nothing. */
  lemma ClearedProperties(jwt: Decoder, s: SessionState, nowMs: int)
    ensures var c := Cleared(s);
      && Consistent(c)
      && !LoggedIn(jwt, c.token, nowMs)
      && TokenKey !in c.storage && RoleKey !in c.storage
      && (forall k :: k != TokenKey && k != RoleKey && k in s.storage ==> k in c.storage && c.storage[k] == s.storage[k])
      && c.notifications == [] && c.totalUnread == 0 && c.unreadInvitations == 0
      && Cleared(c) == c
  {
    WithoutSessionIdempotent(s.storage);
  }

  /** The role `setAuthData` keeps: `newRole || roleFromToken || null`, where
      `roleFromToken` is already computed from the new token. */
  function ResolvedRole(jwt: Decoder, newToken: string, newRole: Option<string>): (r: Option<string>)
    ensures r.Some? ==> r.value != ""
    ensures Truthy(newRole) ==> r == newRole
    ensures !Truthy(newRole) ==> r == RoleFromToken(jwt, Some(newToken))
  {
    if Truthy(newRole) then newRole else RoleFromToken(jwt, Some(newToken))
  }

  /** The synchronous part of `setAuthData`. */
  function WithAuthData(jwt: Decoder, s: SessionState, newToken: string, newRole: Option<string>): SessionState
  {
    var role := ResolvedRole(jwt, newToken, newRole);
    var stored := s.storage[TokenKey := newToken];
    s.(token := Some(newToken),
       userRole := role,
       storage := if Truthy(role) then stored[RoleKey := role.value] else stored)
  }

  /** After `setAuthData(t, r)`, the role that `isOrganizer` and `isPlayer` read
      is the role that was resolved and kept. */
  lemma RoleReadBack(jwt: Decoder, s: SessionState, t: string, role: Option<string>)
    ensures var a := WithAuthData(jwt, s, t, role);
      && EffectiveRole(jwt, a.userRole, a.token) == ResolvedRole(jwt, t, role)
      && (IsOrganizer(jwt, a.userRole, a.token) <==> ResolvedRole(jwt, t, role) == Some(Organizer))
      && (IsPlayer(jwt, a.userRole, a.token) <==> ResolvedRole(jwt, t, role) == Some(Player))
  {
  }

  /** `fetchAllNotifications` with the endpoint's answer `response` (None when
      the request fails): nothing happens unless logged in; a failure leaves
      the digest as it was; a success replaces the list and recounts. */
  function WithNotifications(jwt: Decoder, s: SessionState, nowMs: int, response: Option<seq<Notification>>): SessionState
  {
    if !LoggedIn(jwt, s.token, nowMs) || response.None? then s
    else
      var data := response.value;
      s.(notifications := data,
         totalUnread := CountUnread(data),
         unreadInvitations := CountUnreadInvitations(data))
  }

  /** The fetch only ever touches the digest, and what it installs is counted right. */
  lemma NotificationsProperties(jwt: Decoder, s: SessionState, nowMs: int, response: Option<seq<Notification>>)
    ensures var r := WithNotifications(jwt, s, nowMs, response);
      && r.token == s.token && r.userRole == s.userRole && r.storage == s.storage
      && (!LoggedIn(jwt, s.token, nowMs) || response.None? ==> r == s)
      && (LoggedIn(jwt, s.token, nowMs) && response.Some? ==>
            && r.notifications == response.value
            && r.totalUnread == CountUnread(response.value)
            && r.unreadInvitations == CountUnreadInvitations(response.value)
            && 0 <= r.unreadInvitations <= r.totalUnread <= |r.notifications|)
      && (Consistent(s) ==> Consistent(r))
  {
  }

  /** What `setAuthData(t, r)` leaves behind, whatever the refresh it starts returns:
      the token is `t` and is stored; the role is `r` when non-empty, else the
      token's role claim, else null; the stored role is written only when that
      role is non-null, otherwise the old stored value survives; no other key changes. */
  lemma SetAuthDataProperties(jwt: Decoder, s: SessionState, t: string, role: Option<string>,
                              nowMs: int, response: Option<seq<Notification>>)
    ensures var r := WithNotifications(jwt, WithAuthData(jwt, s, t, role), nowMs, response);
      && r.token == Some(t)
      && GetItem(r.storage, TokenKey) == Some(t)
      && (Truthy(role) ==> r.userRole == role)
      && (!Truthy(role) ==> r.userRole == RoleFromToken(jwt, Some(t)))
      && (r.userRole.Some? ==> GetItem(r.storage, RoleKey) == r.userRole)
      && (r.userRole.None? ==> GetItem(r.storage, RoleKey) == GetItem(s.storage, RoleKey))
      && (forall k :: k != TokenKey && k != RoleKey ==> GetItem(r.storage, k) == GetItem(s.storage, k))
      && (Consistent(s) ==> Consistent(r))
  {
    var a := WithAuthData(jwt, s, t, role);
    NotificationsProperties(jwt, a, nowMs, response);
  }

  /** Start-up hydration (auth.js:98-102): an expired stored token is reset
      locally; a live one is kept and the digest refreshed; an empty one
      stays as loaded. */
  function Hydrated(jwt: Decoder, storage: map<string, string>, nowMs: int, response: Option<seq<Notification>>): SessionState
  {
    var s := Loaded(storage);
    if Truthy(s.token) && IsExpired(jwt, s.token, nowMs) then Cleared(s)
    else if Truthy(s.token) then WithNotifications(jwt, s, nowMs, response)
    else s
  }

  /** Hydration in plain terms: an expired stored token ends logged out with
      the session keys gone; otherwise the stored token and role are kept. */
  lemma HydratedProperties(jwt: Decoder, storage: map<string, string>, nowMs: int, response: Option<seq<Notification>>)
    ensures var h := Hydrated(jwt, storage, nowMs, response);
      var stored := GetItem(storage, TokenKey);
      && Consistent(h)
      && (Truthy(stored) && IsExpired(jwt, stored, nowMs) ==>
            h.token == None && h.userRole == None
            && TokenKey !in h.storage && RoleKey !in h.storage)
      && (!(Truthy(stored) && IsExpired(jwt, stored, nowMs)) ==>
            h.token == stored && h.userRole == GetItem(storage, RoleKey) && h.storage == storage)
      && (Truthy(stored) && !IsExpired(jwt, stored, nowMs) ==> LoggedIn(jwt, h.token, nowMs))
      && !(Truthy(h.token) && IsExpired(jwt, h.token, nowMs))
  {
    var s := Loaded(storage);
    ClearedProperties(jwt, s, nowMs);
    NotificationsProperties(jwt, s, nowMs, response);
  }

  /** Where `login` navigates after success: the `redirect` query value when it
      is non-empty, and the home page otherwise. */
  function LoginTarget(redirect: Option<string>): (target: string)
    ensures target != ""
    ensures Truthy(redirect) ==> target == redirect.value
    ensures !Truthy(redirect) ==> target == "/"
  {
    if Truthy(redirect) then redirect.value else "/"
  }

  /** The reply of `POST /auth/login`. */
  datatype LoginReply = LoginReply(jwtToken: string, role: Option<string>)

  /** A transport call either delivers its value or fails with an error. */
  datatype Transport<T> = Delivered(value: T) | TransportError(message: string)

  /** `login`'s outcome: the route it navigates to, or the transport error it rethrows. */
  datatype LoginOutcome = Navigated(target: string) | Failed(message: string)

  // ---------------------------------------------------------------------------
  // The store object

  class Session {
    /** The token decoder (`jwtDecode`). */
    const jwt: Decoder
    /** The `localStorage` this store mirrors itself into. */
    const store: TokenStore

    var token: Option<string>
    var userRole: Option<string>
    var allNotifications: seq<Notification>
    var totalUnreadCount: int
    var unreadInvitationCount: int

    function State(): SessionState
      reads this, store
    {
      SessionState(token, userRole, allNotifications, totalUnreadCount, unreadInvitationCount, store.entries)
    }

    ghost predicate Valid()
      reads this, store
    {
      Consistent(State())
    }

    function IsLoggedIn(nowMs: int): bool
      reads this
    {
      LoggedIn(jwt, token, nowMs)
    }

    function CurrentUserId(): Option<int>
      reads this
    {
      UserId(jwt, token)
    }

    function CurrentIsOrganizer(): bool
      reads this
    {
      IsOrganizer(jwt, userRole, token)
    }

    function CurrentIsPlayer(): bool
      reads this
    {
      IsPlayer(jwt, userRole, token)
    }

    /** The store's setup: load token and role from storage, then hydrate.
        `response` is what the notification refresh it may start receives. */
    constructor (jwt: Decoder, store: TokenStore, nowMs: int, response: Option<seq<Notification>>)
      modifies store
      ensures this.jwt == jwt && this.store == store
      ensures Valid()
      ensures State() == Hydrated(jwt, old(store.entries), nowMs, response)
    {
      this.jwt := jwt;
      this.store := store;
      token := store.Get(TokenKey);
      userRole := store.Get(RoleKey);
      allNotifications := [];
      totalUnreadCount := 0;
      unreadInvitationCount := 0;
      new;
      if Truthy(token) && IsExpired(jwt, token, nowMs) {
        HardResetLocal();
      } else if Truthy(token) {
        FetchAllNotifications(nowMs, response);
      }
    }

    method FetchAllNotifications(nowMs: int, response: Option<seq<Notification>>)
      requires Valid()
      modifies this
      ensures Valid()
      ensures State() == WithNotifications(jwt, old(State()), nowMs, response)
    {
      if !IsLoggedIn(nowMs) {
        return;
      }
      match response
      case None =>
      case Some(data) =>
        allNotifications := data;
        totalUnreadCount := CountUnread(data);
        unreadInvitationCount := CountUnreadInvitations(data);
    }

    /** `setAuthData(newToken, newRole)`; the refresh it starts receives `response`. */
    method SetAuthData(newToken: string, newRole: Option<string>, nowMs: int, response: Option<seq<Notification>>)
      requires Valid()
      modifies this, store
      ensures Valid()
      ensures State() == WithNotifications(jwt, WithAuthData(jwt, old(State()), newToken, newRole), nowMs, response)
    {
      token := Some(newToken);
      userRole := ResolvedRole(jwt, newToken, newRole);
      store.SetItem(TokenKey, newToken);
      if Truthy(userRole) {
        store.SetItem(RoleKey, userRole.value);
      }
      SetAuthDataProperties(jwt, old(State()), newToken, newRole, nowMs, None);
      FetchAllNotifications(nowMs, response);
    }

    method HardResetLocal()
      requires Valid()
      modifies this, store
      ensures Valid()
      ensures State() == Cleared(old(State()))
    {
      token := None;
      userRole := None;
      unreadInvitationCount := 0;
      allNotifications := [];
      totalUnreadCount := 0;
      store.RemoveItem(TokenKey);
      store.RemoveItem(RoleKey);
    }

    /** `logout`: the local reset; the navigation to the login page that follows is not modelled. */
    method Logout()
      requires Valid()
      modifies this, store
      ensures Valid()
      ensures State() == Cleared(old(State()))
    {
      HardResetLocal();
    }

    /** `login`: on a transport error the error is rethrown and nothing changes;
        on success the session is established and the pending `redirect`
        query value (or `/`) is where the user is sent. */
    method Login(reply: Transport<LoginReply>, redirect: Option<string>, nowMs: int, response: Option<seq<Notification>>)
      returns (outcome: LoginOutcome)
      requires Valid()
      modifies this, store
      ensures Valid()
      ensures reply.TransportError? ==> outcome == Failed(reply.message) && State() == old(State())
      ensures reply.Delivered? ==>
        && outcome == Navigated(LoginTarget(redirect))
        && State() == WithNotifications(jwt, WithAuthData(jwt, old(State()), reply.value.jwtToken, reply.value.role), nowMs, response)
    {
      match reply
      case TransportError(message) =>
        outcome := Failed(message);
      case Delivered(r) =>
        SetAuthData(r.jwtToken, r.role, nowMs, response);
        outcome := Navigated(LoginTarget(redirect));
    }
  }
}
