/** The route table and the navigation guard (src/router/index.js).

    The guard runs before every navigation. It reads the stored token and role,
    and it either lets the navigation proceed or redirects it. It checks whether
    a token is present, but it does not check whether that token has expired. */
module Router {
  import opened Js
  import opened Storage
  import Auth

  /** A route's `meta`: `requiresAuth` (missing is false) and `roles`, where
      None stands for a missing field or one that is not an array. */
  datatype RouteMeta = RouteMeta(requiresAuth: bool, roles: Option<seq<string>>)

  datatype RouteRecord = RouteRecord(path: string, name: string, meta: RouteMeta)

  /** The resolved destination `to`: its path, its full path (with query and
      hash) and the meta of the route it matched. */
  datatype Destination = Destination(path: string, fullPath: string, meta: RouteMeta)

  /** What the guard returns: `true`, or a redirect to `path` with an optional
      `redirect` query parameter. */
  datatype Decision = Proceed | Redirect(path: string, redirectQuery: Option<string>)

  const LoginPath: string := "/login"
  const RegisterPath: string := "/register"
  const HomePath: string := "/"

  const Public: RouteMeta := RouteMeta(false, None)
  const Protected: RouteMeta := RouteMeta(true, None)
  const OrganizerOnly: RouteMeta := RouteMeta(true, Some([Auth.Organizer]))
  const PlayerOnly: RouteMeta := RouteMeta(true, Some([Auth.Player]))

  /** The application's routes, in declaration order. */
  const Routes: seq<RouteRecord> := [
    RouteRecord("/", "Home", Protected),
    RouteRecord("/login", "Login", Public),
    RouteRecord("/register", "Register", Public),
    RouteRecord("/tournaments", "Tournaments", Protected),
    RouteRecord("/tournaments/create", "CreateTournament", OrganizerOnly),
    RouteRecord("/tournaments/:id", "TournamentDetail", Protected),
    RouteRecord("/tournaments/:id/matches", "TournamentMatches", Protected),
    RouteRecord("/tournaments/:id/edit", "EditTournament", OrganizerOnly),
    RouteRecord("/matches", "Matches", Protected),
    RouteRecord("/matches/:id", "MatchDetail", Protected),
    RouteRecord("/teams", "Teams", Protected),
    RouteRecord("/teams/create", "CreateTeam", PlayerOnly),
    RouteRecord("/teams/:id", "TeamDetail", Protected),
    RouteRecord("/profile", "UserProfile", Protected),
    RouteRecord("/invitations", "MyInvitations", PlayerOnly),
    RouteRecord("/:pathMatch(.*)*", "NotFound", Public)
  ]

  /** The route lists the roles allowed on it, and the list is not empty. */
  predicate RestrictsRoles(meta: RouteMeta)
  {
    meta.roles.Some? && |meta.roles.value| > 0
  }

  predicate IsAuthPage(path: string)
  {
    path == LoginPath || path == RegisterPath
  }

  /** The `beforeEach` guard; `storage` is what `localStorage` holds at the time.
      The guard has only three possible answers: proceed, the login page (which
      carries the full path of the destination), or the home page. */
  function BeforeEach(to: Destination, storage: map<string, string>): (d: Decision)
    ensures d.Redirect? ==> d == Redirect(LoginPath, Some(to.fullPath)) || d == Redirect(HomePath, None)
    ensures d == Redirect(LoginPath, Some(to.fullPath)) ==> to.meta.requiresAuth
    ensures d == Redirect(HomePath, None) ==> IsAuthPage(to.path) || RestrictsRoles(to.meta)
  {
    var token := GetItem(storage, TokenKey);
    var role := GetItem(storage, RoleKey);
    if to.meta.requiresAuth && !Truthy(token) then
      Redirect(LoginPath, Some(to.fullPath))
    else if IsAuthPage(to.path) && Truthy(token) then
      Redirect(HomePath, None)
    else if RestrictsRoles(to.meta) && (!Truthy(role) || role.value !in to.meta.roles.value) then
      Redirect(HomePath, None)
    else
      Proceed
  }

  /** No token and a protected destination: the login page, remembering where
      the user was going. This wins over the role check, so an anonymous user
      going to a role-restricted route also ends up here. */
  lemma AnonymousToProtectedGoesToLogin(to: Destination, storage: map<string, string>)
    requires to.meta.requiresAuth && !Truthy(GetItem(storage, TokenKey))
    ensures BeforeEach(to, storage) == Redirect(LoginPath, Some(to.fullPath))
  {
  }

  /** With a token, the login and registration pages send the user home. */
  lemma SignedInAuthPageGoesHome(to: Destination, storage: map<string, string>)
    requires IsAuthPage(to.path) && Truthy(GetItem(storage, TokenKey))
    ensures BeforeEach(to, storage) == Redirect(HomePath, None)
  {
  }

  /** Once the first two checks pass, a non-empty role list turns away a
      missing role or one not in the list, and only those. */
  lemma RoleCheck(to: Destination, storage: map<string, string>)
    requires !(to.meta.requiresAuth && !Truthy(GetItem(storage, TokenKey)))
    requires !(IsAuthPage(to.path) && Truthy(GetItem(storage, TokenKey)))
    requires RestrictsRoles(to.meta)
    ensures var role := GetItem(storage, RoleKey);
      BeforeEach(to, storage) == Redirect(HomePath, None) <==> (!Truthy(role) || role.value !in to.meta.roles.value)
    ensures var role := GetItem(storage, RoleKey);
      BeforeEach(to, storage) == Proceed <==> (Truthy(role) && role.value in to.meta.roles.value)
  {
  }

  /** A missing or empty role list imposes no role restriction: the decision
      is the same whatever role is stored. */
  lemma NoRolesNoRestriction(to: Destination, s1: map<string, string>, s2: map<string, string>)
    requires !RestrictsRoles(to.meta)
    requires GetItem(s1, TokenKey) == GetItem(s2, TokenKey)
    ensures BeforeEach(to, s1) == BeforeEach(to, s2)
    ensures BeforeEach(to, s1) != Proceed ==> to.meta.requiresAuth || IsAuthPage(to.path)
  {
  }

  /** The guard proceeds exactly when none of its three rules fires. */
  lemma ProceedIffNoRuleFires(to: Destination, storage: map<string, string>)
    ensures var token := GetItem(storage, TokenKey);
      var role := GetItem(storage, RoleKey);
      BeforeEach(to, storage) == Proceed <==>
        (!to.meta.requiresAuth || Truthy(token))
        && !(IsAuthPage(to.path) && Truthy(token))
        && (!RestrictsRoles(to.meta) || (Truthy(role) && role.value in to.meta.roles.value))
  {
  }

  /** The decision depends on the token only through whether it is non-empty:
      its contents, and so its expiry, never matter. */
  lemma OnlyTokenPresenceMatters(to: Destination, s1: map<string, string>, s2: map<string, string>)
    requires Truthy(GetItem(s1, TokenKey)) == Truthy(GetItem(s2, TokenKey))
    requires GetItem(s1, RoleKey) == GetItem(s2, RoleKey)
    ensures BeforeEach(to, s1) == BeforeEach(to, s2)
  {
  }

  /** A session whose stored token has expired still passes the guard into a
      protected route that has no role list. */
  lemma ExpiredTokenStillProceeds(jwt: Auth.Decoder, s: Auth.SessionState, nowMs: int, to: Destination)
    requires Auth.Consistent(s)
    requires Truthy(s.token) && Auth.IsExpired(jwt, s.token, nowMs)
    requires to.meta == Protected && !IsAuthPage(to.path)
    ensures !Auth.LoggedIn(jwt, s.token, nowMs)
    ensures BeforeEach(to, s.storage) == Proceed
  {
  }

  /** After a local reset every protected destination leads to the login page. */
  lemma AfterResetProtectedGoesToLogin(s: Auth.SessionState, to: Destination)
    requires to.meta.requiresAuth
    ensures BeforeEach(to, Auth.Cleared(s).storage) == Redirect(LoginPath, Some(to.fullPath))
  {
  }

  /** The destination of a navigation to the route `r` at `fullPath`. */
  function RoutedTo(r: RouteRecord, path: string, fullPath: string): Destination
  {
    Destination(path, fullPath, r.meta)
  }

  /** Every route without `requiresAuth` (login, register, not-found) lets an
      anonymous user through, wherever the navigation is going. */
  lemma AnonymousPublicRoutesProceed(i: nat, path: string, fullPath: string, storage: map<string, string>)
    requires i < |Routes| && !Routes[i].meta.requiresAuth
    requires !Truthy(GetItem(storage, TokenKey))
    ensures BeforeEach(RoutedTo(Routes[i], path, fullPath), storage) == Proceed
  {
    assert Routes[i].meta == Public;
  }

  /** The role-restricted routes are the two organizer pages and the two player pages. */
  lemma RestrictedRoutes(i: nat)
    requires i < |Routes| && RestrictsRoles(Routes[i].meta)
    ensures Routes[i].meta.requiresAuth
    ensures Routes[i].meta == OrganizerOnly <==> Routes[i].name in {"CreateTournament", "EditTournament"}
    ensures Routes[i].meta == PlayerOnly <==> Routes[i].name in {"CreateTeam", "MyInvitations"}
  {
  }

  /** A signed-in player trying to create a tournament is sent home. */
  lemma PlayerCannotCreateTournament(storage: map<string, string>)
    requires Truthy(GetItem(storage, TokenKey))
    requires GetItem(storage, RoleKey) == Some(Auth.Player)
    ensures Routes[4].name == "CreateTournament"
    ensures BeforeEach(RoutedTo(Routes[4], Routes[4].path, Routes[4].path), storage) == Redirect(HomePath, None)
  {
  }

  /** A signed-in organizer cannot open the team-creation page either. */
  lemma OrganizerCannotCreateTeam(storage: map<string, string>)
    requires Truthy(GetItem(storage, TokenKey))
    requires GetItem(storage, RoleKey) == Some(Auth.Organizer)
    ensures Routes[11].name == "CreateTeam"
    ensures BeforeEach(RoutedTo(Routes[11], Routes[11].path, Routes[11].path), storage) == Redirect(HomePath, None)
  {
  }

  /** An anonymous user going to the tournament list is sent to log in, with the redirect kept. */
  lemma AnonymousTournamentsScenario()
    ensures BeforeEach(RoutedTo(Routes[3], "/tournaments", "/tournaments"), map[]) == Redirect(LoginPath, Some("/tournaments"))
  {
  }
}
