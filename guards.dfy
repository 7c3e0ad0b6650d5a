/** src/app/guards/auth.guard.ts and src/app/guards/unauth-guard.guard.ts: the two route
    guards. Each fetches the signed-in user and decides whether the route may be entered; when
    it may not, it also navigates elsewhere. */
module Guards {
  import opened Wrappers

  /** A URL as its path segments: '/home/viewComponents' is ["home", "viewComponents"] and
      '/' is []. */
  type Url = seq<string>

  const LoginUrl: Url := ["login"]
  const HomeUrl: Url := ["home"]
  const AdminLanding: Url := ["home", "electronicComponent"]
  const UserLanding: Url := ["home", "viewComponents"]

  /** The user `getUserDetails` returns, reduced to its role (absent when the object has no
      `role`). */
  datatype SessionUser = SessionUser(role: Option<string>)

  /** What the user fetch yields: a user, a `null` body, or a failed request. */
  type UserFetch = Result<Option<SessionUser>>

  /** A guard's answer: whether the route is entered, and where it navigated instead. */
  datatype Decision = Decision(allow: bool, navigation: Option<Url>)

  /** The route's `data.role` asks for a role: a non-empty string. */
  predicate RoleRequired(requiredRole: Option<string>)
  {
    requiredRole.Some? && requiredRole.value != ""
  }

  /** `AuthGuard.canActivate`: no user or a failed fetch goes to the login page; a user
      whose role differs from a required role goes to '/home'; everyone else enters. */
  function AuthDecision(fetch: UserFetch, requiredRole: Option<string>): (d: Decision)
    ensures d.allow <==> d.navigation.None?
    ensures d.allow <==> fetch.Ok? && fetch.value.Some? && (!RoleRequired(requiredRole) || fetch.value.value.role == requiredRole)
    ensures fetch.Err? || fetch.value.None? ==> d.navigation == Some(LoginUrl)
    ensures fetch.Ok? && fetch.value.Some? && !d.allow ==> d.navigation == Some(HomeUrl)
  {
    if fetch.Err? then Decision(false, Some(LoginUrl))
    else if fetch.value.None? then Decision(false, Some(LoginUrl))
    else if RoleRequired(requiredRole) && fetch.value.value.role != requiredRole then Decision(false, Some(HomeUrl))
    else Decision(true, None)
  }

  /** Where `UnauthGuard` sends a signed-in user: the admin and user landing pages, or
      '/home' for any other role. */
  function RoleLanding(role: Option<string>): (u: Url)
    ensures role == Some("admin") ==> u == AdminLanding
    ensures role == Some("user") ==> u == UserLanding
    ensures role != Some("admin") && role != Some("user") ==> u == HomeUrl
  {
    if role == Some("admin") then AdminLanding
    else if role == Some("user") then UserLanding
    else HomeUrl
  }

  /** `UnauthGuard.canActivate`: a signed-in user is sent to their landing page and kept
      out; no user, or a failed fetch, lets the visitor in. */
  function UnauthDecision(fetch: UserFetch): (d: Decision)
    ensures d.allow <==> d.navigation.None?
    ensures d.allow <==> fetch.Err? || fetch.value.None?
    ensures !d.allow ==> d.navigation == Some(RoleLanding(fetch.value.value.role))
  {
    if fetch.Ok? && fetch.value.Some? then Decision(false, Some(RoleLanding(fetch.value.value.role)))
    else Decision(true, None)
  }

  /** The two guards split every fetch outcome between them: a route guarded by `AuthGuard`
      without a role is open exactly when a route guarded by `UnauthGuard` is closed. */
  lemma GuardsComplementary(fetch: UserFetch)
    ensures AuthDecision(fetch, None).allow <==> !UnauthDecision(fetch).allow
  {
  }

  /** A required role only narrows `AuthGuard`: whoever enters a role-guarded route also
      enters the same route without a role. */
  lemma RoleNarrows(fetch: UserFetch, requiredRole: Option<string>)
    ensures AuthDecision(fetch, requiredRole).allow ==> AuthDecision(fetch, None).allow
  {
  }
}
