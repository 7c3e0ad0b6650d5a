/** src/app/components/selection-module/selection-module.component.ts: the module chooser.
    Choosing the inventory fetches the signed-in user and navigates by role. */
module SelectionModule {
  import opened Wrappers
  import opened Guards
  import opened AppRoutes

  /** `navigateToInventory`: the admin goes to the component list, any other role (or none) to
      the catalogue, and a failed fetch to the login page. A `null` user makes reading its
      role throw, so nothing is navigated. */
  function NavigateToInventory(fetch: UserFetch): (target: Option<Url>)
    ensures fetch.Err? ==> target == Some(LoginUrl)
    ensures fetch.Ok? && fetch.value.None? ==> target.None?
    ensures fetch.Ok? && fetch.value.Some? && fetch.value.value.role == Some("admin") ==>
      target == Some(AdminLanding)
    ensures fetch.Ok? && fetch.value.Some? && fetch.value.value.role != Some("admin") ==>
      target == Some(UserLanding)
  {
    match fetch
    case Err(_) => Some(LoginUrl)
    case Ok(None) => None
    case Ok(Some(user)) => if user.role == Some("admin") then Some(AdminLanding) else Some(UserLanding)
  }

  /** The chooser agrees with `UnauthGuard` on the two known roles, and differs for any other
      role: it still sends that user to the catalogue, where `AuthGuard` asks for 'user'. */
  lemma SelectionMatchesLanding(user: SessionUser)
    ensures user.role == Some("admin") || user.role == Some("user") ==>
      NavigateToInventory(Ok(Some(user))) == Some(RoleLanding(user.role))
    ensures user.role != Some("admin") && user.role != Some("user") ==>
      NavigateToInventory(Ok(Some(user))) != Some(RoleLanding(user.role))
  {
  }

  /** Where the chooser sends a user is a page that lets that user in exactly when the fetch
      failed or the role is 'admin' or 'user'; a user of any other role is turned away by
      `AuthGuard` and sent on to '/home'. */
  lemma SelectionTargetAdmits(fetch: UserFetch)
    ensures NavigateToInventory(fetch).Some? ==>
      (Admits(NavigateToInventory(fetch).value, fetch) <==>
        fetch.Err? || fetch.value.value.role in {Some("admin"), Some("user")})
  {
    match fetch
    case Err(_) =>
      UnknownUrl(LoginUrl);
      assert Decide(GuestOnly[0], fetch).allow;
    case Ok(None) =>
    case Ok(Some(user)) =>
      if user.role == Some("admin") {
        AdminPagesGuarded();
        assert Decide(AdminOnly[0], fetch).allow;
      } else {
        UserPagesGuarded("1");
        assert Decide(UserOnly[0], fetch).allow <==> user.role == Some("user");
      }
  }
}
