/** src/app/app.routes.ts: the route table, with the matching the router does on it (segment
    by segment, parent before children, the first route that fits wins, redirects relative to
    the parent), and which guards stand on the way to each page. */
module AppRoutes {
  import opened Wrappers
  import opened Guards

  datatype GuardKind = UseAuthGuard | UseUnauthGuard

  /** One entry of `routes`: its path as segments (':id' is a parameter, ["**"] the
      wildcard), its `canActivate` guards, its `data.role`, its `redirectTo` (relative to the
      parent's URL), whether `pathMatch` is 'full', and its children. */
  datatype Route = Route(
    path: seq<string>, canActivate: seq<GuardKind>, role: Option<string>,
    redirectTo: Option<Url>, fullMatch: bool, children: seq<Route>)

  /** A page loaded under `canActivate: [AuthGuard]` and `data: { role }`. */
  function AuthPage(path: seq<string>, role: Option<string>): Route
  {
    Route(path, [UseAuthGuard], role, None, false, [])
  }

  /** A page loaded under `canActivate: [UnauthGuard]`. */
  function GuestPage(path: seq<string>, fullMatch: bool): Route
  {
    Route(path, [UseUnauthGuard], None, None, fullMatch, [])
  }

  const ComponentMovementRoute := AuthPage(["componentMovement"], Some("admin"))
  const ElectronicComponentRoute := AuthPage(["electronicComponent"], Some("admin"))
  const AcademicPeriodsRoute := AuthPage(["academicPeriods"], Some("admin"))
  const RequestRoute := AuthPage(["request"], Some("admin"))
  const LoansRoute := AuthPage(["loans"], Some("admin"))
  const ViewComponentsRoute := AuthPage(["viewComponents"], Some("user"))
  const LoansSummaryRoute := AuthPage(["loansSummary"], Some("user"))
  const RequestViewRoute := AuthPage(["requestView"], Some("user"))
  const RequestDetailsRoute := AuthPage(["requestDetails", ":id"], Some("user"))
  const UserProfileRoute := AuthPage(["userProfile"], None)
  const NotFoundRoute := AuthPage(["404"], None)
  /** The empty child of 'home' redirects to its '404' sibling. */
  const HomeDefaultRoute := Route([], [], None, Some(["404"]), true, [])

  const HomeChildren: seq<Route> := [
    ComponentMovementRoute, ElectronicComponentRoute, AcademicPeriodsRoute, RequestRoute, LoansRoute,
    ViewComponentsRoute, LoansSummaryRoute, RequestViewRoute, RequestDetailsRoute,
    UserProfileRoute, NotFoundRoute, HomeDefaultRoute
  ]

  const LoginRoute := GuestPage([], true)
  const RegisterRoute := GuestPage(["register"], false)
  const ModuleSelectionRoute := AuthPage(["moduleSelection"], None)
  const ForgotPasswordRoute := GuestPage(["forgot-password"], false)
  const HomeRoute := Route(["home"], [], None, None, false, HomeChildren)
  /** Any other URL redirects to ''. */
  const WildcardRoute := Route(["**"], [], None, Some([]), false, [])

  /** `routes`. */
  const Routes: seq<Route> :=
    [LoginRoute, RegisterRoute, ModuleSelectionRoute, ForgotPasswordRoute, HomeRoute, WildcardRoute]

  /** A path segment of a route fits a URL segment: a parameter fits any non-empty segment,
      anything else only itself. */
  predicate SegmentMatches(pattern: string, segment: string)
  {
    if |pattern| > 0 && pattern[0] == ':' then segment != "" else pattern == segment
  }

  /** A route's path fits the start of the URL. */
  predicate PathMatches(path: seq<string>, url: Url)
  {
    |path| <= |url| && forall i :: 0 <= i < |path| ==> SegmentMatches(path[i], url[i])
  }

  /** The routes entered from the top (parent first), a redirect to follow, or no match. */
  datatype Match = Matched(chain: seq<Route>) | Redirected(target: Url) | NoMatch

  /** The first of `routes` that matches `url`, below the parent URL `parent`. */
  function MatchRoutes(routes: seq<Route>, parent: Url, url: Url): Match
    decreases routes
  {
    if routes == [] then NoMatch
    else
      var m := MatchRoute(routes[0], parent, url);
      if m.NoMatch? then MatchRoutes(routes[1..], parent, url) else m
  }

  /** One route against `url`: the wildcard takes anything; otherwise the path must fit, a
      'full' route must take the whole URL, a redirect replaces the matched part, a route with
      children hands the rest to them, and a route without must end the URL. */
  function MatchRoute(r: Route, parent: Url, url: Url): Match
    decreases r
  {
    if r.path == ["**"] then
      (if r.redirectTo.Some? then Redirected(parent + r.redirectTo.value) else Matched([r]))
    else if !PathMatches(r.path, url) then NoMatch
    else
      var rest := url[|r.path|..];
      if r.fullMatch && rest != [] then NoMatch
      else if r.redirectTo.Some? then Redirected(parent + r.redirectTo.value + rest)
      else if r.children == [] then (if rest == [] then Matched([r]) else NoMatch)
      else
        match MatchRoutes(r.children, parent + url[..|r.path|], rest)
        case Matched(chain) => Matched([r] + chain)
        case other => other
  }

  /** Navigating to `url`: the table is matched, following at most `redirects` redirects. */
  function Navigate(url: Url, redirects: nat): Match
    decreases redirects
  {
    var m := MatchRoutes(Routes, [], url);
    if m.Redirected? && redirects > 0 then Navigate(m.target, redirects - 1) else m
  }

  /** A guard with the role data of the route it stands on. */
  datatype GuardCheck = GuardCheck(kind: GuardKind, role: Option<string>)

  /** The guards of the routes entered, parent first. */
  function GuardsOf(chain: seq<Route>): seq<GuardCheck>
  {
    if chain == [] then []
    else
      (if chain[0].canActivate == [] then [] else [GuardCheck(chain[0].canActivate[0], chain[0].role)]) +
      GuardsOf(chain[1..])
  }

  /** The guards on the way to `url`, once its redirect (the table needs at most one) has
      been followed; `None` if it does not end on a page. */
  function GuardsOnWay(url: Url): Option<seq<GuardCheck>>
  {
    var m := Navigate(url, 1);
    if m.Matched? then Some(GuardsOf(m.chain)) else None
  }

  /** One guard's decision for the fetched user. */
  function Decide(g: GuardCheck, fetch: UserFetch): Decision
  {
    match g.kind
    case UseAuthGuard => AuthDecision(fetch, g.role)
    case UseUnauthGuard => UnauthDecision(fetch)
  }

  /** Every guard on the way lets the user through. */
  predicate Admits(url: Url, fetch: UserFetch)
  {
    GuardsOnWay(url).Some? &&
    forall i :: 0 <= i < |GuardsOnWay(url).value| ==> Decide(GuardsOnWay(url).value[i], fetch).allow
  }

  const GuestOnly := [GuardCheck(UseUnauthGuard, None)]
  const AdminOnly := [GuardCheck(UseAuthGuard, Some("admin"))]
  const UserOnly := [GuardCheck(UseAuthGuard, Some("user"))]
  const SignedIn := [GuardCheck(UseAuthGuard, None)]

  /** The guards of a one-route chain. */
  lemma GuardsOfSingle(r: Route)
    ensures GuardsOf([r]) == if r.canActivate == [] then [] else [GuardCheck(r.canActivate[0], r.role)]
  {
    assert [r][1..] == [];
  }

  /** The first route that matches decides: every route before it gives no match. */
  lemma {:induction false} FirstMatch(routes: seq<Route>, k: int, parent: Url, url: Url)
    requires 0 <= k < |routes|
    requires forall j :: 0 <= j < k ==> MatchRoute(routes[j], parent, url).NoMatch?
    requires !MatchRoute(routes[k], parent, url).NoMatch?
    ensures MatchRoutes(routes, parent, url) == MatchRoute(routes[k], parent, url)
  {
    if k > 0 {
      FirstMatch(routes[1..], k - 1, parent, url);
    }
  }

  /** A one-segment route whose segment does not fit the URL's first segment is passed over. */
  lemma SegmentMismatch(r: Route, parent: Url, url: Url)
    requires |r.path| == 1 && r.path != ["**"] && url != [] && !SegmentMatches(r.path[0], url[0])
    ensures MatchRoute(r, parent, url).NoMatch?
  {
  }

  /** A leaf page whose path is the whole URL is entered. */
  lemma LeafMatch(r: Route, parent: Url, url: Url)
    requires r.path == url && r.path != ["**"] && r.redirectTo.None? && r.children == []
    ensures MatchRoute(r, parent, url) == Matched([r])
  {
    assert PathMatches(r.path, url);
    assert url[|r.path|..] == [];
  }

  /** A route with children that fits the start of the URL hands the rest to its children. */
  lemma ParentMatch(r: Route, parent: Url, url: Url)
    requires r.path != ["**"] && PathMatches(r.path, url) && !r.fullMatch && r.redirectTo.None? && r.children != []
    ensures MatchRoute(r, parent, url) ==
      match MatchRoutes(r.children, parent + url[..|r.path|], url[|r.path|..])
      case Matched(chain) => Matched([r] + chain)
      case other => other
  {
  }

  /** A URL under 'home' reaches the home route: none of the routes before it fits, so the
      children decide, and when none of them fits the wildcard sends the visitor to ''. */
  lemma ToHome(rest: Url)
    ensures MatchRoutes(Routes, [], ["home"] + rest) ==
      match MatchRoutes(HomeChildren, ["home"], rest)
      case Matched(chain) => Matched([HomeRoute] + chain)
      case Redirected(target) => Redirected(target)
      case NoMatch => Redirected([])
  {
    var url := ["home"] + rest;
    assert url[0] == "home" && url[1..] == rest && url[..1] == ["home"];
    forall j | 0 <= j < 4
      ensures MatchRoute(Routes[j], [], url).NoMatch?
    {
      if j == 0 {
        assert Routes[0] == LoginRoute;
      } else if j == 1 {
        assert Routes[1] == RegisterRoute;
        SegmentMismatch(RegisterRoute, [], url);
      } else if j == 2 {
        assert Routes[2] == ModuleSelectionRoute;
        SegmentMismatch(ModuleSelectionRoute, [], url);
      } else {
        assert Routes[3] == ForgotPasswordRoute;
        SegmentMismatch(ForgotPasswordRoute, [], url);
      }
    }
    assert PathMatches(["home"], url);
    ParentMatch(HomeRoute, [], url);
    assert [] + url[..1] == ["home"];
    var m := MatchRoutes(HomeChildren, ["home"], rest);
    if m.NoMatch? {
      assert Routes[5] == WildcardRoute;
      assert MatchRoute(Routes[4], [], url).NoMatch?;
      assert MatchRoute(WildcardRoute, [], url) == Redirected([]);
      FirstMatch(Routes, 5, [], url);
    } else {
      assert Routes[4] == HomeRoute;
      FirstMatch(Routes, 4, [], url);
    }
  }

  /** A URL the table matches without a redirect has the guards of the routes entered. */
  lemma GuardsOfMatched(url: Url, chain: seq<Route>)
    requires MatchRoutes(Routes, [], url) == Matched(chain)
    ensures GuardsOnWay(url) == Some(GuardsOf(chain))
  {
  }

  /** 'home' itself has no guard, so a page under it keeps only its own. */
  lemma GuardsUnderHome(r: Route)
    ensures GuardsOf([HomeRoute, r]) == GuardsOf([r])
  {
    assert [HomeRoute, r][1..] == [r];
  }

  /** The child of 'home' at position `k`, a leaf named `name` with no earlier child of that
      name, is the one that matches. */
  lemma HomeChildMatch(name: string, k: int)
    requires 0 <= k < |HomeChildren| && HomeChildren[k].path == [name] && HomeChildren[k].children == []
    requires HomeChildren[k].redirectTo.None?
    requires forall j :: 0 <= j < k ==> |HomeChildren[j].path| != 1 || !SegmentMatches(HomeChildren[j].path[0], name)
    ensures MatchRoutes(HomeChildren, ["home"], [name]) == Matched([HomeChildren[k]])
  {
    forall j | 0 <= j < k
      ensures MatchRoute(HomeChildren[j], ["home"], [name]).NoMatch?
    {
      if |HomeChildren[j].path| == 1 {
        assert !PathMatches(HomeChildren[j].path, [name]);
      }
    }
    LeafMatch(HomeChildren[k], ["home"], [name]);
    FirstMatch(HomeChildren, k, ["home"], [name]);
  }

  /** A page under 'home' with a one-segment path is reached by its name when no child
      before it has that name. */
  lemma HomePageMatch(name: string, k: int)
    requires 0 <= k < |HomeChildren| && HomeChildren[k].path == [name] && HomeChildren[k].children == []
    requires HomeChildren[k].redirectTo.None?
    requires forall j :: 0 <= j < k ==> |HomeChildren[j].path| != 1 || !SegmentMatches(HomeChildren[j].path[0], name)
    ensures MatchRoutes(Routes, [], ["home", name]) == Matched([HomeRoute, HomeChildren[k]])
  {
    HomeChildMatch(name, k);
    ToHome([name]);
    assert ["home"] + [name] == ["home", name];
  }

  /** Such a page has its own guard as the only one on the way. */
  lemma HomePage(name: string, k: int)
    requires 0 <= k < |HomeChildren| && HomeChildren[k].path == [name] && HomeChildren[k].children == []
    requires HomeChildren[k].redirectTo.None? && HomeChildren[k].canActivate == [UseAuthGuard]
    requires forall j :: 0 <= j < k ==> |HomeChildren[j].path| != 1 || !SegmentMatches(HomeChildren[j].path[0], name)
    ensures GuardsOnWay(["home", name]) == Some([GuardCheck(UseAuthGuard, HomeChildren[k].role)])
  {
    var r := HomeChildren[k];
    HomePageMatch(name, k);
    GuardsOfMatched(["home", name], [HomeRoute, r]);
    GuardsUnderHome(r);
    GuardsOfSingle(r);
  }

  /** The login page (''), the sign-up page and the password-recovery page are for visitors
      who are not signed in. */
  lemma GuestPagesGuarded()
    ensures GuardsOnWay([]) == Some(GuestOnly)
    ensures GuardsOnWay(["register"]) == Some(GuestOnly)
    ensures GuardsOnWay(["forgot-password"]) == Some(GuestOnly)
  {
    var login := Routes[0];
    assert MatchRoute(login, [], []) == Matched([login]);
    assert MatchRoutes(Routes, [], []) == Matched([login]);
    GuardsOfSingle(login);

    var register := ["register"];
    assert MatchRoute(Routes[1], [], register) == Matched([Routes[1]]);
    FirstMatch(Routes, 1, [], register);
    GuardsOfSingle(Routes[1]);

    var forgot := ["forgot-password"];
    assert MatchRoute(Routes[1], [], forgot).NoMatch? by {
      assert !SegmentMatches("register", "forgot-password") by { assert "register"[0] != "forgot-password"[0]; }
    }
    assert MatchRoute(Routes[2], [], forgot).NoMatch? by {
      assert !SegmentMatches("moduleSelection", "forgot-password") by { assert "moduleSelection"[0] != "forgot-password"[0]; }
    }
    assert MatchRoute(Routes[3], [], forgot) == Matched([Routes[3]]);
    FirstMatch(Routes, 3, [], forgot);
    GuardsOfSingle(Routes[3]);
  }

  /** The five administration pages need the 'admin' role. */
  lemma AdminPagesGuarded()
    ensures GuardsOnWay(["home", "componentMovement"]) == Some(AdminOnly)
    ensures GuardsOnWay(["home", "electronicComponent"]) == Some(AdminOnly)
    ensures GuardsOnWay(["home", "academicPeriods"]) == Some(AdminOnly)
    ensures GuardsOnWay(["home", "request"]) == Some(AdminOnly)
    ensures GuardsOnWay(["home", "loans"]) == Some(AdminOnly)
  {
    HomePage("componentMovement", 0);
    HomePage("electronicComponent", 1);
    HomePage("academicPeriods", 2);
    HomePage("request", 3);
    HomePage("loans", 4);
  }

  /** The four pages of a user with the 'user' role need that role; 'requestDetails' takes
      any non-empty request id. */
  lemma UserPagesGuarded(id: string)
    requires id != ""
    ensures GuardsOnWay(["home", "viewComponents"]) == Some(UserOnly)
    ensures GuardsOnWay(["home", "loansSummary"]) == Some(UserOnly)
    ensures GuardsOnWay(["home", "requestView"]) == Some(UserOnly)
    ensures GuardsOnWay(["home", "requestDetails", id]) == Some(UserOnly)
  {
    HomePage("viewComponents", 5);
    HomePage("loansSummary", 6);
    HomePage("requestView", 7);
    RequestDetailsGuarded(id);
  }

  /** The children of 'home' before 'requestDetails/:id' all have a one-segment path. */
  lemma RequestDetailsMatch(id: string)
    requires id != ""
    ensures MatchRoutes(HomeChildren, ["home"], ["requestDetails", id]) == Matched([RequestDetailsRoute])
  {
    var url := ["requestDetails", id];
    forall j | 0 <= j < 8
      ensures MatchRoute(HomeChildren[j], ["home"], url).NoMatch?
    {
      assert |HomeChildren[j].path| == 1 && HomeChildren[j].path[0] != "requestDetails";
      assert !SegmentMatches(HomeChildren[j].path[0], url[0]);
    }
    assert HomeChildren[8] == RequestDetailsRoute;
    assert PathMatches(RequestDetailsRoute.path, url);
    assert url[2..] == [];
    FirstMatch(HomeChildren, 8, ["home"], url);
  }

  /** A request's details page is guarded by the 'user' role alone. */
  lemma RequestDetailsGuarded(id: string)
    requires id != ""
    ensures GuardsOnWay(["home", "requestDetails", id]) == Some(UserOnly)
  {
    RequestDetailsMatch(id);
    ToHome(["requestDetails", id]);
    assert ["home"] + ["requestDetails", id] == ["home", "requestDetails", id];
    GuardsOfMatched(["home", "requestDetails", id], [HomeRoute, RequestDetailsRoute]);
    GuardsUnderHome(RequestDetailsRoute);
    GuardsOfSingle(RequestDetailsRoute);
  }

  const NotFoundUrl: Url := ["home", "404"]

  /** The profile page, the not-found page and the module selection need a signed-in user
      of any role. */
  lemma SignedInPagesGuarded()
    ensures GuardsOnWay(["home", "userProfile"]) == Some(SignedIn)
    ensures GuardsOnWay(NotFoundUrl) == Some(SignedIn)
    ensures GuardsOnWay(["moduleSelection"]) == Some(SignedIn)
  {
    HomePage("userProfile", 9);
    HomePage("404", 10);
    ModuleSelectionGuarded();
  }

  /** The module selection is a top-level page behind `AuthGuard`. */
  lemma ModuleSelectionGuarded()
    ensures GuardsOnWay(["moduleSelection"]) == Some(SignedIn)
  {
    var url := ["moduleSelection"];
    assert Routes[1] == RegisterRoute && Routes[2] == ModuleSelectionRoute;
    SegmentMismatch(RegisterRoute, [], url);
    LeafMatch(ModuleSelectionRoute, [], url);
    FirstMatch(Routes, 2, [], url);
    GuardsOfMatched(url, [ModuleSelectionRoute]);
    GuardsOfSingle(ModuleSelectionRoute);
  }

  /** 'home' alone fits only its empty child, which redirects to 'home/404'. */
  lemma HomeDefaultRedirect()
    ensures MatchRoutes(Routes, [], HomeUrl) == Redirected(NotFoundUrl)
  {
    forall j | 0 <= j < 11
      ensures MatchRoute(HomeChildren[j], ["home"], []).NoMatch?
    {
      assert HomeChildren[j].path != [] && HomeChildren[j].path != ["**"];
    }
    assert HomeChildren[11] == HomeDefaultRoute;
    assert MatchRoute(HomeDefaultRoute, ["home"], []) == Redirected(NotFoundUrl);
    FirstMatch(HomeChildren, 11, ["home"], []);
    ToHome([]);
    assert ["home"] + [] == HomeUrl;
  }

  /** '/home' therefore shows the not-found page, to any signed-in user. */
  lemma HomeGuarded()
    ensures GuardsOnWay(HomeUrl) == Some(SignedIn)
  {
    HomeDefaultRedirect();
    HomePageMatch("404", 10);
    GuardsUnderHome(NotFoundRoute);
    GuardsOfSingle(NotFoundRoute);
  }

  /** A URL whose first segment names no top-level page is redirected by the wildcard to '',
      where the login page stands behind `UnauthGuard`. */
  lemma UnknownUrl(url: Url)
    requires url != [] && url[0] !in {"register", "moduleSelection", "forgot-password", "home"}
    ensures MatchRoutes(Routes, [], url) == Redirected([])
    ensures GuardsOnWay(url) == Some(GuestOnly)
  {
    forall j | 0 <= j < 5
      ensures MatchRoute(Routes[j], [], url).NoMatch?
    {
      if j == 0 {
        assert Routes[0] == LoginRoute;
      } else {
        assert |Routes[j].path| == 1 && Routes[j].path != ["**"] && Routes[j].path[0] != url[0] && Routes[j].path[0][0] != ':';
        SegmentMismatch(Routes[j], [], url);
      }
    }
    assert Routes[5] == WildcardRoute;
    FirstMatch(Routes, 5, [], url);
    LoginMatch();
  }

  /** '' is the login page. */
  lemma LoginMatch()
    ensures MatchRoutes(Routes, [], []) == Matched([LoginRoute])
    ensures GuardsOf([LoginRoute]) == GuestOnly
  {
    assert Routes[0] == LoginRoute;
    GuardsOfSingle(LoginRoute);
  }

  /** Where `AuthGuard` sends a user it turns away is a page that lets the same user in:
      '/login' is unknown, so the wildcard shows the login page to the visitor without a
      session, and '/home' shows the not-found page to a signed-in user of any role. */
  lemma AuthRedirectAdmits(fetch: UserFetch, requiredRole: Option<string>)
    ensures AuthDecision(fetch, requiredRole).navigation.Some? ==>
      Admits(AuthDecision(fetch, requiredRole).navigation.value, fetch)
  {
    var d := AuthDecision(fetch, requiredRole);
    if d.navigation == Some(LoginUrl) {
      UnknownUrl(LoginUrl);
      assert Decide(GuestOnly[0], fetch).allow;
    } else if d.navigation.Some? {
      HomeGuarded();
      assert Decide(SignedIn[0], fetch).allow;
    }
  }

  /** Where `UnauthGuard` sends a signed-in user is a page that lets that user in: the admin
      and user landing pages match their roles, and any other role gets '/home'. */
  lemma UnauthRedirectAdmits(fetch: UserFetch)
    ensures UnauthDecision(fetch).navigation.Some? ==>
      Admits(UnauthDecision(fetch).navigation.value, fetch)
  {
    if fetch.Ok? && fetch.value.Some? {
      var role := fetch.value.value.role;
      if role == Some("admin") {
        AdminPagesGuarded();
        assert Decide(AdminOnly[0], fetch).allow;
      } else if role == Some("user") {
        UserPagesGuarded("1");
        assert Decide(UserOnly[0], fetch).allow;
      } else {
        HomeGuarded();
        assert Decide(SignedIn[0], fetch).allow;
      }
    }
  }
}
