/** The routes of the admin and coach dashboard and the role guard in front
    of every dashboard page. */
module AdminRoutes {
  import opened Common
  import opened Seqs

  /** The user record kept in local storage; only its role matters here. */
  datatype StoredUser = StoredUser(role: Option<string>, uid: Option<int>)

  datatype Page =
    | LoginPage | AdminDashboard | CoachDashboard
    | TournamentManagement | ManageUser | ManageMatch
    | RegisterTournament | CreatePlayer | ManageTeam

  /** What a route renders: a redirect, or a page. */
  datatype Element = Navigate(to: string) | Render(page: Page)

  const AdminRole := "ADMIN"
  const CoachRole := "COACH"
  const RootPath := "/"
  const LoginPath := "/login"
  const AdminPath := "/admin"
  const CoachPath := "/coach"

  /** `ProtectedRoute`: the page for a stored user with exactly the allowed
      role, otherwise a redirect to the login page. */
  function ProtectedRoute(user: Option<StoredUser>, allowedRole: string, child: Page): (e: Element)
    ensures e == Render(child) <==> user.Some? && user.value.role == Some(allowedRole)
    ensures e != Render(child) ==> e == Navigate(LoginPath)
  {
    if user.None? || user.value.role != Some(allowedRole) then Navigate(LoginPath) else Render(child)
  }

  /** How a route's element is built: a fixed redirect, an open page, or a
      page behind the role guard. */
  datatype RouteElement = RedirectTo(target: string) | Open(page: Page) | Guarded(allowedRole: string, guarded: Page)

  datatype Route = Route(path: string, element: RouteElement)

  /** The route table, in declaration order. */
  const Routes: seq<Route> := [
    Route(RootPath, RedirectTo(LoginPath)),
    Route(LoginPath, Open(LoginPage)),
    Route(AdminPath, Guarded(AdminRole, AdminDashboard)),
    Route(CoachPath, Guarded(CoachRole, CoachDashboard)),
    Route(AdminPath + "/TournamentManagement", Guarded(AdminRole, TournamentManagement)),
    Route(AdminPath + "/ManageUser", Guarded(AdminRole, ManageUser)),
    Route(AdminPath + "/ManageMatch", Guarded(AdminRole, ManageMatch)),
    Route(CoachPath + "/RegisterTournament", Guarded(CoachRole, RegisterTournament)),
    Route(CoachPath + "/CreatePlayer", Guarded(CoachRole, CreatePlayer)),
    Route(CoachPath + "/ManageTeam", Guarded(CoachRole, ManageTeam))
  ]

  /** The element a route renders for the stored user. */
  function RenderRoute(r: RouteElement, user: Option<StoredUser>): (e: Element)
    ensures r.RedirectTo? ==> e == Navigate(r.target)
    ensures r.Open? ==> e == Render(r.page)
    ensures r.Guarded? ==> e == ProtectedRoute(user, r.allowedRole, r.guarded)
  {
    match r
    case RedirectTo(target) => Navigate(target)
    case Open(page) => Render(page)
    case Guarded(role, page) => ProtectedRoute(user, role, page)
  }

  predicate HasPath(path: string, r: Route)
  {
    r.path == path
  }

  function PathIs(path: string): Route -> bool
  {
    r => HasPath(path, r)
  }

  /** What the router shows for a path: the element of the route declared
      for it, None for an undeclared path. */
  function Resolve(path: string, user: Option<StoredUser>): (e: Option<Element>)
    ensures e.None? <==> forall i :: 0 <= i < |Routes| ==> Routes[i].path != path
  {
    match Find(Routes, PathIs(path))
    case None => None
    case Some(r) => Some(RenderRoute(r.element, user))
  }

  /** "/" always redirects to the login page, whoever is stored. */
  lemma RootRedirects(user: Option<StoredUser>)
    ensures Resolve(RootPath, user) == Some(Navigate(LoginPath))
  {
    ResolveAt(RootPath, user, 0);
  }

  /** Whether a path lies under a section such as "/admin". */
  predicate Under(section: string, path: string)
  {
    section <= path
  }

  /** Every route under "/admin" is guarded by the ADMIN role and every route
      under "/coach" by the COACH role; no other route is guarded. */
  lemma SectionsGuarded()
    ensures forall i :: 0 <= i < |Routes| && Under(AdminPath, Routes[i].path) ==>
              Routes[i].element.Guarded? && Routes[i].element.allowedRole == AdminRole
    ensures forall i :: 0 <= i < |Routes| && Under(CoachPath, Routes[i].path) ==>
              Routes[i].element.Guarded? && Routes[i].element.allowedRole == CoachRole
    ensures forall i :: 0 <= i < |Routes| && Routes[i].element.Guarded? ==>
              Under(AdminPath, Routes[i].path) || Under(CoachPath, Routes[i].path)
  {
    assert AdminPath[1] != CoachPath[1];
    assert AdminPath[1] != LoginPath[1];
    assert CoachPath[1] != LoginPath[1];
    forall i | 0 <= i < |Routes|
      ensures Under(AdminPath, Routes[i].path) ==> Routes[i].element.Guarded? && Routes[i].element.allowedRole == AdminRole
      ensures Under(CoachPath, Routes[i].path) ==> Routes[i].element.Guarded? && Routes[i].element.allowedRole == CoachRole
      ensures Routes[i].element.Guarded? ==> Under(AdminPath, Routes[i].path) || Under(CoachPath, Routes[i].path)
    {
      var p := Routes[i].path;
      if Routes[i].element.Guarded? && Routes[i].element.allowedRole == AdminRole {
        assert AdminPath <= p;
      } else if Routes[i].element.Guarded? {
        assert CoachPath <= p;
      } else {
        assert |p| <= 1 || p[1] == LoginPath[1];
      }
    }
  }

  /** A dashboard route shows its page to a user with its role and sends
      everyone else, including a visitor with nothing stored, to the login page. */
  lemma GuardedRouteResolves(i: nat, user: Option<StoredUser>)
    requires i < |Routes| && Routes[i].element.Guarded?
    ensures RenderRoute(Routes[i].element, user) == Render(Routes[i].element.guarded)
            <==> user.Some? && user.value.role == Some(Routes[i].element.allowedRole)
    ensures user.None? ==> RenderRoute(Routes[i].element, user) == Navigate(LoginPath)
  {
  }

  /** A path is served by the first route declared for it. */
  lemma ResolveAt(path: string, user: Option<StoredUser>, i: nat)
    requires i < |Routes| && Routes[i].path == path
    requires forall j :: 0 <= j < i ==> Routes[j].path != path
    ensures Resolve(path, user) == Some(RenderRoute(Routes[i].element, user))
  {
    FindAt(Routes, PathIs(path), i);
  }

  /** A stored ADMIN opening "/admin" sees the admin dashboard. */
  lemma AdminDashboardScenario(path: string, user: Option<StoredUser>)
    requires path == AdminPath && user.Some? && user.value.role == Some(AdminRole)
    ensures Resolve(path, user) == Some(Render(AdminDashboard))
  {
    ResolveAt(path, user, 2);
  }

  /** A stored COACH opening "/coach" sees the coach dashboard. */
  lemma CoachDashboardScenario(path: string, user: Option<StoredUser>)
    requires path == CoachPath && user.Some? && user.value.role == Some(CoachRole)
    ensures Resolve(path, user) == Some(Render(CoachDashboard))
  {
    ResolveAt(path, user, 3);
  }

  /** A stored COACH opening "/admin" is sent to the login page. */
  lemma CoachKeptOutOfAdmin(path: string, user: Option<StoredUser>)
    requires path == AdminPath && user.Some? && user.value.role == Some(CoachRole)
    ensures Resolve(path, user) == Some(Navigate(LoginPath))
  {
    ResolveAt(path, user, 2);
    assert AdminRole != CoachRole;
  }
}
