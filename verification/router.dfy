/** The route table, the navigation guard's decision and the scroll rule. */
module Router {
  import opened Wrappers

  datatype RouteName = Home | TripDetail | Login | Register | Dashboard

  /** The meta flags of a route; an absent flag reads as false. */
  datatype Meta = Meta(requiresAuth: bool, requiresGuest: bool)

  datatype Route = Route(path: string, name: RouteName, meta: Meta)

  const NoMeta := Meta(false, false)

  /** The application's routes, in declaration order. */
  const Routes: seq<Route> := [
    Route("/", Home, NoMeta),
    Route("/trip/:id", TripDetail, NoMeta),
    Route("/login", Login, Meta(false, true)),
    Route("/register", Register, Meta(false, true)),
    Route("/dashboard", Dashboard, Meta(true, false))
  ]

  /** What the guard tells the router: go on, or go to another named route instead. */
  datatype Decision = Proceed | Redirect(target: RouteName)

  /** The `beforeEach` guard: the auth test first, then the guest test. */
  function Guard(meta: Meta, isAuthenticated: bool): (d: Decision)
    ensures d == Redirect(Login) <==> meta.requiresAuth && !isAuthenticated
    ensures d == Redirect(Home) <==> (!meta.requiresAuth || isAuthenticated) && meta.requiresGuest && isAuthenticated
    ensures d == Proceed <==> (!meta.requiresAuth || isAuthenticated) && (!meta.requiresGuest || !isAuthenticated)
  {
    if meta.requiresAuth && !isAuthenticated then Redirect(Login)
    else if meta.requiresGuest && isAuthenticated then Redirect(Home)
    else Proceed
  }

  /** The guard's decision for a named route of the table. */
  function GuardRoute(name: RouteName, isAuthenticated: bool): (d: Decision)
    ensures exists i :: 0 <= i < |Routes| && Routes[i].name == name && d == Guard(Routes[i].meta, isAuthenticated)
  {
    var i := RouteIndex(name);
    Guard(Routes[i].meta, isAuthenticated)
  }

  function RouteIndex(name: RouteName): (i: nat)
    ensures i < |Routes| && Routes[i].name == name
  {
    match name
    case Home => 0
    case TripDetail => 1
    case Login => 2
    case Register => 3
    case Dashboard => 4
  }

  /** Only the dashboard needs a session; only login and register need its absence. */
  lemma RouteTableFlags()
    ensures forall r :: r in Routes ==> (r.meta.requiresAuth <==> r.name == Dashboard)
    ensures forall r :: r in Routes ==> (r.meta.requiresGuest <==> r.name == Login || r.name == Register)
    ensures forall i, j :: 0 <= i < j < |Routes| ==> Routes[i].name != Routes[j].name
  {
  }

  /** Per route: home and trip detail always proceed; the others depend on the session. */
  lemma GuardPerRoute(isAuthenticated: bool)
    ensures GuardRoute(Home, isAuthenticated) == Proceed
    ensures GuardRoute(TripDetail, isAuthenticated) == Proceed
    ensures GuardRoute(Dashboard, isAuthenticated) == if isAuthenticated then Proceed else Redirect(Login)
    ensures GuardRoute(Login, isAuthenticated) == if isAuthenticated then Redirect(Home) else Proceed
    ensures GuardRoute(Register, isAuthenticated) == if isAuthenticated then Redirect(Home) else Proceed
  {
  }

  /** A guard redirect never targets a route that the same session would be redirected away from. */
  lemma RedirectTargetsProceed(name: RouteName, isAuthenticated: bool)
    requires GuardRoute(name, isAuthenticated).Redirect?
    ensures GuardRoute(GuardRoute(name, isAuthenticated).target, isAuthenticated) == Proceed
  {
    GuardPerRoute(isAuthenticated);
  }

  /** A scroll offset, as the router reports and accepts it. */
  datatype Position = Position(left: Option<real>, top: real)

  /** `scrollBehavior`: back to the saved offset when there is one, else to the top. */
  function ScrollBehavior(savedPosition: Option<Position>): (p: Position)
    ensures savedPosition.Some? ==> p == savedPosition.value
    ensures savedPosition.None? ==> p.top == 0.0 && p.left.None?
  {
    if savedPosition.Some? then savedPosition.value else Position(None, 0.0)
  }
}
