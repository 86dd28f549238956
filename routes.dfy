/** The application's route table: while the session loads only a spinner is
    shown; afterwards each path renders its page or redirects, according to
    whether a user is signed in and, for the reports, the user's role. */
module Routes {
  import opened Prelude
  import opened Users

  /** The paths of the route table; `/property/:id` carries its id. */
  datatype Route =
    | Home | Login | Register | Search | PropertyDetails(id: string)
    | Dashboard | ListProperty | Messages | Profile | Favorites | Reports

  datatype Screen = Spinner | Show(route: Route) | Redirect(to: Route)

  // ---------------------------------------------------------------------------
  // The access classes the conditions implement
  // ---------------------------------------------------------------------------

  datatype Access = Public | GuestsOnly | SignedIn | StaffOnly

  function AccessOf(route: Route): (a: Access) {
    match route
    case Home | Search | PropertyDetails(_) => Public
    case Login | Register => GuestsOnly
    case Dashboard | ListProperty | Messages | Profile | Favorites => SignedIn
    case Reports => StaffOnly
  }

  predicate Admits(access: Access, user: Option<User>) {
    match access
    case Public => true
    case GuestsOnly => user.None?
    case SignedIn => user.Some?
    case StaffOnly => user.Some? && IsStaff(user.value.role)
  }

  /** Where a refused visitor is sent. */
  function Fallback(access: Access): (target: Route) {
    match access
    case SignedIn => Login
    case _ => Dashboard
  }

  // ---------------------------------------------------------------------------
  // The route elements
  // ---------------------------------------------------------------------------

  /** The `element` of each `<Route>`: a page is shown exactly when its access
      class admits the visitor; otherwise the visitor is redirected. */
  function RouteElement(user: Option<User>, route: Route): (s: Screen)
    ensures s.Show? <==> Admits(AccessOf(route), user)
    ensures s.Show? ==> s.route == route
    ensures s.Redirect? ==> s.to == Fallback(AccessOf(route))
    ensures !s.Spinner?
  {
    match route
    case Home => Show(Home)
    case Login => if user.None? then Show(Login) else Redirect(Dashboard)
    case Register => if user.None? then Show(Register) else Redirect(Dashboard)
    case Search => Show(Search)
    case PropertyDetails(id) => Show(PropertyDetails(id))
    case Dashboard => if user.Some? then Show(Dashboard) else Redirect(Login)
    case ListProperty => if user.Some? then Show(ListProperty) else Redirect(Login)
    case Messages => if user.Some? then Show(Messages) else Redirect(Login)
    case Profile => if user.Some? then Show(Profile) else Redirect(Login)
    case Favorites => if user.Some? then Show(Favorites) else Redirect(Login)
    case Reports =>
      if user.Some? && (user.value.role == Agent || user.value.role == Seller) then Show(Reports)
      else Redirect(Dashboard)
  }

  /** `AppContent`: the loading gate comes before every route decision. */
  function AppContent(loading: bool, user: Option<User>, route: Route): (s: Screen)
    ensures s == Spinner <==> loading
    ensures !loading ==> s == RouteElement(user, route)
  {
    if loading then Spinner else RouteElement(user, route)
  }

  lemma PublicRoutesAlwaysShown(user: Option<User>, id: string)
    ensures RouteElement(user, Home) == Show(Home)
    ensures RouteElement(user, Search) == Show(Search)
    ensures RouteElement(user, PropertyDetails(id)) == Show(PropertyDetails(id))
  {
  }

  /** A signed-in user asking for the login or register page goes to the dashboard. */
  lemma GuestRoutesSendUsersToDashboard(u: User)
    ensures RouteElement(Some(u), Login) == Redirect(Dashboard)
    ensures RouteElement(Some(u), Register) == Redirect(Dashboard)
    ensures RouteElement(None, Login) == Show(Login) && RouteElement(None, Register) == Show(Register)
  {
  }

  /** The reports send a buyer, and a visitor who is not signed in, to the
      dashboard rather than to the login page. */
  lemma ReportsFallBackToDashboard(user: Option<User>)
    requires user.None? || user.value.role == Buyer
    ensures RouteElement(user, Reports) == Redirect(Dashboard)
  {
  }

  // ---------------------------------------------------------------------------
  // Following redirects
  // ---------------------------------------------------------------------------

  /** The page shown after following at most `hops` redirects from `route`,
      or None when more would be needed. */
  function Settle(user: Option<User>, route: Route, hops: nat): (r: Option<Route>)
    ensures r.Some? ==> RouteElement(user, r.value) == Show(r.value)
    ensures r.Some? ==> Admits(AccessOf(r.value), user)
    decreases hops
  {
    match RouteElement(user, route)
    case Show(page) => Some(page)
    case Redirect(target) => if hops == 0 then None else Settle(user, target, hops - 1)
    case Spinner => None
  }

  /** Every path reaches a shown page within two redirects. */
  lemma RedirectsSettleWithinTwoHops(user: Option<User>, route: Route)
    ensures Settle(user, route, 2).Some?
  {
    var s := RouteElement(user, route);
    if s.Redirect? {
      var s1 := RouteElement(user, s.to);
      if s1.Redirect? {
        assert s.to == Dashboard && s1.to == Login;
        assert RouteElement(user, Login) == Show(Login);
      }
    }
  }

  /** Two redirects are needed only by a visitor who is not signed in and asks
      for the reports: /reports, then /dashboard, then /login. */
  lemma OnlySignedOutReportsNeedsTwoHops(user: Option<User>, route: Route)
    ensures Settle(user, route, 1).None? <==> user.None? && route == Reports
    ensures Settle(None, Reports, 2) == Some(Login)
  {
  }
}
