/**
 * The application's route table: which page each pathname renders and
 * which guard stands in front of it. Routes are kept in declaration order,
 * grouped as they are nested (public, admin, tenant, landlord, caretaker,
 * catch-all); the first pattern that matches wins. For this table that is
 * the same as react-router's ranking: no two patterns without a splat match
 * the same pathname, and each splat comes after the patterns it shadows.
 * Static segments match without regard to ASCII case, as react-router
 * matches by default. A pathname is given as its non-empty segments.
 */
module AppRoutes {
  import opened Text
  import opened ProtectedRoute
  import opened Outcomes
  import Json

  /** One segment of a route pattern. */
  datatype Seg = Lit(text: string) | Param | Splat

  /** The guard a route is wrapped in. */
  datatype Guard = Public | AnyUser | Role(role: string)

  datatype Route = Route(pattern: seq<Seg>, guard: Guard, page: string)

  /** The catch-all NotFound route that ends the table. */
  const NotFoundRoute := Route([Splat], Public, "NotFound")

  /** A child route below a parent path: the rest of its pattern and its page. */
  datatype Child = Child(rest: seq<Seg>, page: string)

  /** Routes below a common path prefix, each behind the same guard. */
  function Under(prefix: seq<Seg>, guard: Guard, children: seq<Child>): (r: seq<Route>)
    ensures |r| == |children|
    ensures forall i :: 0 <= i < |r| ==>
      r[i].pattern == prefix + children[i].rest && r[i].guard == guard && r[i].page == children[i].page
  {
    seq(|children|, i requires 0 <= i < |children| =>
      Route(prefix + children[i].rest, guard, children[i].page))
  }

  /** The children of `/prefix`, each behind the parent's guard. */
  function Children(prefix: string, guard: Guard, children: seq<Child>): (r: seq<Route>)
    ensures |r| == |children|
    ensures forall i :: 0 <= i < |r| ==>
      r[i].pattern == [Lit(prefix)] + children[i].rest && r[i].guard == guard && r[i].page == children[i].page
  {
    Under([Lit(prefix)], guard, children)
  }

  function PublicRoutes(): seq<Route> {
    Under([], Public, PublicChildren())
  }

  function PublicChildren(): seq<Child> {
    [ Child([], "LandingPage"),
      Child([Lit("splash")], "SplashScreen"),
      Child([Lit("register")], "Register"),
      Child([Lit("login")], "Login"),
      Child([Lit("reset-password")], "ResetPasswordForm"),
      Child([Lit("verify-account"), Param], "VerifyAccount"),
      Child([Lit("request-reset")], "RequestReset"),
      Child([Lit("reset-password"), Param], "ResetPassword"),
      Child([Lit("about")], "AboutPage"),
      Child([Lit("services")], "ServicesPage") ]
  }

  const AdminDashboard := Route([Lit("dashboard")], Role("admin"), "AdminDashboardPage")

  function AdminRoutes(): seq<Route> {
    [AdminDashboard] + Children("admin", Role("admin"), AdminChildren())
  }

  function AdminChildren(): seq<Child> {
    [
        Child([Lit("staff")], "AdminStaffPage"),
        Child([Lit("staff"), Lit("register")], "RegisterStaffPage"),
        Child([Lit("broadcast")], "BroadcastMessagePage"),
        Child([Lit("defaulters")], "DefaulterListPage"),
        Child([Lit("relocations")], "RelocationRequestPage"),
        Child([Lit("dashboard")], "AdminDashboardPage"),
        Child([Lit("staff"), Lit("list")], "StaffListPage"),
        Child([Lit("charts")], "AdminCharts"),
        Child([Lit("staff"), Lit("edit")], "EditStaffPage"),
        Child([Lit("audit-logs")], "AuditLogsPage"),
      Child([Lit("relocation"), Lit("view")], "RelocationViewer") ]
  }

  /** /tenant is wrapped in a guard with no required role. */
  function TenantRoutes(): seq<Route> {
    Children("tenant", AnyUser, TenantChildren())
  }

  function TenantChildren(): seq<Child> {
    [
      Child([], "TenantSidebarLayout"),
      Child([Lit("dashboard")], "TenantDashboard"),
      Child([Lit("payments")], "TenantPaymentPage"),
      Child([Lit("payment-history")], "PaymentHistory"),
      Child([Lit("relocation")], "TenantRelocationPage"),
      Child([Lit("relocation"), Lit("request")], "RelocationRequestForm"),
      Child([Lit("chat")], "TenantChatRoom"),
      Child([Lit("maintenance")], "TenantMaintenancePage"),
      Child([Lit("visit")], "TenantVisitPage"),
      Child([Lit("notifications")], "TenantNotificationPage"),
      Child([Lit("profile")], "TenantProfileUpdateForm"),
      Child([Lit("payment")], "TenantPaymentPage") ]
  }

  /** /landlord ends with its own splat child, so unlisted children stay behind the guard. */
  function LandlordRoutes(): seq<Route> {
    Children("landlord", Role("landlord"), LandlordChildren())
  }

  function LandlordChildren(): seq<Child> {
    [
      Child([], "LandlordSidebarLayout"),
      Child([Lit("dashboard")], "LandlordDashboard"),
      Child([Lit("houses")], "Houses"),
      Child([Lit("houses"), Lit("upload")], "HouseUploadForm"),
      Child([Lit("houses"), Lit("manage")], "HouseManagementTable"),
      Child([Lit("houses"), Lit("assign")], "AssignCaretakerDropdown"),
      Child([Lit("tenants")], "TenantManagement"),
      Child([Lit("maintenance")], "MaintenanceManagement"),
      Child([Lit("caretaker")], "AssignCaretakerDropdown"),
      Child([Lit("defaulters")], "Defaulters"),
      Child([Lit("relocations")], "Relocations"),
      Child([Lit("visits")], "Visits"),
      Child([Lit("payments")], "Payments"),
      Child([Lit("broadcast")], "BroadcastMessage"),
      Child([Splat], "NotFound") ]
  }

  /** /caretaker has no splat child: unlisted children fall through to the catch-all. */
  function CaretakerRoutes(): seq<Route> {
    Children("caretaker", Role("caretaker"), CaretakerChildren())
  }

  function CaretakerChildren(): seq<Child> {
    [
      Child([], "CaretakerLayout"),
      Child([Lit("dashboard")], "CaretakerDashboardHome"),
      Child([Lit("maintenance")], "CaretakerMaintenance"),
      Child([Lit("relocation")], "CaretakerRelocation"),
      Child([Lit("messages")], "CaretakerMessages"),
      Child([Lit("tenant-registration")], "CaretakerTenantRegistration"),
      Child([Lit("visits")], "CaretakerVisits") ]
  }

  /** The declared routes in order; the catch-all NotFound route comes after them. */
  function Table(): seq<Route> {
    PublicRoutes() + AdminRoutes() + TenantRoutes() + LandlordRoutes() + CaretakerRoutes()
  }

  /** Whether a pattern matches lower-cased segments; a splat takes whatever is left. */
  predicate Matches(pattern: seq<Seg>, segs: seq<string>) {
    if pattern == [] then segs == []
    else match pattern[0]
      case Splat => true
      case Param => segs != [] && Matches(pattern[1..], segs[1..])
      case Lit(t) => segs != [] && segs[0] == t && Matches(pattern[1..], segs[1..])
  }

  /** Every segment lower-cased. */
  function LowerAll(segs: seq<string>): (r: seq<string>)
    ensures |r| == |segs|
    ensures forall i :: 0 <= i < |segs| ==> r[i] == Lower(segs[i])
  {
    seq(|segs|, i requires 0 <= i < |segs| => Lower(segs[i]))
  }

  /** The first route at index `i` or later whose pattern matches, if any. */
  function FirstMatchFrom(routes: seq<Route>, segs: seq<string>, i: nat): (r: Option<Route>)
    ensures r.Some? ==> i < |routes| && r.value in routes[i..] && Matches(r.value.pattern, segs)
    ensures r.None? ==> forall j :: i <= j < |routes| ==> !Matches(routes[j].pattern, segs)
    decreases |routes| - i
  {
    if i >= |routes| then None
    else if Matches(routes[i].pattern, segs) then Some(routes[i])
    else FirstMatchFrom(routes, segs, i + 1)
  }

  /** The first route whose pattern matches, if any. */
  function FirstMatch(routes: seq<Route>, segs: seq<string>): (r: Option<Route>)
    ensures r.Some? ==> r.value in routes && Matches(r.value.pattern, segs)
    ensures r.None? <==> forall j :: 0 <= j < |routes| ==> !Matches(routes[j].pattern, segs)
  {
    FirstMatchFrom(routes, segs, 0)
  }

  /** The route a pathname's segments select: the first declared match, else the catch-all NotFound. */
  function Resolve(segs: seq<string>): (r: Route)
    ensures r in Table() || r == NotFoundRoute
    ensures Matches(r.pattern, LowerAll(segs))
  {
    FirstMatch(Table(), LowerAll(segs)).GetOr(NotFoundRoute)
  }

  /**
   * What the user finally sees at a pathname: the page of an unguarded
   * route, or the guard's placeholder, redirect or page.
   */
  function Visit(segs: seq<string>, loading: bool, user: Json.Value): Decision {
    match Resolve(segs).guard
    case Public => RenderChildren
    case AnyUser => Decide(loading, user, None)
    case Role(role) => Decide(loading, user, Some(role))
  }

  /** A pattern made of literal segments only. */
  predicate AllLit(p: seq<Seg>) {
    forall k :: 0 <= k < |p| ==> p[k].Lit?
  }

  /** The segments a literal pattern spells out. */
  function Texts(p: seq<Seg>): (r: seq<string>)
    requires AllLit(p)
    ensures |r| == |p| && forall k :: 0 <= k < |p| ==> r[k] == p[k].text
  {
    seq(|p|, k requires 0 <= k < |p| => p[k].text)
  }

  /** A literal pattern matches exactly the segments it spells out. */
  lemma {:induction false} LitMatches(p: seq<Seg>, segs: seq<string>)
    requires AllLit(p)
    ensures Matches(p, segs) <==> segs == Texts(p)
  {
    if p != [] && segs != [] {
      LitMatches(p[1..], segs[1..]);
      var t := Texts(p);
      assert Texts(p[1..]) == t[1..];
      assert segs == [segs[0]] + segs[1..] && t == [t[0]] + t[1..];
    }
  }

  /** Two literal patterns that spell the same segments are the same pattern. */
  lemma TextsInjective(p: seq<Seg>, q: seq<Seg>)
    requires AllLit(p) && AllLit(q) && Texts(p) == Texts(q)
    ensures p == q
  {
    assert |p| == |q|;
    forall k | 0 <= k < |p| ensures p[k] == q[k] {
      assert Texts(p)[k] == Texts(q)[k];
    }
  }

  /**
   * The search from `j` reaches the literal route at `i` when every route
   * before it is literal with a different pattern.
   */
  lemma {:induction false} FirstMatchFromLiteral(routes: seq<Route>, i: nat, j: nat, segs: seq<string>)
    requires j <= i < |routes| && AllLit(routes[i].pattern) && segs == Texts(routes[i].pattern)
    requires forall k :: j <= k < i ==> AllLit(routes[k].pattern) && routes[k].pattern != routes[i].pattern
    ensures FirstMatchFrom(routes, segs, j) == Some(routes[i])
    decreases i - j
  {
    LitMatches(routes[j].pattern, segs);
    if j < i {
      if Matches(routes[j].pattern, segs) {
        TextsInjective(routes[j].pattern, routes[i].pattern);
      }
      FirstMatchFromLiteral(routes, i, j + 1, segs);
    }
  }

  /** Children with literal, pairwise distinct paths below their parent (up to `n`). */
  predicate DistinctLitChildren(children: seq<Child>, n: nat) {
    n <= |children| &&
    (forall i :: 0 <= i < n ==> AllLit(children[i].rest)) &&
    (forall i, k :: 0 <= k < i < n ==> children[k].rest != children[i].rest)
  }

  /** Below one parent, distinct literal children give distinct literal patterns, so each is reached. */
  lemma ChildReached(prefix: string, guard: Guard, children: seq<Child>, n: nat, i: nat)
    requires DistinctLitChildren(children, n) && i < n
    ensures var r := Children(prefix, guard, children);
      AllLit(r[i].pattern) && FirstMatch(r, Texts(r[i].pattern)) == Some(r[i])
  {
    var r := Children(prefix, guard, children);
    forall k | 0 <= k <= i ensures AllLit(r[k].pattern) {
      assert r[k].pattern == [Lit(prefix)] + children[k].rest;
    }
    forall k | 0 <= k < i ensures r[k].pattern != r[i].pattern {
      assert r[k].pattern[1..] == children[k].rest;
      assert r[i].pattern[1..] == children[i].rest;
    }
    FirstMatchFromLiteral(r, i, 0, Texts(r[i].pattern));
  }

  lemma AdminChildrenDistinct()
    ensures DistinctLitChildren(AdminChildren(), |AdminChildren()|)
  {
  }

  lemma TenantChildrenDistinct()
    ensures DistinctLitChildren(TenantChildren(), |TenantChildren()|)
  {
  }

  /** Every landlord child but the final splat. */
  lemma LandlordChildrenDistinct()
    ensures DistinctLitChildren(LandlordChildren(), |LandlordChildren()| - 1)
  {
  }

  lemma CaretakerChildrenDistinct()
    ensures DistinctLitChildren(CaretakerChildren(), |CaretakerChildren()|)
  {
  }

  /** Searching a concatenation: the first part's match if it has one, else the second part's. */
  lemma {:induction false} FirstMatchFromConcat(a: seq<Route>, b: seq<Route>, segs: seq<string>, i: nat)
    requires i <= |a|
    ensures FirstMatchFrom(a + b, segs, i)
         == if FirstMatchFrom(a, segs, i).Some? then FirstMatchFrom(a, segs, i) else FirstMatchFrom(b, segs, 0)
    decreases |a| - i
  {
    if i < |a| {
      assert (a + b)[i] == a[i];
      FirstMatchFromConcat(a, b, segs, i + 1);
    } else {
      FirstMatchShift(a, b, segs, 0);
    }
  }

  /** Searching `a + b` past the end of `a` is searching `b`. */
  lemma {:induction false} FirstMatchShift(a: seq<Route>, b: seq<Route>, segs: seq<string>, k: nat)
    requires k <= |b|
    ensures FirstMatchFrom(a + b, segs, |a| + k) == FirstMatchFrom(b, segs, k)
    decreases |b| - k
  {
    if k < |b| {
      assert (a + b)[|a| + k] == b[k];
      FirstMatchShift(a, b, segs, k + 1);
    }
  }

  lemma FirstMatchConcat(a: seq<Route>, b: seq<Route>, segs: seq<string>)
    ensures FirstMatch(a + b, segs) == if FirstMatch(a, segs).Some? then FirstMatch(a, segs) else FirstMatch(b, segs)
  {
    FirstMatchFromConcat(a, b, segs, 0);
  }

  /** Routes that all start with the literal `prefix` cannot match segments that start otherwise. */
  lemma FamilyMisses(routes: seq<Route>, prefix: string, segs: seq<string>)
    requires forall i :: 0 <= i < |routes| ==> routes[i].pattern != [] && routes[i].pattern[0] == Lit(prefix)
    requires segs == [] || segs[0] != prefix
    ensures FirstMatch(routes, segs) == None
  {
  }

  /** The first segments of the public routes other than "/". */
  const PublicFirsts: set<string> :=
    {"splash", "register", "login", "reset-password", "verify-account", "request-reset", "about", "services"}

  /** No public route matches a pathname whose first segment no public route starts with. */
  lemma PublicMisses(segs: seq<string>)
    requires |segs| >= 1
    requires segs[0] !in PublicFirsts
    ensures FirstMatch(PublicRoutes(), segs) == None
  {
    var p := PublicRoutes();
    forall j | 0 <= j < |p| ensures !Matches(p[j].pattern, segs) {
      PublicFirst(j);
    }
  }

  /** The landing page's pattern is empty; every other public pattern starts with a literal from PublicFirsts. */
  lemma PublicFirst(j: nat)
    requires j < |PublicRoutes()|
    ensures j == 0 ==> PublicRoutes()[j].pattern == []
    ensures j > 0 ==> (PublicRoutes()[j].pattern != [] && PublicRoutes()[j].pattern[0].Lit?
      && PublicRoutes()[j].pattern[0].text in PublicFirsts)
  {
    assert PublicRoutes()[j].pattern == PublicChildren()[j].rest;
  }

  /** The table searched family by family. */
  lemma ResolveInFamilies(segs: seq<string>)
    ensures var s := LowerAll(segs);
      Resolve(segs)
      == FirstMatch(PublicRoutes(), s).GetOr(
         FirstMatch(AdminRoutes(), s).GetOr(
         FirstMatch(TenantRoutes(), s).GetOr(
         FirstMatch(LandlordRoutes(), s).GetOr(
         FirstMatch(CaretakerRoutes(), s).GetOr(NotFoundRoute)))))
  {
    FirstMatchOfFive(PublicRoutes(), AdminRoutes(), TenantRoutes(), LandlordRoutes(), CaretakerRoutes(), LowerAll(segs));
  }

  /** Searching five families laid end to end tries them in order. */
  lemma FirstMatchOfFive(p: seq<Route>, a: seq<Route>, t: seq<Route>, l: seq<Route>, c: seq<Route>, s: seq<string>)
    ensures FirstMatch(p + a + t + l + c, s).GetOr(NotFoundRoute)
      == FirstMatch(p, s).GetOr(FirstMatch(a, s).GetOr(FirstMatch(t, s).GetOr(
         FirstMatch(l, s).GetOr(FirstMatch(c, s).GetOr(NotFoundRoute)))))
  {
    assert p + a + t + l + c == p + (a + (t + (l + c)));
    FirstMatchConcat(p, a + (t + (l + c)), s);
    FirstMatchConcat(a, t + (l + c), s);
    FirstMatchConcat(t, l + c, s);
    FirstMatchConcat(l, c, s);
  }

  /** A search that finds something in a family whose routes all carry guard `g` returns a route with guard `g`. */
  lemma GuardOfMatch(routes: seq<Route>, g: Guard, segs: seq<string>)
    requires forall i :: 0 <= i < |routes| ==> routes[i].guard == g
    ensures FirstMatch(routes, segs).Some? ==> FirstMatch(routes, segs).value.guard == g
  {
  }

  /** Every admin route is guarded for "admin", and none matches outside /dashboard and /admin/... */
  lemma AdminFamily(segs: seq<string>)
    ensures FirstMatch(AdminRoutes(), segs).Some? ==> FirstMatch(AdminRoutes(), segs).value.guard == Role("admin")
    ensures |segs| >= 1 && segs[0] != "admin" && segs[0] != "dashboard" ==> FirstMatch(AdminRoutes(), segs) == None
  {
    var c := Children("admin", Role("admin"), AdminChildren());
    FirstMatchConcat([AdminDashboard], c, segs);
    GuardOfMatch(c, Role("admin"), segs);
    if |segs| >= 1 && segs[0] != "admin" {
      FamilyMisses(c, "admin", segs);
    }
  }

  /** No tenant route matches segments that do not start with "tenant". */
  lemma TenantMisses(segs: seq<string>)
    requires segs == [] || segs[0] != "tenant"
    ensures FirstMatch(TenantRoutes(), segs) == None
  {
    FamilyMisses(TenantRoutes(), "tenant", segs);
  }

  /** No landlord route matches segments that do not start with "landlord". */
  lemma LandlordMisses(segs: seq<string>)
    requires segs == [] || segs[0] != "landlord"
    ensures FirstMatch(LandlordRoutes(), segs) == None
  {
    FamilyMisses(LandlordRoutes(), "landlord", segs);
  }

  /** No caretaker route matches segments that do not start with "caretaker". */
  lemma CaretakerMisses(segs: seq<string>)
    requires segs == [] || segs[0] != "caretaker"
    ensures FirstMatch(CaretakerRoutes(), segs) == None
  {
    FamilyMisses(CaretakerRoutes(), "caretaker", segs);
  }

  /** The landlord family ends in a splat, so it catches every pathname under /landlord. */
  lemma LandlordCatches(segs: seq<string>)
    requires |segs| >= 1 && segs[0] == "landlord"
    ensures FirstMatch(LandlordRoutes(), segs).Some?
    ensures FirstMatch(LandlordRoutes(), segs).value.guard == Role("landlord")
  {
    var routes := LandlordRoutes();
    assert routes[14].pattern == [Lit("landlord"), Splat];
    assert Matches(routes[14].pattern, segs);
    GuardOfMatch(routes, Role("landlord"), segs);
  }

  /** Every public route is unguarded. */
  lemma PublicGuards(segs: seq<string>)
    ensures FirstMatch(PublicRoutes(), segs).Some? ==> FirstMatch(PublicRoutes(), segs).value.guard == Public
  {
    GuardOfMatch(PublicRoutes(), Public, segs);
  }

  /** /reset-password selects the public reset form. */
  lemma ResetFormMatch(one: seq<string>)
    requires |one| == 1 && one[0] == "reset-password"
    ensures FirstMatch(PublicRoutes(), one) == Some(Route([Lit("reset-password")], Public, "ResetPasswordForm"))
  {
    var p := PublicRoutes();
    assert p[4].pattern == [Lit("reset-password")];
    assert Matches(p[4].pattern, one);
    assert FirstMatchFrom(p, one, 0) == FirstMatchFrom(p, one, 1);
    assert FirstMatchFrom(p, one, 1) == FirstMatchFrom(p, one, 2);
    assert FirstMatchFrom(p, one, 2) == FirstMatchFrom(p, one, 3);
    assert FirstMatchFrom(p, one, 3) == FirstMatchFrom(p, one, 4);
  }

  /** /reset-password/:token selects the public token reset page. */
  lemma ResetTokenMatch(two: seq<string>)
    requires |two| == 2 && two[0] == "reset-password"
    ensures FirstMatch(PublicRoutes(), two) == Some(Route([Lit("reset-password"), Param], Public, "ResetPassword"))
  {
    var p := PublicRoutes();
    assert p[7].pattern == [Lit("reset-password"), Param];
    assert Matches(p[7].pattern, two);
    assert p[0].pattern == [];
    assert !Matches(p[0].pattern, two);
    assert FirstMatchFrom(p, two, 0) == FirstMatchFrom(p, two, 1);
    assert p[1].pattern == [Lit("splash")];
    assert !Matches(p[1].pattern, two);
    assert FirstMatchFrom(p, two, 1) == FirstMatchFrom(p, two, 2);
    assert p[2].pattern == [Lit("register")];
    assert !Matches(p[2].pattern, two);
    assert FirstMatchFrom(p, two, 2) == FirstMatchFrom(p, two, 3);
    assert p[3].pattern == [Lit("login")];
    assert !Matches(p[3].pattern, two);
    assert FirstMatchFrom(p, two, 3) == FirstMatchFrom(p, two, 4);
    assert p[4].pattern == [Lit("reset-password")];
    assert !Matches(p[4].pattern, two);
    assert FirstMatchFrom(p, two, 4) == FirstMatchFrom(p, two, 5);
    assert p[5].pattern == [Lit("verify-account"), Param];
    assert !Matches(p[5].pattern, two);
    assert FirstMatchFrom(p, two, 5) == FirstMatchFrom(p, two, 6);
    assert p[6].pattern == [Lit("request-reset")];
    assert !Matches(p[6].pattern, two);
    assert FirstMatchFrom(p, two, 6) == FirstMatchFrom(p, two, 7);
  }

  /** Segments that start with none of the public first segments and are not "/" miss every public route. */
  lemma PublicMissesLower(segs: seq<string>, first: string)
    requires |segs| >= 1 && Lower(segs[0]) == first
    requires first in {"dashboard", "admin", "tenant", "landlord", "caretaker", "unauthorized", "aboutus"}
    ensures FirstMatch(PublicRoutes(), LowerAll(segs)) == None
  {
    PublicMisses(LowerAll(segs));
  }
}

/**
 * Which role each part of the route table demands, stated over every
 * pathname with the given first segment.
 */
module RouteAccess {
  import opened AppRoutes
  import opened Text
  import opened Outcomes
  import opened ProtectedRoute
  import Json

  /**
   * /dashboard and every /admin/... path is guarded for role "admin", or is
   * unlisted and shows NotFound; a declared admin path shows its own page.
   */
  lemma AdminPathsNeedAdmin(segs: seq<string>)
    requires |segs| >= 1 && (Lower(segs[0]) == "admin" || Lower(segs[0]) == "dashboard")
    ensures Resolve(segs).guard == Role("admin") || Resolve(segs) == NotFoundRoute
    ensures forall i :: 0 <= i < |AdminRoutes()| && Matches(AdminRoutes()[i].pattern, LowerAll(segs)) ==>
      Resolve(segs) == AdminRoutes()[i]
  {
    var s := LowerAll(segs);
    var p, a, t, l, c := FirstMatch(PublicRoutes(), s), FirstMatch(AdminRoutes(), s),
      FirstMatch(TenantRoutes(), s), FirstMatch(LandlordRoutes(), s), FirstMatch(CaretakerRoutes(), s);
    PublicMissesLower(segs, s[0]);
    AdminFamily(s);
    TenantMisses(s);
    LandlordMisses(s);
    CaretakerMisses(s);
    assert p == None && t == None && l == None && c == None;
    ResolveInFamilies(segs);
    forall i | 0 <= i < |AdminRoutes()| && Matches(AdminRoutes()[i].pattern, s)
      ensures Resolve(segs) == AdminRoutes()[i]
    {
      AdminRouteReached(i, s);
    }
  }

  /** The search of the admin family reaches each admin route at the path it spells out. */
  lemma AdminRouteReached(i: nat, s: seq<string>)
    requires i < |AdminRoutes()| && Matches(AdminRoutes()[i].pattern, s)
    ensures FirstMatch(AdminRoutes(), s) == Some(AdminRoutes()[i])
  {
    var c := Children("admin", Role("admin"), AdminChildren());
    assert AdminRoutes() == [AdminDashboard] + c;
    FirstMatchConcat([AdminDashboard], c, s);
    if i == 0 {
      assert FirstMatch([AdminDashboard], s) == Some(AdminDashboard);
    } else {
      AdminChildrenDistinct();
      ChildReached("admin", Role("admin"), AdminChildren(), |AdminChildren()|, i - 1);
      assert AdminRoutes()[i] == c[i - 1];
      LitMatches(c[i - 1].pattern, s);
      assert s[0] == "admin";
      assert !Matches(AdminDashboard.pattern, s);
    }
  }

  /**
   * At a declared admin path only a signed-in admin sees the page; any
   * other signed-in user is sent to /unauthorized, and a visitor to /login.
   */
  lemma AdminVisit(segs: seq<string>, i: nat, loading: bool, user: Json.Value)
    requires i < |AdminRoutes()| && Matches(AdminRoutes()[i].pattern, LowerAll(segs))
    ensures Resolve(segs) == AdminRoutes()[i] && AdminRoutes()[i].guard == Role("admin")
    ensures Visit(segs, loading, user) == RenderChildren <==> !loading && Json.Truthy(user) && HasRole(user, "admin")
    ensures !loading && Json.Truthy(user) && !HasRole(user, "admin") ==> Visit(segs, loading, user) == Redirect("/unauthorized")
    ensures !loading && !Json.Truthy(user) ==> Visit(segs, loading, user) == Redirect("/login")
  {
    var s := LowerAll(segs);
    var r := AdminRoutes()[i];
    assert r.pattern != [] && r.pattern[0].Lit? && (r.pattern[0].text == "admin" || r.pattern[0].text == "dashboard") by {
      if i > 0 {
        assert r.pattern == [Lit("admin")] + AdminChildren()[i - 1].rest;
      }
    }
    assert |segs| >= 1 && Lower(segs[0]) == s[0];
    AdminPathsNeedAdmin(segs);
    assert r.guard == Role("admin") by {
      if i > 0 {
        assert r == Children("admin", Role("admin"), AdminChildren())[i - 1];
      }
    }
  }

  /** /tenant and its children need only a signed-in user, of any role; unlisted children show NotFound. */
  lemma TenantPathsNeedAnyUser(segs: seq<string>)
    requires |segs| >= 1 && Lower(segs[0]) == "tenant"
    ensures Resolve(segs).guard == AnyUser || Resolve(segs) == NotFoundRoute
    ensures forall i :: 0 <= i < |TenantRoutes()| && Matches(TenantRoutes()[i].pattern, LowerAll(segs)) ==>
      Resolve(segs) == TenantRoutes()[i]
  {
    var s := LowerAll(segs);
    var p, a, t, l, c := FirstMatch(PublicRoutes(), s), FirstMatch(AdminRoutes(), s),
      FirstMatch(TenantRoutes(), s), FirstMatch(LandlordRoutes(), s), FirstMatch(CaretakerRoutes(), s);
    PublicMissesLower(segs, s[0]);
    AdminFamily(s);
    GuardOfMatch(TenantRoutes(), AnyUser, s);
    LandlordMisses(s);
    CaretakerMisses(s);
    assert p == None && a == None && l == None && c == None;
    ResolveInFamilies(segs);
    forall i | 0 <= i < |TenantRoutes()| && Matches(TenantRoutes()[i].pattern, s)
      ensures Resolve(segs) == TenantRoutes()[i]
    {
      TenantChildrenDistinct();
      ChildReached("tenant", AnyUser, TenantChildren(), |TenantChildren()|, i);
      LitMatches(TenantRoutes()[i].pattern, s);
    }
  }

  /**
   * At a declared tenant path every signed-in user sees the page, whatever
   * the role: a landlord, a caretaker or an admin gets in as a tenant does.
   */
  lemma TenantVisit(segs: seq<string>, i: nat, loading: bool, user: Json.Value)
    requires i < |TenantRoutes()| && Matches(TenantRoutes()[i].pattern, LowerAll(segs))
    ensures Resolve(segs) == TenantRoutes()[i] && TenantRoutes()[i].guard == AnyUser
    ensures Visit(segs, loading, user) == RenderChildren <==> !loading && Json.Truthy(user)
    ensures !loading && HasRole(user, "landlord") ==> Visit(segs, loading, user) == RenderChildren
    ensures !loading && !Json.Truthy(user) ==> Visit(segs, loading, user) == Redirect("/login")
  {
    var s := LowerAll(segs);
    var r := TenantRoutes()[i];
    assert r.pattern == [Lit("tenant")] + TenantChildren()[i].rest;
    assert |segs| >= 1 && Lower(segs[0]) == s[0];
    TenantPathsNeedAnyUser(segs);
  }

  /** Every /landlord/... path, listed or not, is guarded for role "landlord"; unlisted ones show NotFound inside the guard. */
  lemma LandlordPathsNeedLandlord(segs: seq<string>)
    requires |segs| >= 1 && Lower(segs[0]) == "landlord"
    ensures Resolve(segs).guard == Role("landlord")
    ensures Resolve(segs) in LandlordRoutes()
    ensures forall i :: 0 <= i < |LandlordRoutes()| - 1 && Matches(LandlordRoutes()[i].pattern, LowerAll(segs)) ==>
      Resolve(segs) == LandlordRoutes()[i]
  {
    var s := LowerAll(segs);
    var p, a, t, l, c := FirstMatch(PublicRoutes(), s), FirstMatch(AdminRoutes(), s),
      FirstMatch(TenantRoutes(), s), FirstMatch(LandlordRoutes(), s), FirstMatch(CaretakerRoutes(), s);
    PublicMissesLower(segs, s[0]);
    AdminFamily(s);
    TenantMisses(s);
    LandlordCatches(s);
    assert p == None && a == None && t == None && l.Some?;
    ResolveInFamilies(segs);
    forall i | 0 <= i < |LandlordRoutes()| - 1 && Matches(LandlordRoutes()[i].pattern, s)
      ensures Resolve(segs) == LandlordRoutes()[i]
    {
      LandlordChildrenDistinct();
      ChildReached("landlord", Role("landlord"), LandlordChildren(), |LandlordChildren()| - 1, i);
      LitMatches(LandlordRoutes()[i].pattern, s);
    }
  }

  /**
   * Under /landlord, listed or not, only a signed-in landlord gets past the
   * guard; any other signed-in user is sent to /unauthorized.
   */
  lemma LandlordVisit(segs: seq<string>, loading: bool, user: Json.Value)
    requires |segs| >= 1 && Lower(segs[0]) == "landlord"
    ensures Visit(segs, loading, user) == RenderChildren <==> !loading && Json.Truthy(user) && HasRole(user, "landlord")
    ensures !loading && Json.Truthy(user) && !HasRole(user, "landlord") ==> Visit(segs, loading, user) == Redirect("/unauthorized")
    ensures !loading && !Json.Truthy(user) ==> Visit(segs, loading, user) == Redirect("/login")
  {
    LandlordPathsNeedLandlord(segs);
  }

  /** Every /caretaker/... path is guarded for role "caretaker", or is unlisted and shows NotFound with no guard. */
  lemma CaretakerPathsNeedCaretaker(segs: seq<string>)
    requires |segs| >= 1 && Lower(segs[0]) == "caretaker"
    ensures Resolve(segs).guard == Role("caretaker") || Resolve(segs) == NotFoundRoute
    ensures forall i :: 0 <= i < |CaretakerRoutes()| && Matches(CaretakerRoutes()[i].pattern, LowerAll(segs)) ==>
      Resolve(segs) == CaretakerRoutes()[i]
  {
    var s := LowerAll(segs);
    var p, a, t, l, c := FirstMatch(PublicRoutes(), s), FirstMatch(AdminRoutes(), s),
      FirstMatch(TenantRoutes(), s), FirstMatch(LandlordRoutes(), s), FirstMatch(CaretakerRoutes(), s);
    PublicMissesLower(segs, s[0]);
    AdminFamily(s);
    TenantMisses(s);
    LandlordMisses(s);
    GuardOfMatch(CaretakerRoutes(), Role("caretaker"), s);
    assert p == None && a == None && t == None && l == None;
    ResolveInFamilies(segs);
    forall i | 0 <= i < |CaretakerRoutes()| && Matches(CaretakerRoutes()[i].pattern, s)
      ensures Resolve(segs) == CaretakerRoutes()[i]
    {
      CaretakerChildrenDistinct();
      ChildReached("caretaker", Role("caretaker"), CaretakerChildren(), |CaretakerChildren()|, i);
      LitMatches(CaretakerRoutes()[i].pattern, s);
    }
  }

  /**
   * At a declared caretaker path only a signed-in caretaker sees the page;
   * any other signed-in user is sent to /unauthorized.
   */
  lemma CaretakerVisit(segs: seq<string>, i: nat, loading: bool, user: Json.Value)
    requires i < |CaretakerRoutes()| && Matches(CaretakerRoutes()[i].pattern, LowerAll(segs))
    ensures Resolve(segs) == CaretakerRoutes()[i] && CaretakerRoutes()[i].guard == Role("caretaker")
    ensures Visit(segs, loading, user) == RenderChildren <==> !loading && Json.Truthy(user) && HasRole(user, "caretaker")
    ensures !loading && Json.Truthy(user) && !HasRole(user, "caretaker") ==> Visit(segs, loading, user) == Redirect("/unauthorized")
    ensures !loading && !Json.Truthy(user) ==> Visit(segs, loading, user) == Redirect("/login")
  {
    var s := LowerAll(segs);
    var r := CaretakerRoutes()[i];
    assert r.pattern == [Lit("caretaker")] + CaretakerChildren()[i].rest;
    assert |segs| >= 1 && Lower(segs[0]) == s[0];
    CaretakerPathsNeedCaretaker(segs);
  }

  /** A public path shows its page to everyone, signed in or not, even while the session loads. */
  lemma PublicVisit(segs: seq<string>, loading: bool, user: Json.Value)
    requires FirstMatch(PublicRoutes(), LowerAll(segs)).Some?
    ensures Visit(segs, loading, user) == RenderChildren
  {
    PublicPathsUnguarded(segs);
  }

  /** A single segment that no route declares resolves to the unguarded catch-all. */
  lemma UndeclaredTopLevel(segs: seq<string>)
    requires |segs| == 1 && Lower(segs[0]) in {"unauthorized", "aboutus"}
    ensures Resolve(segs) == NotFoundRoute
  {
    var s := LowerAll(segs);
    var p, a, t, l, c := FirstMatch(PublicRoutes(), s), FirstMatch(AdminRoutes(), s),
      FirstMatch(TenantRoutes(), s), FirstMatch(LandlordRoutes(), s), FirstMatch(CaretakerRoutes(), s);
    PublicMissesLower(segs, s[0]);
    AdminFamily(s);
    TenantMisses(s);
    LandlordMisses(s);
    CaretakerMisses(s);
    assert p == None && a == None && t == None && l == None && c == None;
    ResolveInFamilies(segs);
  }

  /**
   * The guard's forbidden redirect has nowhere to go: /unauthorized is not
   * declared, so it shows the unguarded NotFound page.
   */
  lemma UnauthorizedLandsOnNotFound(segs: seq<string>, loading: bool, user: Json.Value)
    requires |segs| == 1 && Lower(segs[0]) == "unauthorized"
    ensures Resolve(segs) == NotFoundRoute
    ensures Visit(segs, loading, user) == RenderChildren
  {
    UndeclaredTopLevel(segs);
    assert NotFoundRoute.guard == Public;
  }

  /** A pathname that some public route matches is rendered with no guard at all. */
  lemma PublicPathsUnguarded(segs: seq<string>)
    requires FirstMatch(PublicRoutes(), LowerAll(segs)).Some?
    ensures Resolve(segs).guard == Public
    ensures Resolve(segs) in PublicRoutes()
    ensures Resolve(segs) == FirstMatch(PublicRoutes(), LowerAll(segs)).value
  {
    var s := LowerAll(segs);
    var p := FirstMatch(PublicRoutes(), s);
    PublicGuards(s);
    ResolveInFamilies(segs);
    assert Resolve(segs) == p.value;
  }

  lemma LowerOfLowerCase(s: string)
    requires forall i :: 0 <= i < |s| ==> !IsUpper(s[i])
    ensures Lower(s) == s
  {
  }

  /** /reset-password, with no token, shows the public reset form (the page that reads a token it never gets). */
  lemma ResetPasswordFormRoute(segs: seq<string>)
    requires |segs| == 1 && Lower(segs[0]) == "reset-password"
    ensures Resolve(segs) == Route([Lit("reset-password")], Public, "ResetPasswordForm")
  {
    ResetFormMatch(LowerAll(segs));
    PublicPathsUnguarded(segs);
  }

  /** /reset-password/:token shows the other, token-taking reset page, also public. */
  lemma ResetPasswordTokenRoute(segs: seq<string>)
    requires |segs| == 2 && Lower(segs[0]) == "reset-password"
    ensures Resolve(segs) == Route([Lit("reset-password"), Param], Public, "ResetPassword")
  {
    ResetTokenMatch(LowerAll(segs));
    PublicPathsUnguarded(segs);
  }
}
