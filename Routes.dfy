/** The route tree of the application (src/App.tsx) as a static table from path
    patterns to the guards that wrap the page and the page itself.

    A guard is the `ProtectedRoute` wrapper with its optional `allowedRoles` list.
    Only its role-membership rule is modelled, the same rule the sidebar applies to
    its links: a guard with no list admits every viewer, a guard with a list admits
    a viewer whose role is in it. */
module Routes {
  import opened Types

  /** The page a route renders. `EmptyOutlet` is a layout route matched on its own
      path (`/teacher`, `/settings`): the layout with no child page in its outlet. */
  datatype Page =
    | Landing | Login | Signup
    | DashboardHome | CourseCatalogue | CourseDetails | CartPage | MyCourses
    | StudentAdmin | TeacherAdmin
    | CreateCourse | TeacherSessions
    | ProfileSettings
    | EmptyOutlet
    | NotFound

  /** A `ProtectedRoute`; `None` when it has no `allowedRoles`. */
  datatype Guard = Guard(allowedRoles: Option<set<Role>>)

  /** Path patterns: a literal path, a literal prefix followed by one `:id` segment,
      or the catch-all `*`. */
  datatype Pattern = Exact(path: string) | WithParam(prefix: string) | AnyPath

  /** A route: its pattern, the guards around its page from outermost to innermost,
      and the page. */
  datatype RouteDef = RouteDef(pattern: Pattern, guards: seq<Guard>, page: Page)

  /** The result of resolving a path: the guards, the page and the `:id` parameter. */
  datatype Route = Route(guards: seq<Guard>, page: Page, param: Option<string>)

  const Open := Guard(None)

  function Only(roles: set<Role>): Guard
  {
    Guard(Some(roles))
  }

  /** The routes in declaration order, children flattened under their parents'
      guards; the catch-all is declared last. */
  const RouteTable: seq<RouteDef> := [
    RouteDef(Exact("/"), [], Landing),
    RouteDef(Exact("/auth/login"), [], Login),
    RouteDef(Exact("/auth/signup"), [], Signup),
    RouteDef(Exact("/dashboard"), [Open], DashboardHome),
    RouteDef(Exact("/dashboard/courses"), [Open], CourseCatalogue),
    RouteDef(WithParam("/dashboard/courses/"), [Open], CourseDetails),
    RouteDef(Exact("/dashboard/cart"), [Open, Only({Student})], CartPage),
    RouteDef(Exact("/dashboard/my-courses"), [Open, Only({Student})], MyCourses),
    RouteDef(Exact("/dashboard/admin/students"), [Open, Only({AdminStudent, SuperAdmin})], StudentAdmin),
    RouteDef(Exact("/dashboard/admin/teachers"), [Open, Only({AdminTeacher, SuperAdmin})], TeacherAdmin),
    RouteDef(Exact("/teacher"), [Only({Teacher})], EmptyOutlet),
    RouteDef(Exact("/teacher/create-course"), [Only({Teacher})], CreateCourse),
    RouteDef(Exact("/teacher/sessions"), [Only({Teacher})], TeacherSessions),
    RouteDef(Exact("/settings"), [Open], EmptyOutlet),
    RouteDef(Exact("/settings/profile"), [Open], ProfileSettings),
    RouteDef(AnyPath, [], NotFound)
  ]

  /** One path segment: non-empty and free of `/`. */
  predicate IsSegment(s: string)
  {
    |s| > 0 && forall i :: 0 <= i < |s| ==> s[i] != '/'
  }

  /** A literal matches only itself, the catch-all matches every path, and a prefix
      pattern matches exactly the paths made of the prefix followed by one segment. */
  predicate Matches(pat: Pattern, path: string)
    ensures pat.Exact? ==> (Matches(pat, path) <==> path == pat.path)
    ensures pat.AnyPath? ==> Matches(pat, path)
    ensures pat.WithParam? ==>
      (Matches(pat, path) <==> exists id :: IsSegment(id) && path == pat.prefix + id)
  {
    match pat
    case Exact(p) => path == p
    case WithParam(prefix) =>
      var m := |prefix| <= |path| && path[..|prefix|] == prefix && IsSegment(path[|prefix|..]);
      assert m ==> path == prefix + path[|prefix|..];
      assert forall id :: path == prefix + id ==> path[..|prefix|] == prefix && path[|prefix|..] == id;
      m
    case AnyPath => true
  }

  /** The index of the first route whose pattern matches `path`. */
  function FirstMatch(defs: seq<RouteDef>, path: string): (i: nat)
    requires |defs| > 0 && defs[|defs| - 1].pattern == AnyPath
    ensures i < |defs| && Matches(defs[i].pattern, path)
    ensures forall j :: 0 <= j < i ==> !Matches(defs[j].pattern, path)
  {
    if Matches(defs[0].pattern, path) then 0
    else 1 + FirstMatch(defs[1..], path)
  }

  /** What the router renders for `path`. */
  function Resolve(path: string): (r: Route)
    ensures exists i :: 0 <= i < |RouteTable| && Matches(RouteTable[i].pattern, path)
              && r.guards == RouteTable[i].guards && r.page == RouteTable[i].page
  {
    var i := FirstMatch(RouteTable, path);
    var d := RouteTable[i];
    var param := match d.pattern
      case WithParam(prefix) => Some(path[|prefix|..])
      case _ => None;
    Route(d.guards, d.page, param)
  }

  /** The guard rule: no role list admits everyone, the signed-out viewer included; a
      list admits exactly the signed-in viewers whose role it holds. */
  predicate Admits(g: Guard, viewer: Option<Role>)
    ensures g.allowedRoles.None? ==> Admits(g, viewer)
    ensures g.allowedRoles.Some? && viewer.None? ==> !Admits(g, viewer)
    ensures g.allowedRoles.Some? && viewer.Some? ==>
      (Admits(g, viewer) <==> viewer.value in g.allowedRoles.value)
  {
    g.allowedRoles.None? || (viewer.Some? && viewer.value in g.allowedRoles.value)
  }

  /** The roles a stack of guards lets through: `None` when no guard has a role
      list, otherwise the intersection of the lists. */
  function Restriction(guards: seq<Guard>): (r: Option<set<Role>>)
    ensures r.None? <==> forall i :: 0 <= i < |guards| ==> guards[i].allowedRoles.None?
  {
    if guards == [] then None
    else
      var rest := Restriction(guards[1..]);
      match guards[0].allowedRoles
      case None => rest
      case Some(s) => if rest.None? then Some(s) else Some(s * rest.value)
  }

  /** Nested guards, outermost first, let the page through when each admits the viewer;
      the stack behaves like the single guard of its combined restriction. */
  predicate Permits(guards: seq<Guard>, viewer: Option<Role>)
    ensures Permits(guards, viewer) <==> forall i :: 0 <= i < |guards| ==> Admits(guards[i], viewer)
    ensures Permits(guards, viewer) <==> Admits(Guard(Restriction(guards)), viewer)
    decreases |guards|
  {
    if guards == [] then true
    else
      assert forall i :: 0 < i < |guards| ==> guards[i] == guards[1..][i - 1];
      Admits(guards[0], viewer) && Permits(guards[1..], viewer)
  }

  /** Routes with a page other than `NotFound` are matched before the catch-all, and
      a path reaches `NotFound` exactly when no declared route matches it. */
  lemma CatchAllIsLast(path: string)
    ensures Resolve(path).page == NotFound <==>
      forall j :: 0 <= j < |RouteTable| - 1 ==> !Matches(RouteTable[j].pattern, path)
    ensures Resolve(path).page == NotFound ==> Resolve(path).guards == []
  {
    var i := FirstMatch(RouteTable, path);
    assert forall j :: 0 <= j < |RouteTable| - 1 ==> RouteTable[j].page != NotFound;
  }

  /** The first route whose pattern matches a path is the one rendered. */
  lemma ResolvesTo(path: string, i: nat)
    requires i < |RouteTable| && Matches(RouteTable[i].pattern, path)
    requires forall j :: 0 <= j < i ==> !Matches(RouteTable[j].pattern, path)
    ensures Resolve(path).guards == RouteTable[i].guards
    ensures Resolve(path).page == RouteTable[i].page
    ensures RouteTable[i].pattern.Exact? ==> Resolve(path).param == None
    ensures RouteTable[i].pattern.WithParam? ==>
      Resolve(path).param == Some(path[|RouteTable[i].pattern.prefix|..])
  {
    var k := FirstMatch(RouteTable, path);
    assert !(k < i) && !(i < k);
  }

  /** The landing page and the authentication pages are not guarded. */
  lemma PublicRoutesAreUnguarded()
    ensures Resolve("/") == Route([], Landing, None)
    ensures Resolve("/auth/login") == Route([], Login, None)
    ensures Resolve("/auth/signup") == Route([], Signup, None)
  {
    LandingRoute();
    LoginRoute();
    SignupRoute();
  }

  lemma LandingRoute()
    ensures Resolve("/") == Route([], Landing, None)
  {
    ResolvesTo("/", 0);
  }

  lemma LoginRoute()
    ensures Resolve("/auth/login") == Route([], Login, None)
  {
    ResolvesTo("/auth/login", 1);
  }

  lemma SignupRoute()
    ensures Resolve("/auth/signup") == Route([], Signup, None)
  {
    ResolvesTo("/auth/signup", 2);
  }

  /** A path that differs from `prefix` at position `k` does not extend it. */
  lemma NotUnderPrefix(path: string, prefix: string, k: nat)
    requires k < |prefix| && k < |path| && path[k] != prefix[k]
    ensures !Matches(WithParam(prefix), path)
  {
    if |prefix| <= |path| {
      assert path[..|prefix|][k] != prefix[k];
    }
  }

  /** The dashboard index sits under the dashboard's guard, which has no role list. */
  lemma DashboardRoute()
    ensures Resolve("/dashboard") == Route([Open], DashboardHome, None)
  {
    ResolvesTo("/dashboard", 3);
  }

  /** The catalogue adds no guard of its own to the dashboard's. */
  lemma CatalogueRoute()
    ensures Resolve("/dashboard/courses") == Route([Open], CourseCatalogue, None)
  {
    ResolvesTo("/dashboard/courses", 4);
  }

  /** A course page `/dashboard/courses/:id` carries its id and adds no guard of its
      own to the dashboard's. */
  lemma CourseDetailsRoute(id: string)
    requires IsSegment(id)
    ensures Resolve("/dashboard/courses/" + id) == Route([Open], CourseDetails, Some(id))
  {
    var p := "/dashboard/courses/" + id;
    assert p[..|"/dashboard/courses/"|] == "/dashboard/courses/";
    assert p[|"/dashboard/courses/"|..] == id;
    assert p[18] == '/';
    ResolvesTo(p, 5);
  }

  /** The cart adds, inside the dashboard's guard, a guard that admits only
      students. */
  lemma CartRoute()
    ensures Resolve("/dashboard/cart") == Route([Open, Only({Student})], CartPage, None)
  {
    NotUnderPrefix("/dashboard/cart", "/dashboard/courses/", 12);
    ResolvesTo("/dashboard/cart", 6);
  }

  /** The enrolled-courses page adds, inside the dashboard's guard, a guard that admits
      only students. */
  lemma MyCoursesRoute()
    ensures Resolve("/dashboard/my-courses") == Route([Open, Only({Student})], MyCourses, None)
  {
    NotUnderPrefix("/dashboard/my-courses", "/dashboard/courses/", 11);
    ResolvesTo("/dashboard/my-courses", 7);
  }

  /** The student administration page adds, inside the dashboard's guard, a guard that
      admits the student admin and the super admin. */
  lemma StudentAdminRoute()
    ensures Resolve("/dashboard/admin/students")
      == Route([Open, Only({AdminStudent, SuperAdmin})], StudentAdmin, None)
  {
    NotUnderPrefix("/dashboard/admin/students", "/dashboard/courses/", 11);
    ResolvesTo("/dashboard/admin/students", 8);
  }

  /** The teacher administration page adds, inside the dashboard's guard, a guard that
      admits the teacher admin and the super admin. */
  lemma TeacherAdminRoute()
    ensures Resolve("/dashboard/admin/teachers")
      == Route([Open, Only({AdminTeacher, SuperAdmin})], TeacherAdmin, None)
  {
    NotUnderPrefix("/dashboard/admin/teachers", "/dashboard/courses/", 11);
    ResolvesTo("/dashboard/admin/teachers", 9);
  }

  /** Course creation sits under the teacher section's guard, which admits only
      teachers. */
  lemma CreateCourseRoute()
    ensures Resolve("/teacher/create-course") == Route([Only({Teacher})], CreateCourse, None)
  {
    NotUnderPrefix("/teacher/create-course", "/dashboard/courses/", 1);
    ResolvesTo("/teacher/create-course", 11);
  }

  /** The sessions page sits under the same teacher-only guard. */
  lemma TeacherSessionsRoute()
    ensures Resolve("/teacher/sessions") == Route([Only({Teacher})], TeacherSessions, None)
  {
    NotUnderPrefix("/teacher/sessions", "/dashboard/courses/", 1);
    ResolvesTo("/teacher/sessions", 12);
  }

  /** The profile page sits under a guard with no role list. */
  lemma ProfileRoute()
    ensures Resolve("/settings/profile") == Route([Open], ProfileSettings, None)
  {
    NotUnderPrefix("/settings/profile", "/dashboard/courses/", 1);
    ResolvesTo("/settings/profile", 14);
  }

  /** No route is declared for the checkout path that the cart and the course page
      navigate to, so it renders the catch-all page. */
  lemma CheckoutIsNotFound()
    ensures Resolve("/dashboard/checkout") == Route([], NotFound, None)
  {
    NotUnderPrefix("/dashboard/checkout", "/dashboard/courses/", 12);
    ResolvesTo("/dashboard/checkout", 15);
  }

  /** The teacher section's layout route, matched on its own path, renders an empty
      outlet under the teacher-only guard. */
  lemma TeacherLayoutRoute()
    ensures Resolve("/teacher") == Route([Only({Teacher})], EmptyOutlet, None)
  {
    ResolvesTo("/teacher", 10);
  }

  /** The settings layout route, matched on its own path, renders an empty outlet
      under a guard with no role list. */
  lemma SettingsLayoutRoute()
    ensures Resolve("/settings") == Route([Open], EmptyOutlet, None)
  {
    NotUnderPrefix("/settings", "/dashboard/courses/", 1);
    ResolvesTo("/settings", 13);
  }

  /** Every path under the course prefix, not only those built from a segment, renders
      the course page. */
  lemma CourseDetailsMatched(path: string)
    requires Matches(WithParam("/dashboard/courses/"), path)
    ensures Resolve(path) == Route([Open], CourseDetails, Some(path[19..]))
  {
    assert |path| > 19;
    ResolvesTo(path, 5);
  }

  /** No two declared routes before the catch-all match the same path, so whichever
      of them a path matches is the one rendered, whatever their order. */
  lemma MatchedRouteIsResolved(path: string, i: nat)
    requires i < |RouteTable| - 1 && Matches(RouteTable[i].pattern, path)
    ensures Resolve(path).guards == RouteTable[i].guards
    ensures Resolve(path).page == RouteTable[i].page
  {
    if i < 8 {
      DashboardEntryIsResolved(path, i);
    } else {
      SectionEntryIsResolved(path, i);
    }
  }

  lemma DashboardEntryIsResolved(path: string, i: nat)
    requires i < 8 && Matches(RouteTable[i].pattern, path)
    ensures Resolve(path).guards == RouteTable[i].guards
    ensures Resolve(path).page == RouteTable[i].page
  {
    match i
    case 0 =>
      assert RouteTable[0] == RouteDef(Exact("/"), [], Landing);
      PublicRoutesAreUnguarded();
    case 1 =>
      assert RouteTable[1] == RouteDef(Exact("/auth/login"), [], Login);
      PublicRoutesAreUnguarded();
    case 2 =>
      assert RouteTable[2] == RouteDef(Exact("/auth/signup"), [], Signup);
      PublicRoutesAreUnguarded();
    case 3 =>
      assert RouteTable[3] == RouteDef(Exact("/dashboard"), [Open], DashboardHome);
      DashboardRoute();
    case 4 =>
      assert RouteTable[4] == RouteDef(Exact("/dashboard/courses"), [Open], CourseCatalogue);
      CatalogueRoute();
    case 5 =>
      assert RouteTable[5] == RouteDef(WithParam("/dashboard/courses/"), [Open], CourseDetails);
      CourseDetailsMatched(path);
    case 6 =>
      assert RouteTable[6] == RouteDef(Exact("/dashboard/cart"), [Open, Only({Student})], CartPage);
      CartRoute();
    case 7 =>
      assert RouteTable[7] == RouteDef(Exact("/dashboard/my-courses"), [Open, Only({Student})], MyCourses);
      MyCoursesRoute();
  }

  lemma SectionEntryIsResolved(path: string, i: nat)
    requires 8 <= i < |RouteTable| - 1 && Matches(RouteTable[i].pattern, path)
    ensures Resolve(path).guards == RouteTable[i].guards
    ensures Resolve(path).page == RouteTable[i].page
  {
    match i
    case 8 =>
      assert RouteTable[8] ==
        RouteDef(Exact("/dashboard/admin/students"), [Open, Only({AdminStudent, SuperAdmin})], StudentAdmin);
      StudentAdminRoute();
    case 9 =>
      assert RouteTable[9] ==
        RouteDef(Exact("/dashboard/admin/teachers"), [Open, Only({AdminTeacher, SuperAdmin})], TeacherAdmin);
      TeacherAdminRoute();
    case 10 =>
      assert RouteTable[10] == RouteDef(Exact("/teacher"), [Only({Teacher})], EmptyOutlet);
      TeacherLayoutRoute();
    case 11 =>
      assert RouteTable[11] == RouteDef(Exact("/teacher/create-course"), [Only({Teacher})], CreateCourse);
      CreateCourseRoute();
    case 12 =>
      assert RouteTable[12] == RouteDef(Exact("/teacher/sessions"), [Only({Teacher})], TeacherSessions);
      TeacherSessionsRoute();
    case 13 =>
      assert RouteTable[13] == RouteDef(Exact("/settings"), [Open], EmptyOutlet);
      SettingsLayoutRoute();
    case 14 =>
      assert RouteTable[14] == RouteDef(Exact("/settings/profile"), [Open], ProfileSettings);
      ProfileRoute();
  }
}
