/** The dashboard's navigation sidebar (src/components/layout/DashboardSidebar.tsx):
    a fixed list of links, each with an optional list of role names, filtered by the
    current user's role. */
module Sidebar {
  import opened Types
  import opened Seqs
  import opened Routes

  /** A link: its title, its target path and the role names it is shown to
      (`None` when the link is shown to everyone). */
  datatype NavItem = NavItem(title: string, href: string, roles: Option<seq<string>>)

  const DashboardLink := NavItem("Dashboard", "/dashboard", None)
  const CoursesLink := NavItem("Courses", "/dashboard/courses", None)
  const MyCoursesLink := NavItem("My Courses", "/dashboard/my-courses", Some(["STUDENT"]))
  const CartLink := NavItem("Cart", "/dashboard/cart", Some(["STUDENT"]))
  const CreateCourseLink := NavItem("Create Course", "/teacher/create-course", Some(["TEACHER"]))
  const SessionsLink := NavItem("My Sessions", "/teacher/sessions", Some(["TEACHER"]))
  const StudentsLink := NavItem("Students", "/dashboard/admin/students", Some(["ADMIN_STUDENT", "SUPERADMIN"]))
  const TeachersLink := NavItem("Teachers", "/dashboard/admin/teachers", Some(["ADMIN_TEACHER", "SUPERADMIN"]))
  const SettingsLink := NavItem("Settings", "/settings/profile", None)

  /** `navItems`, in display order. */
  const NavItems: seq<NavItem> := [
    DashboardLink, CoursesLink, MyCoursesLink, CartLink, CreateCourseLink,
    SessionsLink, StudentsLink, TeachersLink, SettingsLink
  ]

  /** `!item.roles || item.roles.includes(key)`: a link without a list is shown to
      everyone, and a link whose list names only roles is hidden from a key that is
      no role's name, such as the empty key of a viewer who is not signed in. */
  predicate Shown(item: NavItem, key: string)
    ensures item.roles.None? ==> Shown(item, key)
    ensures item.roles.Some? && ParseRole(key).None?
      && (forall j :: 0 <= j < |item.roles.value| ==> ParseRole(item.roles.value[j]).Some?)
      ==> !Shown(item, key)
  {
    item.roles.None? || key in item.roles.value
  }

  /** The filter's callback for a given key. */
  function ShownFor(key: string): NavItem -> bool
  {
    item => Shown(item, key)
  }

  /** `filteredNavItems`: the links shown to `user` (`None` when nobody is signed in),
      keyed by `user?.role || ''`. */
  function VisibleItems(user: Option<Role>): (r: seq<NavItem>)
    ensures SubsequenceOf(r, NavItems)
    ensures forall i :: 0 <= i < |NavItems| ==>
      (NavItems[i] in r <==> NavItems[i].roles.None? || RoleKey(user) in NavItems[i].roles.value)
  {
    FilterIsSubsequence(NavItems, ShownFor(RoleKey(user)));
    Filter(NavItems, ShownFor(RoleKey(user)))
  }

  /** The roles named in a list of role names: a role belongs exactly when its name is
      in the list; strings naming no role add nothing. */
  function NamedRoles(names: seq<string>): (roles: set<Role>)
    ensures forall r :: r in roles <==> RoleName(r) in names
  {
    if names == [] then {}
    else
      assert forall r :: RoleName(r) in names <==> RoleName(r) == names[0] || RoleName(r) in names[1..] by {
        assert names == [names[0]] + names[1..];
      }
      assert forall r :: ParseRole(names[0]) == Some(r) <==> RoleName(r) == names[0] by {
        forall r ensures ParseRole(names[0]) == Some(r) <==> RoleName(r) == names[0] {
          RoleNameRoundTrip(r);
        }
      }
      (match ParseRole(names[0]) case Some(r) => {r} case None => {}) + NamedRoles(names[1..])
  }

  /** The roles named by a link's role list; `None` when it has no list. */
  function RoleSet(roles: Option<seq<string>>): (r: Option<set<Role>>)
    ensures r.None? <==> roles.None?
  {
    match roles
    case None => None
    case Some(names) => Some(NamedRoles(names))
  }

  /** Every string in every link's role list is the name of a role. */
  lemma NavRolesAreRoleNames(i: nat, j: nat)
    requires i < |NavItems| && NavItems[i].roles.Some? && j < |NavItems[i].roles.value|
    ensures ParseRole(NavItems[i].roles.value[j]).Some?
  {
  }

  /** For a list of role names, the string rule `names.includes(key)` is membership
      of the viewer's role in the named roles; in particular no list admits the empty
      key of a visitor who is not signed in. */
  lemma IncludesIffRoleMember(names: seq<string>, user: Option<Role>)
    requires forall j :: 0 <= j < |names| ==> ParseRole(names[j]).Some?
    ensures RoleKey(user) in names <==> user.Some? && user.value in NamedRoles(names)
  {
  }

  /** The link if it is shown for `key`, else nothing. */
  function KeepIfShown(item: NavItem, key: string): seq<NavItem>
  {
    if Shown(item, key) then [item] else []
  }

  /** The links of `items` from position `k` on that are shown for `key`, one at a
      time. */
  function ShownFromIn(items: seq<NavItem>, key: string, k: nat): seq<NavItem>
    requires k <= |items|
    decreases |items| - k
  {
    if k == |items| then [] else KeepIfShown(items[k], key) + ShownFromIn(items, key, k + 1)
  }

  /** The filter written out link by link. */
  lemma {:induction false} FilterShownFrom(items: seq<NavItem>, key: string, k: nat)
    requires k <= |items|
    ensures Filter(items[k..], ShownFor(key)) == ShownFromIn(items, key, k)
    decreases |items| - k
  {
    if k < |items| {
      FilterStep(items, ShownFor(key), k);
      FilterShownFrom(items, key, k + 1);
    }
  }

  /** The same walk over the sidebar's own links. It exists beside the generic walk
      because the verifier evaluates it for a literal key in small steps, which keeps
      each of the per-viewer lemmas below within the verifier's resource limit. */
  function ShownFrom(key: string, k: nat): seq<NavItem>
    requires k <= |NavItems|
    decreases |NavItems| - k
  {
    if k == |NavItems| then [] else KeepIfShown(NavItems[k], key) + ShownFrom(key, k + 1)
  }

  lemma {:induction false} ShownFromIsShownFromIn(key: string, k: nat)
    requires k <= |NavItems|
    ensures ShownFrom(key, k) == ShownFromIn(NavItems, key, k)
    decreases |NavItems| - k
  {
    if k < |NavItems| {
      ShownFromIsShownFromIn(key, k + 1);
    }
  }

  lemma VisibleItemsUnrolled(user: Option<Role>)
    ensures VisibleItems(user) == ShownFrom(RoleKey(user), 0)
  {
    FilterShownFrom(NavItems, RoleKey(user), 0);
    ShownFromIsShownFromIn(RoleKey(user), 0);
    assert NavItems[0..] == NavItems;
  }

  /** The links shown for each role's key, computed on the concrete walk; the lemmas
      about `VisibleItems` that follow carry them over to the filter. */
  lemma LinksForNoUser()
    ensures ShownFrom("", 0) == [DashboardLink, CoursesLink, SettingsLink]
  {
  }

  lemma LinksForStudent()
    ensures ShownFrom("STUDENT", 0) == [DashboardLink, CoursesLink, MyCoursesLink, CartLink, SettingsLink]
  {
  }

  lemma LinksForTeacher()
    ensures ShownFrom("TEACHER", 0) == [DashboardLink, CoursesLink, CreateCourseLink, SessionsLink, SettingsLink]
  {
  }

  lemma LinksForSuperAdmin()
    ensures ShownFrom("SUPERADMIN", 0) == [DashboardLink, CoursesLink, StudentsLink, TeachersLink, SettingsLink]
  {
  }

  lemma LinksForAdminStudent()
    ensures ShownFrom("ADMIN_STUDENT", 0) == [DashboardLink, CoursesLink, StudentsLink, SettingsLink]
  {
  }

  lemma LinksForAdminTeacher()
    ensures ShownFrom("ADMIN_TEACHER", 0) == [DashboardLink, CoursesLink, TeachersLink, SettingsLink]
  {
  }

  /** With nobody signed in, only the links without a role list are shown:
      Dashboard, Courses and Settings. */
  lemma AnonymousSees()
    ensures VisibleItems(None) == [DashboardLink, CoursesLink, SettingsLink]
  {
    VisibleItemsUnrolled(None);
    LinksForNoUser();
  }

  /** A student sees exactly Dashboard, Courses, My Courses, Cart and Settings, in
      that order. */
  lemma StudentSees()
    ensures VisibleItems(Some(Student)) == [DashboardLink, CoursesLink, MyCoursesLink, CartLink, SettingsLink]
  {
    VisibleItemsUnrolled(Some(Student));
    LinksForStudent();
  }

  /** A teacher sees Create Course and My Sessions and none of the student or admin
      links. */
  lemma TeacherSees()
    ensures VisibleItems(Some(Teacher))
      == [DashboardLink, CoursesLink, CreateCourseLink, SessionsLink, SettingsLink]
  {
    VisibleItemsUnrolled(Some(Teacher));
    LinksForTeacher();
  }

  /** The super admin sees both admin tables; each other admin sees only their own. */
  lemma AdminsSee()
    ensures VisibleItems(Some(SuperAdmin))
      == [DashboardLink, CoursesLink, StudentsLink, TeachersLink, SettingsLink]
    ensures VisibleItems(Some(AdminStudent)) == [DashboardLink, CoursesLink, StudentsLink, SettingsLink]
    ensures VisibleItems(Some(AdminTeacher)) == [DashboardLink, CoursesLink, TeachersLink, SettingsLink]
  {
    VisibleItemsUnrolled(Some(SuperAdmin));
    LinksForSuperAdmin();
    VisibleItemsUnrolled(Some(AdminStudent));
    LinksForAdminStudent();
    VisibleItemsUnrolled(Some(AdminTeacher));
    LinksForAdminTeacher();
  }

  /** The link points to a declared route whose guards let through exactly the
      roles its list names (all roles, when it has no list). */
  predicate AgreesWithRoute(item: NavItem)
  {
    Resolve(item.href).page != NotFound && Restriction(Resolve(item.href).guards) == RoleSet(item.roles)
  }

  lemma OpenLinksAgree()
    ensures AgreesWithRoute(DashboardLink) && AgreesWithRoute(CoursesLink)
  {
    DashboardRoute();
    CatalogueRoute();
  }

  lemma StudentLinksAgree()
    ensures AgreesWithRoute(MyCoursesLink) && AgreesWithRoute(CartLink)
  {
    CartRoute();
    MyCoursesRoute();
    assert Restriction([Open, Only({Student})]) == Some({Student});
    assert NamedRoles(["STUDENT"]) == {Student};
  }

  lemma TeacherLinksAgree()
    ensures AgreesWithRoute(CreateCourseLink) && AgreesWithRoute(SessionsLink)
  {
    CreateCourseRoute();
    TeacherSessionsRoute();
    assert Restriction([Only({Teacher})]) == Some({Teacher});
    assert NamedRoles(["TEACHER"]) == {Teacher};
  }

  lemma AdminLinksAgree()
    ensures AgreesWithRoute(StudentsLink) && AgreesWithRoute(TeachersLink)
  {
    StudentAdminRoute();
    TeacherAdminRoute();
    assert Restriction([Open, Only({AdminStudent, SuperAdmin})]) == Some({AdminStudent, SuperAdmin});
    assert NamedRoles(["ADMIN_STUDENT", "SUPERADMIN"]) == {AdminStudent, SuperAdmin};
    assert Restriction([Open, Only({AdminTeacher, SuperAdmin})]) == Some({AdminTeacher, SuperAdmin});
    assert NamedRoles(["ADMIN_TEACHER", "SUPERADMIN"]) == {AdminTeacher, SuperAdmin};
  }

  lemma SettingsLinkAgrees()
    ensures AgreesWithRoute(SettingsLink)
  {
    ProfileRoute();
  }

  /** Each link points to a declared route, and the link's role list names exactly
      the roles the guards of that route let through; a link without a list points to
      a route none of whose guards has a list. */
  lemma LinkTargetAgrees(i: nat)
    requires i < |NavItems|
    ensures Resolve(NavItems[i].href).page != NotFound
    ensures Restriction(Resolve(NavItems[i].href).guards) == RoleSet(NavItems[i].roles)
  {
    match i
    case 0 => OpenLinksAgree(); assert NavItems[0] == DashboardLink;
    case 1 => OpenLinksAgree(); assert NavItems[1] == CoursesLink;
    case 2 => StudentLinksAgree(); assert NavItems[2] == MyCoursesLink;
    case 3 => StudentLinksAgree(); assert NavItems[3] == CartLink;
    case 4 => TeacherLinksAgree(); assert NavItems[4] == CreateCourseLink;
    case 5 => TeacherLinksAgree(); assert NavItems[5] == SessionsLink;
    case 6 => AdminLinksAgree(); assert NavItems[6] == StudentsLink;
    case 7 => AdminLinksAgree(); assert NavItems[7] == TeachersLink;
    case _ => SettingsLinkAgrees(); assert NavItems[8] == SettingsLink;
  }

  /** The sidebar and the route table agree: a link is shown to a viewer exactly when
      every guard of the route it points to admits that viewer. */
  lemma ShownIffRoutePermits(user: Option<Role>, i: nat)
    requires i < |NavItems|
    ensures Shown(NavItems[i], RoleKey(user)) <==> Permits(Resolve(NavItems[i].href).guards, user)
  {
    var item := NavItems[i];
    var guards := Resolve(item.href).guards;
    LinkTargetAgrees(i);
    if item.roles.Some? {
      forall j | 0 <= j < |item.roles.value|
        ensures ParseRole(item.roles.value[j]).Some?
      {
        NavRolesAreRoleNames(i, j);
      }
      IncludesIffRoleMember(item.roles.value, user);
    }
  }

  /** Every link the sidebar shows leads to a declared route whose guards admit the
      viewer, and every link whose route admits the viewer is shown. */
  lemma VisibleLinksArePermitted(user: Option<Role>)
    ensures forall item :: item in VisibleItems(user) ==>
      Resolve(item.href).page != NotFound && Permits(Resolve(item.href).guards, user)
    ensures forall i :: 0 <= i < |NavItems| && Permits(Resolve(NavItems[i].href).guards, user) ==>
      NavItems[i] in VisibleItems(user)
  {
    forall item | item in VisibleItems(user)
      ensures Resolve(item.href).page != NotFound && Permits(Resolve(item.href).guards, user)
    {
      var i :| 0 <= i < |NavItems| && NavItems[i] == item;
      LinkTargetAgrees(i);
      ShownIffRoutePermits(user, i);
    }
    forall i | 0 <= i < |NavItems| && Permits(Resolve(NavItems[i].href).guards, user)
      ensures NavItems[i] in VisibleItems(user)
    {
      ShownIffRoutePermits(user, i);
    }
  }
}
