/** The profile settings page (src/pages/settings/Profile.tsx): the form's initial
    values and the role badge, whose label and colour variant are computed from the
    role string (`user?.role || ''`, so the empty string when nobody is signed in). */
module Profile {
  import opened Types
  import opened Text

  /** The form's initial values: the signed-in user's name and email, or empty. */
  datatype ProfileForm = ProfileForm(name: string, email: string)

  function InitialForm(user: Option<User>): (f: ProfileForm)
    ensures user.None? ==> f.name == "" && f.email == ""
    ensures user.Some? ==> f.name == user.value.name && f.email == user.value.email
  {
    match user
    case None => ProfileForm("", "")
    case Some(u) => ProfileForm(u.name, u.email)
  }

  /** The human-readable label of each role. */
  function RoleLabel(r: Role): (name: string)
    ensures |name| > 0
  {
    match r
    case Student => "Student"
    case Teacher => "Teacher"
    case AdminStudent => "Admin (Student Manager)"
    case AdminTeacher => "Admin (Teacher Manager)"
    case SuperAdmin => "Super Admin"
  }

  /** `getRoleDisplay`: a role's own string maps to its label; any other string,
      including the empty one, is shown as it is. */
  function RoleDisplay(role: string): (d: string)
    ensures ParseRole(role).Some? ==> d == RoleLabel(ParseRole(role).value)
    ensures ParseRole(role).None? ==> d == role
  {
    match ParseRole(role)
    case Some(r) => RoleLabel(r)
    case None => role
  }

  /** Distinct roles get distinct labels, and no label is itself a role string, so a
      label never passes for the fallback. */
  lemma RoleLabelsDistinct(a: Role, b: Role)
    ensures RoleLabel(a) == RoleLabel(b) <==> a == b
    ensures ParseRole(RoleLabel(a)).None?
  {
  }

  /** The badge a signed-in user sees names their role; with nobody signed in it is
      empty. */
  lemma RoleDisplayOfViewer(user: Option<Role>)
    ensures user.Some? ==> RoleDisplay(RoleKey(user)) == RoleLabel(user.value)
    ensures user.None? ==> RoleDisplay(RoleKey(user)) == ""
  {
  }

  /** The badge's colour variants. */
  datatype Variant = Destructive | Default | Secondary | Outline

  /** `getRoleBadgeVariant`: the tests run in order, so the super admin is matched
      before the "contains ADMIN" test that would otherwise also catch it. */
  function RoleBadgeVariant(role: string): (v: Variant)
    ensures v == Destructive <==> role == "SUPERADMIN"
    ensures v == Default <==> role != "SUPERADMIN" && Contains(role, "ADMIN")
    ensures v == Secondary <==> role == "TEACHER"
    ensures v == Outline <==> role != "SUPERADMIN" && role != "TEACHER" && !Contains(role, "ADMIN")
  {
    TeacherIsNoAdmin();
    if role == "SUPERADMIN" then Destructive
    else if Contains(role, "ADMIN") then Default
    else if role == "TEACHER" then Secondary
    else Outline
  }

  lemma TeacherIsNoAdmin()
    ensures !Contains("TEACHER", "ADMIN")
  {
    forall i: nat | i <= |"TEACHER"| ensures !OccursAt("TEACHER", "ADMIN", i) {
      if i + 5 <= 7 {
        assert "TEACHER"[i..i + 5][1] != 'D';
      }
    }
  }

  lemma StudentIsNoAdmin()
    ensures !Contains("STUDENT", "ADMIN")
  {
    forall i: nat | i <= |"STUDENT"| ensures !OccursAt("STUDENT", "ADMIN", i) {
      if i + 5 <= 7 {
        assert "STUDENT"[i..i + 5][0] != 'A';
      }
    }
  }

  /** The variant of each role's badge: the super admin's is destructive, both
      admins' default, the teacher's secondary and the student's outline; a signed-out
      viewer's (the empty role string) is outline too. */
  lemma BadgeVariantOfViewer(user: Option<Role>)
    ensures user == Some(SuperAdmin) ==> RoleBadgeVariant(RoleKey(user)) == Destructive
    ensures user == Some(AdminStudent) || user == Some(AdminTeacher) ==>
      RoleBadgeVariant(RoleKey(user)) == Default
    ensures user == Some(Teacher) ==> RoleBadgeVariant(RoleKey(user)) == Secondary
    ensures user == Some(Student) || user == None ==> RoleBadgeVariant(RoleKey(user)) == Outline
  {
    assert OccursAt("ADMIN_STUDENT", "ADMIN", 0);
    assert OccursAt("ADMIN_TEACHER", "ADMIN", 0);
    StudentIsNoAdmin();
  }

  /** The order of the tests matters: the super admin's string does contain "ADMIN". */
  lemma SuperAdminPrecedesAdminTest()
    ensures Contains("SUPERADMIN", "ADMIN") && RoleBadgeVariant("SUPERADMIN") == Destructive
  {
    assert OccursAt("SUPERADMIN", "ADMIN", 5);
  }
}
