/** The domain types of the client (src/types/index.ts): closed string unions become
    enumerations with their wire names, optional (`?`) fields become `Option`. */
module Types {

  datatype Option<+T> = None | Some(value: T)

  /** `UserRole`: the five capability classes of a user. */
  datatype Role = Student | Teacher | AdminStudent | AdminTeacher | SuperAdmin

  /** The string literal the source uses for each role. */
  function RoleName(r: Role): (s: string)
    ensures |s| > 0
  {
    match r
    case Student => "STUDENT"
    case Teacher => "TEACHER"
    case AdminStudent => "ADMIN_STUDENT"
    case AdminTeacher => "ADMIN_TEACHER"
    case SuperAdmin => "SUPERADMIN"
  }

  /** Reads a role back from its string; `None` for any string outside the union. */
  function ParseRole(s: string): (r: Option<Role>)
    ensures r.Some? ==> RoleName(r.value) == s
  {
    if s == "STUDENT" then Some(Student)
    else if s == "TEACHER" then Some(Teacher)
    else if s == "ADMIN_STUDENT" then Some(AdminStudent)
    else if s == "ADMIN_TEACHER" then Some(AdminTeacher)
    else if s == "SUPERADMIN" then Some(SuperAdmin)
    else None
  }

  /** Every role is recovered from its name, so the names of different roles differ
      and no string names two roles. */
  lemma RoleNameRoundTrip(r: Role)
    ensures ParseRole(RoleName(r)) == Some(r)
  {
  }

  /** The role union is closed: a string is a role name exactly when it parses. */
  lemma RoleNamesAreClosed(s: string)
    ensures ParseRole(s).Some? <==> exists r: Role :: RoleName(r) == s
  {
    if r: Role :| RoleName(r) == s {
      RoleNameRoundTrip(r);
    }
  }

  /** A user's key in role lists: `user?.role || ''`. With no user it is the empty
      string, which names no role. */
  function RoleKey(user: Option<Role>): (k: string)
    ensures user.None? <==> k == ""
    ensures ParseRole(k) == user
  {
    match user
    case None => ""
    case Some(r) => RoleNameRoundTrip(r); RoleName(r)
  }

  datatype User = User(
    id: string,
    email: string,
    role: Role,
    name: string,
    avatarUrl: Option<string>,
    locale: Option<string>,
    createdAt: string)

  /** `CourseLevel`. */
  datatype Level = Beginner | Intermediate | Advanced | Expert

  function LevelName(l: Level): (s: string)
    ensures |s| > 0
  {
    match l
    case Beginner => "Beginner"
    case Intermediate => "Intermediate"
    case Advanced => "Advanced"
    case Expert => "Expert"
  }

  function ParseLevel(s: string): (l: Option<Level>)
    ensures l.Some? ==> LevelName(l.value) == s
  {
    if s == "Beginner" then Some(Beginner)
    else if s == "Intermediate" then Some(Intermediate)
    else if s == "Advanced" then Some(Advanced)
    else if s == "Expert" then Some(Expert)
    else None
  }

  lemma LevelNameRoundTrip(l: Level)
    ensures ParseLevel(LevelName(l)) == Some(l)
  {
  }

  /** `CourseStatus`. */
  datatype CourseStatus = Draft | PendingPriceApproval | Published | Archived

  function StatusName(st: CourseStatus): (s: string)
    ensures |s| > 0
  {
    match st
    case Draft => "DRAFT"
    case PendingPriceApproval => "PENDING_PRICE_APPROVAL"
    case Published => "PUBLISHED"
    case Archived => "ARCHIVED"
  }

  function ParseStatus(s: string): (st: Option<CourseStatus>)
    ensures st.Some? ==> StatusName(st.value) == s
  {
    if s == "DRAFT" then Some(Draft)
    else if s == "PENDING_PRICE_APPROVAL" then Some(PendingPriceApproval)
    else if s == "PUBLISHED" then Some(Published)
    else if s == "ARCHIVED" then Some(Archived)
    else None
  }

  lemma StatusNameRoundTrip(st: CourseStatus)
    ensures ParseStatus(StatusName(st)) == Some(st)
  {
  }

  /** `Course`. Prices are whole, non-negative amounts; the optional fields of the
      source are `Option`s, every other field is always present. */
  datatype Course = Course(
    id: string,
    title: string,
    slug: string,
    description: string,
    category: string,
    level: Level,
    price: nat,
    currency: string,
    teacherId: string,
    teacherName: Option<string>,
    thumbnailUrl: Option<string>,
    published: bool,
    status: CourseStatus,
    rating: Option<real>,
    enrollmentCount: Option<int>,
    duration: Option<int>,
    createdAt: string,
    updatedAt: string)

  /** `LiveSession.status`. */
  datatype SessionStatus = Upcoming | Live | Ended

  function SessionStatusName(st: SessionStatus): (s: string)
    ensures |s| > 0
  {
    match st
    case Upcoming => "UPCOMING"
    case Live => "LIVE"
    case Ended => "ENDED"
  }

  function ParseSessionStatus(s: string): (st: Option<SessionStatus>)
    ensures st.Some? ==> SessionStatusName(st.value) == s
  {
    if s == "UPCOMING" then Some(Upcoming)
    else if s == "LIVE" then Some(Live)
    else if s == "ENDED" then Some(Ended)
    else None
  }

  lemma SessionStatusNameRoundTrip(st: SessionStatus)
    ensures ParseSessionStatus(SessionStatusName(st)) == Some(st)
  {
  }

  datatype LiveSession = LiveSession(
    id: string,
    courseId: string,
    courseName: Option<string>,
    title: string,
    description: Option<string>,
    startsAt: string,
    durationMinutes: int,
    roomId: string,
    joinToken: Option<string>,
    createdBy: string,
    participants: Option<int>,
    status: Option<SessionStatus>)
}
