# knowledge-spark-nest: route guards, navigation and dashboard pages in Dafny

This project models the client-side logic of an online-learning dashboard written in
React. Students browse a course catalogue, enrol or add courses to a cart, teachers
reach course-creation pages, and administrators manage student and teacher tables.

The model covers these parts of the client:

- **Route table** (`Routes`). The paths of `App.tsx` are a table in declaration order. Each
  entry has a pattern, the stack of guards around its page, and the page. The catch-all
  entry comes last. A guard (`ProtectedRoute`) has an optional role list. The guard
  component's own code is not part of this model, so guards are modelled by the rule the
  sidebar applies to its links (`DashboardSidebar.tsx:81`): no list admits every viewer,
  and a list admits the signed-in viewers whose role it names.
- **Sidebar** (`Sidebar`). The nine navigation links are filtered by the viewer's role
  string (`user?.role || ''`). The model proves the links each role sees. It also proves
  that the sidebar agrees with the route table: a link is shown exactly when every guard
  of the route it leads to admits the viewer.
- **Catalogue** (`Courses`). The course list is narrowed by a case-insensitive search and
  by category, level and price filters.
- **Cart** (`Cart`). The cart is a class whose line list is replaced by "remove". The
  model covers the order total and the rendered summary.
- **Course page** (`CourseDetail`). The course is looked up by id. Enrolling and
  add-to-cart are returned as effects (notifications and navigations). The page shows
  its price label and the student-only controls.
- **Admin tables** (`Students`, `Teachers`). Each table is searched by name or email.
  Teachers also have a pending-approval badge and a review action.
- **Profile** (`Profile`). The role badge's label and colour variant, and the initial
  form values.

Supporting modules:

- `Types`: the entities of `src/types/index.ts`.
- `Seqs`: a generic order-preserving filter with its laws. It is the `Array.filter` of the
  pages.
- `Text`: ASCII lower-casing, substring search (`includes`) and the "course"/"courses"
  noun.

Side effects are values here:

- Notifications and navigation are returned as effects or as target paths.
- The signed-in user is a parameter: `Option<Role>`, or `Option<User>` on the profile
  page. `None` means nobody is signed in.
- The static course catalogue (`mockCourses`) is any sequence of courses.

Route matching takes the first matching entry in declaration order. React Router ranks
routes by specificity instead. The two agree on this table, because the only pattern
that overlaps another is the catch-all, which comes last.

One proved fact concerns the application as a whole. The cart's "Proceed to Checkout"
button and the paid-course enrol action both navigate to `/dashboard/checkout`. No route
declares that path, so it renders the catch-all page (`Routes.CheckoutIsNotFound`).

The model states only which viewers a route's guards admit (`Routes.Permits`); what a
refused viewer sees is not modelled.

## Model

| member | source | states |
|---|---|---|
| Types.RoleName | src/types/index.ts:1 | each role has its non-empty string literal |
| Types.ParseRole | src/types/index.ts:1 | a string parsed as a role is that role's literal |
| Types.RoleNameRoundTrip | src/types/index.ts:1 | parsing a role's literal gives the role back |
| Types.RoleNamesAreClosed | src/types/index.ts:1 | a string parses as a role exactly when it is some role's literal |
| Types.RoleKey | src/components/layout/DashboardSidebar.tsx:81 | the viewer's role string, empty exactly when nobody is signed in; it parses back to the viewer's role |
| Types.LevelName | src/types/index.ts:13 | each level has a non-empty literal |
| Types.ParseLevel | src/types/index.ts:13 | a string parsed as a level is that level's literal |
| Types.LevelNameRoundTrip | src/types/index.ts:13 | parsing a level's literal gives the level back |
| Types.StatusName | src/types/index.ts:14 | each course status has a non-empty literal |
| Types.ParseStatus | src/types/index.ts:14 | a string parsed as a status is that status's literal |
| Types.StatusNameRoundTrip | src/types/index.ts:14 | parsing a status's literal gives the status back |
| Types.SessionStatusName | src/types/index.ts:49 | each live-session status has a non-empty literal |
| Types.ParseSessionStatus | src/types/index.ts:49 | a string parsed as a session status is that status's literal |
| Types.SessionStatusNameRoundTrip | src/types/index.ts:49 | parsing a session status's literal gives it back |
| Seqs.Filter | src/pages/dashboard/Courses.tsx:14 | `Array.filter`: no longer than the input; each accepted value occurs as often as in the input, and no rejected value occurs |
| Seqs.FilterIsSubsequence | src/pages/dashboard/Cart.tsx:19 | the filter keeps the input's order (the result is a subsequence) |
| Seqs.SubsequenceOfDropsHead | src/pages/dashboard/Cart.tsx:19 | a subsequence of a sequence's tail is a subsequence of the sequence |
| Seqs.FilterKeepsAll | src/pages/admin/Students.tsx:20-23 | a predicate accepting every element leaves the sequence unchanged |
| Seqs.FilterDropsAll | src/pages/dashboard/Courses.tsx:19-21 | a predicate accepting nothing gives the empty sequence |
| Seqs.FilterCongruent | src/pages/dashboard/Courses.tsx:15-16 | predicates that agree on the elements filter identically |
| Seqs.FilterIdempotent | src/pages/dashboard/Courses.tsx:13-24 | filtering twice with the same predicate is filtering once |
| Seqs.FilterStep | src/pages/dashboard/Courses.tsx:14 | the filter from position k on: the element at k if accepted, then the filter of the rest |
| Text.LowerChar | src/pages/dashboard/Courses.tsx:15 | ASCII capitals are moved by 32, other characters are kept, and no result is a capital |
| Text.Lower | src/pages/dashboard/Courses.tsx:15 | `toLowerCase`: same length, lowered character by character |
| Text.SameUpToCaseIffLowerEqual | src/pages/dashboard/Courses.tsx:15-16 | two strings differ only in case exactly when they lower to the same string |
| Text.Contains | src/pages/dashboard/Courses.tsx:15 | `includes`: the empty string occurs in every string, nothing longer than a string occurs in it, and a string of equal length occurs exactly when it is the same |
| Text.NameOrEmailMatches | src/pages/admin/Students.tsx:21-22 | the empty query matches every row, and a matched query is no longer than the name or the email |
| Text.ContainsTransitive | src/pages/admin/Students.tsx:21 | what occurs in a substring of s occurs in s |
| Text.ExtendedQueryContainsPrefix | src/pages/admin/Students.tsx:21 | a query extended by more characters contains, lowered, the shorter query lowered |
| Text.NameOrEmailIgnoresQueryCase | src/pages/admin/Students.tsx:20-23 | queries differing only in case match the same rows |
| Text.NameOrEmailNarrows | src/pages/admin/Teachers.tsx:20-23 | a row matched by a longer query is matched by every prefix of it |
| Text.CourseNoun | src/pages/dashboard/Courses.tsx:50 | "course" exactly for a count of 1, "courses" otherwise |
| Routes.Matches | src/App.tsx:35-87 | a literal pattern matches only its own path, `*` matches every path, and `prefix/:id` matches exactly the prefix followed by one non-empty segment without `/` |
| Routes.FirstMatch | src/App.tsx:35-87 | the chosen entry matches the path and no earlier entry does |
| Routes.Resolve | src/App.tsx:35-87 | the rendered guards and page are those of a declared entry whose pattern matches the path |
| Routes.Admits | src/components/layout/DashboardSidebar.tsx:81 | a guard without role list admits every viewer, the signed-out one included; a guard with a list admits no signed-out viewer and exactly the signed-in viewers whose role it holds |
| Routes.Restriction | src/App.tsx:39-84 | a guard stack is unrestricted exactly when none of its guards has a role list |
| Routes.Permits | src/App.tsx:39-84 | nested guards let a viewer through exactly when every one of them admits it, which is exactly when the single guard of their combined restriction does |
| Routes.CatchAllIsLast | src/App.tsx:86-87 | a path reaches NotFound exactly when no declared route matches it, and NotFound has no guard |
| Routes.ResolvesTo | src/App.tsx:35-87 | the first matching entry is the one rendered, with its `:id` parameter |
| Routes.NotUnderPrefix | src/App.tsx:46 | a path differing from a prefix at some position does not match that prefix's `:id` pattern |
| Routes.PublicRoutesAreUnguarded | src/App.tsx:35-37 | the landing, login and signup pages have no guard |
| Routes.DashboardRoute | src/App.tsx:39-44 | `/dashboard` is the index page under a guard without role list |
| Routes.CatalogueRoute | src/App.tsx:45 | the catalogue adds no guard to the dashboard's |
| Routes.CourseDetailsRoute | src/App.tsx:46 | `/dashboard/courses/<id>` renders the course page with that id and no extra guard |
| Routes.CartRoute | src/App.tsx:47-51 | the cart is guarded by the dashboard guard and a student-only guard |
| Routes.MyCoursesRoute | src/App.tsx:52-56 | the enrolled-courses page is guarded by the dashboard guard and a student-only guard |
| Routes.StudentAdminRoute | src/App.tsx:57-61 | the student table admits the student admin and the super admin |
| Routes.TeacherAdminRoute | src/App.tsx:62-66 | the teacher table admits the teacher admin and the super admin |
| Routes.CreateCourseRoute | src/App.tsx:69-74 | course creation is under the teacher-only guard |
| Routes.TeacherSessionsRoute | src/App.tsx:69-75 | the sessions page is under the teacher-only guard |
| Routes.ProfileRoute | src/App.tsx:78-83 | the profile page is under a guard without role list |
| Routes.LandingRoute | src/App.tsx:35 | `/` renders the landing page with no guard |
| Routes.LoginRoute | src/App.tsx:36 | `/auth/login` renders the login page with no guard |
| Routes.SignupRoute | src/App.tsx:37 | `/auth/signup` renders the signup page with no guard |
| Routes.TeacherLayoutRoute | src/App.tsx:69-76 | `/teacher` itself renders the teacher layout with an empty outlet under the teacher-only guard |
| Routes.SettingsLayoutRoute | src/App.tsx:78-84 | `/settings` itself renders the settings layout with an empty outlet under a guard without role list |
| Routes.CourseDetailsMatched | src/App.tsx:46 | every path the `:id` pattern matches renders the course page, with the rest of the path as its id |
| Routes.MatchedRouteIsResolved | src/App.tsx:35-85 | no two declared routes before the catch-all match the same path, so whichever one a path matches is the one rendered, independent of declaration order |
| Routes.DashboardEntryIsResolved | src/App.tsx:35-56 | the same, for the first eight declared routes |
| Routes.SectionEntryIsResolved | src/App.tsx:57-84 | the same, for the remaining declared routes |
| Routes.CheckoutIsNotFound | src/pages/dashboard/Cart.tsx:128 | the checkout path has no declared route and renders the catch-all page |
| Sidebar.Shown | src/components/layout/DashboardSidebar.tsx:81 | a link without role list is shown to everyone; a link whose list names only roles is hidden from a key that names no role, such as the signed-out viewer's empty key |
| Sidebar.VisibleItems | src/components/layout/DashboardSidebar.tsx:80-82 | links kept in order; a link is shown exactly when it has no role list or its list includes the viewer's role string |
| Sidebar.NamedRoles | src/components/layout/DashboardSidebar.tsx:20 | a role is among a list's named roles exactly when its string is in the list |
| Sidebar.RoleSet | src/components/layout/DashboardSidebar.tsx:20 | a link's role set is absent exactly when its role list is |
| Sidebar.NavRolesAreRoleNames | src/components/layout/DashboardSidebar.tsx:23-75 | every string in every role list names a role |
| Sidebar.IncludesIffRoleMember | src/components/layout/DashboardSidebar.tsx:81 | `roles.includes(key)` is membership of the viewer's role in the named roles; the signed-out key matches no list |
| Sidebar.FilterShownFrom | src/components/layout/DashboardSidebar.tsx:80-82 | the filter equals the link-by-link walk |
| Sidebar.ShownFromIsShownFromIn | src/components/layout/DashboardSidebar.tsx:80-82 | the walk over the sidebar's own links equals the generic walk |
| Sidebar.VisibleItemsUnrolled | src/components/layout/DashboardSidebar.tsx:80-82 | the shown links are the link-by-link walk for the viewer's key |
| Sidebar.LinksForNoUser | src/components/layout/DashboardSidebar.tsx:23-82 | the walk for the empty key gives Dashboard, Courses, Settings |
| Sidebar.LinksForStudent | src/components/layout/DashboardSidebar.tsx:23-82 | the walk for STUDENT |
| Sidebar.LinksForTeacher | src/components/layout/DashboardSidebar.tsx:23-82 | the walk for TEACHER |
| Sidebar.LinksForSuperAdmin | src/components/layout/DashboardSidebar.tsx:23-82 | the walk for SUPERADMIN |
| Sidebar.LinksForAdminStudent | src/components/layout/DashboardSidebar.tsx:23-82 | the walk for ADMIN_STUDENT |
| Sidebar.LinksForAdminTeacher | src/components/layout/DashboardSidebar.tsx:23-82 | the walk for ADMIN_TEACHER |
| Sidebar.AnonymousSees | src/components/layout/DashboardSidebar.tsx:23-82 | a signed-out viewer sees exactly Dashboard, Courses and Settings |
| Sidebar.StudentSees | src/components/layout/DashboardSidebar.tsx:23-82 | a student sees exactly Dashboard, Courses, My Courses, Cart, Settings |
| Sidebar.TeacherSees | src/components/layout/DashboardSidebar.tsx:23-82 | a teacher sees exactly Dashboard, Courses, Create Course, My Sessions, Settings |
| Sidebar.AdminsSee | src/components/layout/DashboardSidebar.tsx:23-82 | the super admin sees both admin tables; each other admin sees only their own |
| Sidebar.OpenLinksAgree | src/components/layout/DashboardSidebar.tsx:24-33 | Dashboard and Courses lead to declared routes without role lists |
| Sidebar.StudentLinksAgree | src/components/layout/DashboardSidebar.tsx:34-45 | My Courses and Cart lead to routes restricted to exactly the student |
| Sidebar.TeacherLinksAgree | src/components/layout/DashboardSidebar.tsx:46-57 | Create Course and My Sessions lead to routes restricted to exactly the teacher |
| Sidebar.AdminLinksAgree | src/components/layout/DashboardSidebar.tsx:58-69 | Students and Teachers lead to routes restricted to exactly their listed roles |
| Sidebar.SettingsLinkAgrees | src/components/layout/DashboardSidebar.tsx:70-74 | Settings leads to a declared route without role list |
| Sidebar.LinkTargetAgrees | src/components/layout/DashboardSidebar.tsx:23-75 | each link leads to a declared route whose guards let through exactly the roles its list names |
| Sidebar.ShownIffRoutePermits | src/components/layout/DashboardSidebar.tsx:80-82 | a link is shown to a viewer exactly when every guard of its route admits that viewer |
| Sidebar.VisibleLinksArePermitted | src/components/layout/DashboardSidebar.tsx:80-82 | every shown link's route admits the viewer, and every link whose route admits the viewer is shown |
| Courses.MatchesSearch | src/pages/dashboard/Courses.tsx:15-16 | the empty query matches every course, and a query longer than both the title and the description matches none |
| Courses.MatchesCategory | src/pages/dashboard/Courses.tsx:17 | "All Categories" matches every course; any other value exactly the courses of that category |
| Courses.MatchesLevel | src/pages/dashboard/Courses.tsx:18 | "all" matches every course; any other value exactly the courses whose level it names |
| Courses.MatchesPrice | src/pages/dashboard/Courses.tsx:19-21 | "all" keeps every course, "free" exactly price 0, "paid" exactly a positive price, any other value none |
| Courses.FilteredCourses | src/pages/dashboard/Courses.tsx:13-24 | catalogue order kept; each course every matcher accepts occurs as often as in the catalogue, and no other course occurs |
| Courses.ResultLabel | src/pages/dashboard/Courses.tsx:50 | the count of shown courses, with "course" exactly when it is 1 |
| Courses.InitialFiltersKeepAll | src/pages/dashboard/Courses.tsx:8-11 | with the controls as first rendered, the whole catalogue is shown |
| Courses.UnknownPriceFilterKeepsNothing | src/pages/dashboard/Courses.tsx:19-21 | an unknown price filter value empties the list |
| Courses.FreeAndPaidPartition | src/pages/dashboard/Courses.tsx:19-21 | "free" and "paid" results are disjoint and together cover the courses the other filters accept |
| Courses.SearchIgnoresQueryCase | src/pages/dashboard/Courses.tsx:15-16 | queries differing only in case show the same courses |
| Courses.FilterTwiceIsFilterOnce | src/pages/dashboard/Courses.tsx:13-24 | filtering the result again changes nothing |
| Cart.WithoutCourse | src/pages/dashboard/Cart.tsx:19 | order kept; no kept line has the id, and every other line occurs as often as before |
| Cart.Total | src/pages/dashboard/Cart.tsx:23 | the total is at least each line's price, and zero exactly when every line is free |
| Cart.TotalSplits | src/pages/dashboard/Cart.tsx:23 | the total is the total of the kept lines plus that of the removed ones |
| Cart.TotalAfterRemove | src/pages/dashboard/Cart.tsx:19-23 | removing a course lowers the total by exactly the prices of its lines |
| Cart.RemoveAbsentIsIdentity | src/pages/dashboard/Cart.tsx:19 | removing an id no line carries leaves the cart as it was |
| Cart.RemoveIsIdempotent | src/pages/dashboard/Cart.tsx:19 | removing the same id twice is removing it once |
| Cart.ShoppingCart.constructor | src/pages/dashboard/Cart.tsx:13-16 | the cart starts with the two given courses under ids '1' and '2' |
| Cart.ShoppingCart.RemoveFromCart | src/pages/dashboard/Cart.tsx:18-21 | the new lines are the old minus that id, the total drops by the removed prices, and the removal notice is returned |
| Cart.ShoppingCart.View | src/pages/dashboard/Cart.tsx:23-137 | the empty state exactly for no lines (back to the catalogue); otherwise the count and noun, equal subtotal and total, and the checkout target |
| CourseDetail.FindIndex | src/pages/dashboard/CourseDetail.tsx:15 | `find`: the first course with the id, or none exactly when no course has it |
| CourseDetail.FindCourse | src/pages/dashboard/CourseDetail.tsx:15 | the course found has the id; none exactly when no course has it |
| CourseDetail.FindCourseTakesFirst | src/pages/dashboard/CourseDetail.tsx:15 | of several courses with one id, the first is shown |
| CourseDetail.HandleEnroll | src/pages/dashboard/CourseDetail.tsx:30-37 | free: a notice, then my-courses without state; paid: only checkout carrying the course id |
| CourseDetail.HandleAddToCart | src/pages/dashboard/CourseDetail.tsx:26-28 | a single notification and no navigation |
| CourseDetail.Render | src/pages/dashboard/CourseDetail.tsx:15-24 | not found exactly when no course has the id (back to the catalogue); otherwise the first such course, "Free" exactly at price 0, and controls only for a student |
| CourseDetail.AddToCartIffCheckout | src/pages/dashboard/CourseDetail.tsx:214-220 | a student is offered add-to-cart exactly for courses whose enrolment goes to checkout |
| Students.FilteredStudents | src/pages/admin/Students.tsx:20-23 | table order kept; each row whose name or email contains the query, ignoring case, occurs as often as in the table, and no other row occurs |
| Students.StatusVariant | src/pages/admin/Students.tsx:90 | "default" exactly for an active student, "secondary" otherwise |
| Students.EmptySearchShowsAll | src/pages/admin/Students.tsx:18-53 | the empty search shows every row; the page opens with a total of 4 |
| Students.SearchIgnoresCase | src/pages/admin/Students.tsx:20-23 | queries differing only in case show the same rows |
| Students.LongerQueryNarrows | src/pages/admin/Students.tsx:20-23 | typing more characters never brings a row back |
| Teachers.FilteredTeachers | src/pages/admin/Teachers.tsx:20-23 | table order kept; each row whose name or email contains the query, ignoring case, occurs as often as in the table, and no other row occurs |
| Teachers.PendingCellOf | src/pages/admin/Teachers.tsx:85-94 | a badge exactly when approvals are pending, carrying that positive count |
| Teachers.ActionMenu | src/pages/admin/Teachers.tsx:114-130 | the menu, with "Review Pending (n)" between "View Courses" and "Payment Reports" exactly when approvals are pending |
| Teachers.ReviewIffBadge | src/pages/admin/Teachers.tsx:85-125 | the review action is offered exactly when the pending badge is shown, with the same count |
| Teachers.MockPendingBadges | src/pages/admin/Teachers.tsx:10-15 | three of the four teachers show a pending badge; only Mike Chen shows a dash |
| Teachers.EmptySearchShowsAll | src/pages/admin/Teachers.tsx:18-53 | the empty search shows every row; the page opens with a total of 4 |
| Teachers.SearchIgnoresCase | src/pages/admin/Teachers.tsx:20-23 | queries differing only in case show the same rows |
| Teachers.LongerQueryNarrows | src/pages/admin/Teachers.tsx:20-23 | typing more characters never brings a row back |
| Profile.InitialForm | src/pages/settings/Profile.tsx:15-18 | the user's name and email, or both empty when nobody is signed in |
| Profile.RoleLabel | src/pages/settings/Profile.tsx:36-42 | every role has a non-empty label |
| Profile.RoleDisplay | src/pages/settings/Profile.tsx:35-44 | a role literal shows its label; any other string, the empty one included, shows as itself |
| Profile.RoleLabelsDistinct | src/pages/settings/Profile.tsx:36-42 | distinct roles have distinct labels, and no label is a role literal |
| Profile.RoleDisplayOfViewer | src/pages/settings/Profile.tsx:80 | a signed-in viewer's badge names their role; a signed-out viewer's is empty |
| Profile.RoleBadgeVariant | src/pages/settings/Profile.tsx:46-51 | destructive exactly for SUPERADMIN, default exactly for other strings containing ADMIN, secondary exactly for TEACHER, outline otherwise |
| Profile.TeacherIsNoAdmin | src/pages/settings/Profile.tsx:48-49 | "TEACHER" does not contain "ADMIN", so its test is reached |
| Profile.StudentIsNoAdmin | src/pages/settings/Profile.tsx:48-50 | "STUDENT" does not contain "ADMIN" |
| Profile.BadgeVariantOfViewer | src/pages/settings/Profile.tsx:78 | super admin destructive, both admins default, teacher secondary, student and signed-out outline |
| Profile.SuperAdminPrecedesAdminTest | src/pages/settings/Profile.tsx:47-48 | "SUPERADMIN" contains "ADMIN", and the earlier test still makes it destructive |

## Left out

- Routes.Admits: a guard without role list admits a signed-out viewer here. The guard component's code is not part of this model, so how the real guard treats a signed-out viewer is unknown, as is what it renders for a viewer it refuses.
- The authentication provider (`useAuth`): the signed-in user is a parameter.
- Login, signup, the landing page, the dashboard home, the enrolled-courses page, the sessions page and the course card: they wrap the unmodelled login and signup calls or render fixed data, and are not modelled.
- Rendering, icons, styling and date formatting (`toLocaleDateString`, `toLocaleString`): only the values a page computes are modelled.
- The profile form's submit handler: it waits on a timer and shows a notice. Timers and asynchrony are not modelled.
- Text.Lower: folds only ASCII A-Z, whereas `toLowerCase` follows Unicode case mapping.
- Course prices are non-negative whole numbers. The source's `number` admits fractions and negatives, and a negative price would be neither free nor paid. Rating stays a `real`.
- Routes.Resolve: paths are compared literally. React Router's case-insensitive matching, trailing-slash tolerance and percent-decoding are not modelled.
- Profile.RoleDisplay: the role map is a plain object, so a string such as "constructor" would find an inherited member. The model treats every non-role string as absent from the map.
- The course catalogue data file is not part of this model. The catalogue is any sequence of courses, and the cart constructor takes its first two courses as parameters.
- Cart.ShoppingCart.View: the "Continue Shopping" button and the per-line layout are not modelled.
- The `CartItem` type (`src/types/index.ts:94-98`) is not modelled: the cart page's lines have no `addedAt`, so the page's own line shape is modelled instead.
