/** The teacher administration page (src/pages/admin/Teachers.tsx): a fixed table of
    teachers narrowed by one search box over name and email, with the count of
    course prices awaiting approval and the matching review action. */
module Teachers {
  import opened Seqs
  import opened Text

  /** One row of the table; `pendingApproval` counts courses whose price awaits
      approval. */
  datatype TeacherRow = TeacherRow(
    id: string, name: string, email: string, courses: nat, pendingApproval: int,
    joinedAt: string, status: string)

  /** The table's rows, in the page's order. */
  const MockTeachers: seq<TeacherRow> := [
    TeacherRow("t1", "Dr. Sarah Johnson", "sarah@example.com", 8, 2, "2024-01-10", "active"),
    TeacherRow("t2", "Mike Chen", "mike@example.com", 5, 0, "2024-02-15", "active"),
    TeacherRow("t3", "Dr. Emily Watson", "emily@example.com", 12, 1, "2024-03-01", "active"),
    TeacherRow("t4", "Alex Rivera", "alex@example.com", 3, 3, "2024-04-20", "active")
  ]

  function SearchFor(query: string): TeacherRow -> bool
  {
    (row: TeacherRow) => NameOrEmailMatches(row.name, row.email, query)
  }

  /** `filteredTeachers`: the rows whose name or email contains the query, ignoring
      case, in table order. */
  function FilteredTeachers(rows: seq<TeacherRow>, query: string): (r: seq<TeacherRow>)
    ensures SubsequenceOf(r, rows)
    ensures forall i :: 0 <= i < |r| ==> NameOrEmailMatches(r[i].name, r[i].email, query)
    ensures forall i :: 0 <= i < |rows| ==>
      (rows[i] in r <==> NameOrEmailMatches(rows[i].name, rows[i].email, query))
    ensures forall row {:trigger multiset(r)[row]} :: multiset(r)[row] == if NameOrEmailMatches(row.name, row.email, query) then multiset(rows)[row] else 0
  {
    FilterIsSubsequence(rows, SearchFor(query));
    Filter(rows, SearchFor(query))
  }

  /** The "Pending Approval" cell: a dash, or a badge with the count. */
  datatype PendingCell = Dash | PendingBadge(count: int)

  function PendingCellOf(row: TeacherRow): (c: PendingCell)
    ensures c.PendingBadge? <==> row.pendingApproval > 0
    ensures c.PendingBadge? ==> c.count == row.pendingApproval && c.count > 0
  {
    if row.pendingApproval > 0 then PendingBadge(row.pendingApproval) else Dash
  }

  /** The entries of a row's action menu. */
  datatype MenuEntry = ViewDetails | ViewCourses | ReviewPending(count: int) | PaymentReports | SuspendAccount

  /** The action menu: "Review Pending (n)" sits between "View Courses" and "Payment
      Reports" exactly when the teacher has courses awaiting approval. */
  function ActionMenu(row: TeacherRow): (m: seq<MenuEntry>)
    ensures row.pendingApproval > 0 ==>
      m == [ViewDetails, ViewCourses, ReviewPending(row.pendingApproval), PaymentReports, SuspendAccount]
    ensures row.pendingApproval <= 0 ==>
      m == [ViewDetails, ViewCourses, PaymentReports, SuspendAccount]
  {
    [ViewDetails, ViewCourses]
      + (if row.pendingApproval > 0 then [ReviewPending(row.pendingApproval)] else [])
      + [PaymentReports, SuspendAccount]
  }

  /** The review action is offered exactly when the pending badge is shown, and with
      the badge's count. */
  lemma ReviewIffBadge(row: TeacherRow)
    ensures (exists k :: 0 <= k < |ActionMenu(row)| && ActionMenu(row)[k].ReviewPending?)
      <==> PendingCellOf(row).PendingBadge?
    ensures forall k :: 0 <= k < |ActionMenu(row)| && ActionMenu(row)[k].ReviewPending? ==>
      ActionMenu(row)[k].count == PendingCellOf(row).count
  {
    if row.pendingApproval > 0 {
      assert ActionMenu(row)[2].ReviewPending?;
    }
  }

  /** In the page's own table, three teachers have a pending badge; only Mike Chen
      shows a dash. */
  lemma MockPendingBadges()
    ensures PendingCellOf(MockTeachers[0]) == PendingBadge(2)
    ensures PendingCellOf(MockTeachers[1]) == Dash
    ensures PendingCellOf(MockTeachers[2]) == PendingBadge(1)
    ensures PendingCellOf(MockTeachers[3]) == PendingBadge(3)
  {
  }

  /** The empty search shows every row, so the page opens with the whole table and the
      total under the title counts all four teachers. */
  lemma EmptySearchShowsAll(rows: seq<TeacherRow>)
    ensures FilteredTeachers(rows, "") == rows
    ensures |FilteredTeachers(MockTeachers, "")| == 4
  {
    FilterKeepsAll(rows, SearchFor(""));
    FilterKeepsAll(MockTeachers, SearchFor(""));
  }

  /** Queries that differ only in letter case show the same rows. */
  lemma SearchIgnoresCase(rows: seq<TeacherRow>, q1: string, q2: string)
    requires SameUpToCase(q1, q2)
    ensures FilteredTeachers(rows, q1) == FilteredTeachers(rows, q2)
  {
    forall row | row in rows ensures SearchFor(q1)(row) == SearchFor(q2)(row) {
      NameOrEmailIgnoresQueryCase(row.name, row.email, q1, q2);
    }
    FilterCongruent(rows, SearchFor(q1), SearchFor(q2));
  }

  /** Typing more characters into the search box never brings a row back. */
  lemma LongerQueryNarrows(rows: seq<TeacherRow>, q: string, longer: string)
    requires |q| <= |longer| && longer[..|q|] == q
    ensures forall i :: 0 <= i < |rows| && rows[i] in FilteredTeachers(rows, longer) ==>
      rows[i] in FilteredTeachers(rows, q)
  {
    forall i | 0 <= i < |rows| && rows[i] in FilteredTeachers(rows, longer)
      ensures rows[i] in FilteredTeachers(rows, q)
    {
      NameOrEmailNarrows(rows[i].name, rows[i].email, q, longer);
    }
  }
}
