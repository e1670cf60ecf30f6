/** The student administration page (src/pages/admin/Students.tsx): a fixed table
    of students narrowed by one search box over name and email. */
module Students {
  import opened Seqs
  import opened Text

  /** One row of the table. */
  datatype StudentRow = StudentRow(
    id: string, name: string, email: string, enrolledCourses: nat, joinedAt: string, status: string)

  /** The table's rows, in the page's order. */
  const MockStudents: seq<StudentRow> := [
    StudentRow("1", "Alice Johnson", "alice@example.com", 5, "2024-01-15", "active"),
    StudentRow("2", "Bob Smith", "bob@example.com", 3, "2024-02-20", "active"),
    StudentRow("3", "Carol White", "carol@example.com", 7, "2024-03-10", "active"),
    StudentRow("4", "David Brown", "david@example.com", 2, "2024-04-05", "inactive")
  ]

  function SearchFor(query: string): StudentRow -> bool
  {
    (row: StudentRow) => NameOrEmailMatches(row.name, row.email, query)
  }

  /** `filteredStudents`: the rows whose name or email contains the query, ignoring
      case, in table order. */
  function FilteredStudents(rows: seq<StudentRow>, query: string): (r: seq<StudentRow>)
    ensures SubsequenceOf(r, rows)
    ensures forall i :: 0 <= i < |r| ==> NameOrEmailMatches(r[i].name, r[i].email, query)
    ensures forall i :: 0 <= i < |rows| ==>
      (rows[i] in r <==> NameOrEmailMatches(rows[i].name, rows[i].email, query))
    ensures forall row {:trigger multiset(r)[row]} :: multiset(r)[row] == if NameOrEmailMatches(row.name, row.email, query) then multiset(rows)[row] else 0
  {
    FilterIsSubsequence(rows, SearchFor(query));
    Filter(rows, SearchFor(query))
  }

  /** The badge variant of the status column: "default" for an active student,
      "secondary" for any other status. */
  function StatusVariant(status: string): (v: string)
    ensures v == "default" <==> status == "active"
    ensures v == "secondary" <==> status != "active"
  {
    if status == "active" then "default" else "secondary"
  }

  /** The empty search shows every row, so the page opens with the whole table and the
      total under the title counts all four students. */
  lemma EmptySearchShowsAll(rows: seq<StudentRow>)
    ensures FilteredStudents(rows, "") == rows
    ensures |FilteredStudents(MockStudents, "")| == 4
  {
    FilterKeepsAll(rows, SearchFor(""));
    FilterKeepsAll(MockStudents, SearchFor(""));
  }

  /** Queries that differ only in letter case show the same rows. */
  lemma SearchIgnoresCase(rows: seq<StudentRow>, q1: string, q2: string)
    requires SameUpToCase(q1, q2)
    ensures FilteredStudents(rows, q1) == FilteredStudents(rows, q2)
  {
    forall row | row in rows ensures SearchFor(q1)(row) == SearchFor(q2)(row) {
      NameOrEmailIgnoresQueryCase(row.name, row.email, q1, q2);
    }
    FilterCongruent(rows, SearchFor(q1), SearchFor(q2));
  }

  /** Typing more characters into the search box never brings a row back. */
  lemma LongerQueryNarrows(rows: seq<StudentRow>, q: string, longer: string)
    requires |q| <= |longer| && longer[..|q|] == q
    ensures forall i :: 0 <= i < |rows| && rows[i] in FilteredStudents(rows, longer) ==>
      rows[i] in FilteredStudents(rows, q)
  {
    forall i | 0 <= i < |rows| && rows[i] in FilteredStudents(rows, longer)
      ensures rows[i] in FilteredStudents(rows, q)
    {
      NameOrEmailNarrows(rows[i].name, rows[i].email, q, longer);
    }
  }
}
