/** The teacher dashboard (`pages/TeacherDashboard.tsx`): how the three query
    answers are stored, and the figures and lists drawn from them. */
module TeacherDashboard {
  import opened Wrappers
  import opened Records
  import opened DashboardCommon

  /** The enrolment count on a course card: `enrollment_count || 0`. */
  function EnrollmentShown(c: Course): (shown: int)
    ensures c.enrollmentCount.None? ==> shown == 0
    ensures shown != 0 ==> c.enrollmentCount == Some(shown)
  {
    c.enrollmentCount.GetOr(0)
  }

  /** No course reports a negative enrolment count. */
  predicate CountsNonNegative(courses: seq<Course>) {
    forall c :: c in courses ==> EnrollmentShown(c) >= 0
  }

  /** The "Total Students" figure: the cards' counts added up. */
  function TotalStudents(courses: seq<Course>): (total: int)
    ensures CountsNonNegative(courses) ==> total >= 0
    ensures courses == [] ==> total == 0
  {
    if courses == [] then 0 else EnrollmentShown(courses[0]) + TotalStudents(courses[1..])
  }

  /** The total splits over any division of the course list. */
  lemma {:induction false} TotalStudentsAppend(a: seq<Course>, b: seq<Course>)
    ensures TotalStudents(a + b) == TotalStudents(a) + TotalStudents(b)
  {
    if a == [] {
      assert a + b == b;
    } else {
      assert (a + b)[1..] == a[1..] + b;
      TotalStudentsAppend(a[1..], b);
    }
  }

  /** With no negative counts, no card shows more students than the total,
      and the listed courses account for no more than the total. */
  lemma {:induction false} CardAtMostTotal(courses: seq<Course>, i: int)
    requires CountsNonNegative(courses) && 0 <= i < |courses|
    ensures EnrollmentShown(courses[i]) <= TotalStudents(courses)
    ensures TotalStudents(VisibleCourses(courses)) <= TotalStudents(courses)
  {
    if i > 0 {
      assert courses[1..][i - 1] == courses[i];
      assert CountsNonNegative(courses[1..]);
      CardAtMostTotal(courses[1..], i - 1);
    }
    var shown := VisibleCourses(courses);
    assert courses == shown + courses[|shown|..];
    TotalStudentsAppend(shown, courses[|shown|..]);
    assert CountsNonNegative(courses[|shown|..]);
  }

  /** The four figures on the dashboard. */
  datatype TeacherStats = TeacherStats(myCourses: nat, totalStudents: int, assignments: nat, pendingGrades: nat)

  class TeacherDashboardPage {
    var courses: seq<Course>
    var assignments: seq<Assignment>
    var submissions: seq<Submission>
    var loading: bool

    /** Empty lists while the first fetch runs. */
    constructor ()
      ensures courses == [] && assignments == [] && submissions == [] && loading
    {
      courses := [];
      assignments := [];
      submissions := [];
      loading := true;
    }

    /** `fetchDashboardData`, given the three answers in the order they are
        asked for. The lists change only when all three succeed; loading
        ends on every path. */
    method FetchDashboardData(courseRows: FetchResult<Course>, assignmentRows: FetchResult<Assignment>, submissionRows: FetchResult<Submission>)
      modifies this
      ensures !loading
      ensures courseRows.Rows? && assignmentRows.Rows? && submissionRows.Rows? ==>
        && courses == RowsOrEmpty(courseRows)
        && assignments == RowsOrEmpty(assignmentRows)
        && submissions == RowsOrEmpty(submissionRows)
      ensures !(courseRows.Rows? && assignmentRows.Rows? && submissionRows.Rows?) ==>
        && courses == old(courses)
        && assignments == old(assignments)
        && submissions == old(submissions)
    {
      if courseRows.QueryError? || assignmentRows.QueryError? || submissionRows.QueryError? {
        loading := false;
        return;
      }
      courses := RowsOrEmpty(courseRows);
      assignments := RowsOrEmpty(assignmentRows);
      submissions := RowsOrEmpty(submissionRows);
      loading := false;
    }

    /** The figures shown on the cards: list lengths and the student total. */
    function Stats(): (stats: TeacherStats)
      reads this
      ensures stats.myCourses == |courses|
      ensures stats.assignments == |assignments|
      ensures stats.pendingGrades == |submissions|
      ensures CountsNonNegative(courses) ==> stats.totalStudents >= 0
      ensures courses == [] ==> stats.totalStudents == 0
    {
      TeacherStats(|courses|, TotalStudents(courses), |assignments|, |submissions|)
    }
  }
}
