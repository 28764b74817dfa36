/** The student dashboard (`pages/StudentDashboard.tsx`): how the three
    query answers are stored, and the statistics and lists drawn from them. */
module StudentDashboard {
  import opened Wrappers
  import opened Records
  import opened DashboardCommon

  /** An upcoming assignment with the student's submissions to it, which
      the query may leave out (`null`). */
  datatype StudentAssignment = StudentAssignment(assignment: Assignment, submissions: Option<seq<Submission>>)

  /** `submissions.filter(s => s.grade !== null)` */
  function GradedSubmissions(submissions: seq<Submission>): (graded: seq<Submission>)
    ensures |graded| <= |submissions|
    ensures forall s :: s in graded ==> s in submissions && s.grade.Some?
    ensures forall s :: s in submissions && s.grade.Some? ==> s in graded
    ensures forall s :: multiset(graded)[s] == if s.grade.Some? then multiset(submissions)[s] else 0
    ensures |graded| == |submissions| <==> forall s :: s in submissions ==> s.grade.Some?
  {
    if submissions == [] then []
    else
      var rest := GradedSubmissions(submissions[1..]);
      assert submissions == [submissions[0]] + submissions[1..];
      if submissions[0].grade.Some? then [submissions[0]] + rest else rest
  }

  /** The "Completed" figure: the number of graded submissions. */
  function CompletedCount(submissions: seq<Submission>): (n: nat)
    ensures n <= |submissions|
    ensures n == 0 <==> forall s :: s in submissions ==> s.grade.None?
    ensures n == |submissions| <==> forall s :: s in submissions ==> s.grade.Some?
  {
    |GradedSubmissions(submissions)|
  }

  /** An assignment without submissions, missing or empty. */
  predicate IsPending(a: StudentAssignment) {
    a.submissions.None? || a.submissions.value == []
  }

  /** The "Pending Tasks" figure. */
  function PendingCount(assignments: seq<StudentAssignment>): (n: nat)
    ensures n <= |assignments|
    ensures n == 0 <==> forall i :: 0 <= i < |assignments| ==> !IsPending(assignments[i])
  {
    if assignments == [] then 0
    else
      var rest := PendingCount(assignments[1..]);
      assert forall i :: 0 < i < |assignments| ==> assignments[i] == assignments[1..][i - 1];
      (if IsPending(assignments[0]) then 1 else 0) + rest
  }

  /** `reduce((sum, s) => sum + (s.grade || 0), 0)` over graded submissions. */
  function GradeTotal(graded: seq<Submission>): (total: int)
    ensures (forall s :: s in graded ==> s.grade.GetOr(0) >= 0) ==> total >= 0
  {
    if graded == [] then 0 else graded[0].grade.GetOr(0) + GradeTotal(graded[1..])
  }

  /** `Math.round(n / d)`: the nearest integer, halves rounded up. */
  function RoundHalfUp(n: int, d: int): (r: int)
    requires d > 0
    ensures 2 * d * r <= 2 * n + d < 2 * d * (r + 1)
  {
    (2 * n + d) / (2 * d)
  }

  /** A number, or `NaN` (zero divided by zero). */
  datatype Average = Value(value: int) | NotANumber

  /** The "Average Grade" figure: 0 without submissions; otherwise the
      rounded mean of the graded ones, which is `NaN` when none is graded. */
  function AverageGrade(submissions: seq<Submission>): (average: Average)
    ensures submissions == [] ==> average == Value(0)
    ensures average.NotANumber? <==> submissions != [] && CompletedCount(submissions) == 0
  {
    if |submissions| == 0 then Value(0)
    else
      var graded := GradedSubmissions(submissions);
      if |graded| == 0 then NotANumber
      else Value(RoundHalfUp(GradeTotal(graded), |graded|))
  }

  /** What the average's card shows. */
  datatype GradeLabel = Percent(value: int) | NotAvailable

  /** `averageGrade > 0 ? ... : 'N/A'`; `NaN > 0` is false. */
  function AverageLabel(average: Average): (card: GradeLabel)
    ensures card.Percent? <==> average.Value? && average.value > 0
    ensures card.Percent? ==> card.value == average.value
  {
    if average.Value? && average.value > 0 then Percent(average.value) else NotAvailable
  }

  /** The average is 0 without submissions and `NaN` when some exist but
      none is graded; both are shown as "N/A". */
  lemma AverageEdgeCases(submissions: seq<Submission>)
    ensures submissions == [] ==> AverageGrade(submissions) == Value(0)
    ensures submissions != [] && CompletedCount(submissions) == 0 ==> AverageGrade(submissions) == NotANumber
    ensures CompletedCount(submissions) == 0 ==> AverageLabel(AverageGrade(submissions)) == NotAvailable
  {
  }

  /** Every grade lies between `lo` and `hi`. */
  predicate GradesWithin(submissions: seq<Submission>, lo: int, hi: int) {
    forall s :: s in submissions && s.grade.Some? ==> lo <= s.grade.value <= hi
  }

  lemma {:induction false} GradeTotalBounds(graded: seq<Submission>, lo: int, hi: int)
    requires forall s :: s in graded ==> s.grade.Some? && lo <= s.grade.value <= hi
    ensures lo * |graded| <= GradeTotal(graded) <= hi * |graded|
  {
    if graded != [] {
      var rest, n := graded[1..], |graded| - 1;
      GradeTotalBounds(rest, lo, hi);
      assert GradeTotal(graded) == graded[0].grade.value + GradeTotal(rest);
      assert lo * (n + 1) == lo * n + lo;
      assert hi * (n + 1) == hi * n + hi;
    }
  }

  /** The average of graded work lies within the range of the grades. */
  lemma AverageWithinGradeRange(submissions: seq<Submission>, lo: int, hi: int)
    requires CompletedCount(submissions) > 0
    requires GradesWithin(submissions, lo, hi)
    ensures AverageGrade(submissions).Value?
    ensures lo <= AverageGrade(submissions).value <= hi
  {
    var graded := GradedSubmissions(submissions);
    var d, n := |graded|, GradeTotal(graded);
    GradeTotalBounds(graded, lo, hi);
    RoundHalfUpWithin(n, d, lo, hi);
  }

  /** Rounding a mean keeps it within the bounds of what was averaged. */
  lemma RoundHalfUpWithin(n: int, d: int, lo: int, hi: int)
    requires d > 0
    requires lo * d <= n <= hi * d
    ensures lo <= RoundHalfUp(n, d) <= hi
  {
    var r := RoundHalfUp(n, d);
    if r < lo {
      MulMonotonic(d, r + 1, lo);
      assert false;
    }
    if r > hi {
      MulMonotonic(d, hi + 1, r);
      assert false;
    }
  }

  lemma MulMonotonic(d: int, a: int, b: int)
    requires d > 0 && a <= b
    ensures d * a <= d * b
  {
    assert d * b - d * a == d * (b - a);
  }

  /** With every grade at least 1, some graded work shows a percentage. */
  lemma AverageShownForPositiveGrades(submissions: seq<Submission>, hi: int)
    requires CompletedCount(submissions) > 0
    requires GradesWithin(submissions, 1, hi)
    ensures AverageLabel(AverageGrade(submissions)).Percent?
  {
    AverageWithinGradeRange(submissions, 1, hi);
  }

  /** How an upcoming assignment is shown. */
  datatype AssignmentStatus = AwaitingSubmission | Submitted | Graded(grade: int)

  /** Submitted when it has submissions; graded when the first one has a grade. */
  function StatusOf(a: StudentAssignment): (status: AssignmentStatus)
    ensures status == AwaitingSubmission <==> IsPending(a)
    ensures status.Graded? <==> !IsPending(a) && a.submissions.value[0].grade.Some?
    ensures status.Graded? ==> status.grade == a.submissions.value[0].grade.value
  {
    if IsPending(a) then AwaitingSubmission
    else match a.submissions.value[0].grade
      case Some(g) => Graded(g)
      case None => Submitted
  }

  /** The upcoming assignments that are shown with a "Submit" button. */
  function SubmitButtons(assignments: seq<StudentAssignment>): (buttons: seq<StudentAssignment>)
    ensures |buttons| <= |assignments|
    ensures forall a :: a in buttons ==> a in assignments && IsPending(a)
    ensures forall a :: a in assignments && IsPending(a) ==> a in buttons
    ensures forall a :: multiset(buttons)[a] == if IsPending(a) then multiset(assignments)[a] else 0
  {
    if assignments == [] then []
    else
      assert assignments == [assignments[0]] + assignments[1..];
      (if StatusOf(assignments[0]) == AwaitingSubmission then [assignments[0]] else [])
      + SubmitButtons(assignments[1..])
  }

  /** The "Pending Tasks" figure counts exactly the assignments listed with
      a "Submit" button. */
  lemma {:induction false} PendingCountsSubmitButtons(assignments: seq<StudentAssignment>)
    ensures PendingCount(assignments) == |SubmitButtons(assignments)|
  {
    if assignments != [] {
      PendingCountsSubmitButtons(assignments[1..]);
    }
  }

  /** The four figures on the dashboard. */
  datatype StudentStats = StudentStats(enrolledCourses: nat, pendingTasks: nat, completed: nat, averageGrade: GradeLabel)

  class StudentDashboardPage {
    var enrolledCourses: seq<Course>
    var assignments: seq<StudentAssignment>
    var submissions: seq<Submission>
    var loading: bool

    /** Without enrolled courses there are no upcoming assignments. */
    ghost predicate Valid()
      reads this
    {
      enrolledCourses == [] ==> assignments == []
    }

    /** Empty lists while the first fetch runs. */
    constructor ()
      ensures Valid()
      ensures enrolledCourses == [] && assignments == [] && submissions == [] && loading
    {
      enrolledCourses := [];
      assignments := [];
      submissions := [];
      loading := true;
    }

    /** `fetchDashboardData`, given the three answers. The assignments are
        only asked for when some course is enrolled. The lists change only
        when every query that is made succeeds, all three together; loading
        ends on every path. */
    method FetchDashboardData(enrollments: FetchResult<Course>, assignmentRows: FetchResult<StudentAssignment>, submissionRows: FetchResult<Submission>)
      requires Valid()
      modifies this
      ensures Valid() && !loading
      ensures FetchSucceeds(enrollments, assignmentRows, submissionRows) ==>
        && enrolledCourses == RowsOrEmpty(enrollments)
        && assignments == (if enrolledCourses == [] then [] else RowsOrEmpty(assignmentRows))
        && submissions == RowsOrEmpty(submissionRows)
      ensures !FetchSucceeds(enrollments, assignmentRows, submissionRows) ==>
        && enrolledCourses == old(enrolledCourses)
        && assignments == old(assignments)
        && submissions == old(submissions)
    {
      if enrollments.QueryError? {
        loading := false;
        return;
      }
      var courses := RowsOrEmpty(enrollments);
      var assignmentsData: seq<StudentAssignment> := [];
      if |courses| > 0 {
        if assignmentRows.QueryError? {
          loading := false;
          return;
        }
        assignmentsData := RowsOrEmpty(assignmentRows);
      }
      if submissionRows.QueryError? {
        loading := false;
        return;
      }
      enrolledCourses := courses;
      assignments := assignmentsData;
      submissions := RowsOrEmpty(submissionRows);
      loading := false;
    }

    /** The figures shown on the cards. */
    function Stats(): (stats: StudentStats)
      reads this
      requires Valid()
      ensures stats.enrolledCourses == |enrolledCourses|
      ensures stats.completed <= |submissions|
      ensures stats.pendingTasks <= |assignments|
      ensures enrolledCourses == [] ==> stats.pendingTasks == 0
    {
      StudentStats(|enrolledCourses|, PendingCount(assignments), CompletedCount(submissions), AverageLabel(AverageGrade(submissions)))
    }
  }

  /** Every query that is made answers with rows. */
  predicate FetchSucceeds(enrollments: FetchResult<Course>, assignmentRows: FetchResult<StudentAssignment>, submissionRows: FetchResult<Submission>) {
    && enrollments.Rows?
    && (RowsOrEmpty(enrollments) == [] || assignmentRows.Rows?)
    && submissionRows.Rows?
  }
}
