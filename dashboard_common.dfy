/** What the two dashboards share: the shape of a query's answer and the
    rule for the course list (the first three courses, then a
    "View All Courses" link). */
module DashboardCommon {
  import opened Wrappers
  import opened Records

  /** How many courses a dashboard lists. */
  const ListedCourses := 3

  /** A query's answer: rows (possibly `null`), or an error that the page throws. */
  datatype FetchResult<T> = Rows(data: Option<seq<T>>) | QueryError(message: string)

  /** `data || []` */
  function RowsOrEmpty<T>(r: FetchResult<T>): (rows: seq<T>)
    requires r.Rows?
    ensures r.data.Some? ==> rows == r.data.value
    ensures r.data.None? ==> rows == []
  {
    r.data.GetOr([])
  }

  /** `courses.slice(0, 3)`: a prefix of at most three courses, all of them
      when there are no more than three. */
  function VisibleCourses(courses: seq<Course>): (shown: seq<Course>)
    ensures |shown| <= ListedCourses && |shown| <= |courses| && shown == courses[..|shown|]
    ensures |courses| <= ListedCourses ==> shown == courses
    ensures |courses| >= ListedCourses ==> |shown| == ListedCourses
  {
    if |courses| <= ListedCourses then courses else courses[..ListedCourses]
  }

  /** The "View All Courses" link. */
  predicate ShowsViewAll(courses: seq<Course>) {
    |courses| > ListedCourses
  }

  /** The empty-list message. */
  predicate ShowsEmptyState(courses: seq<Course>) {
    |courses| == 0
  }

  /** The link appears exactly when some course is left out of the list. */
  lemma ViewAllIffCoursesHidden(courses: seq<Course>)
    ensures ShowsViewAll(courses) <==> VisibleCourses(courses) != courses
  {
    if ShowsViewAll(courses) {
      assert |VisibleCourses(courses)| < |courses|;
    }
  }

  /** The empty-list message, the list and the link never mix: with no
      courses nothing is listed and there is no link. */
  lemma EmptyStateExcludesList(courses: seq<Course>)
    ensures ShowsEmptyState(courses) <==> VisibleCourses(courses) == []
    ensures ShowsEmptyState(courses) ==> !ShowsViewAll(courses)
  {
  }
}
