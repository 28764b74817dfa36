/** The rows of the hosted database that the pages read (`types/database.ts`).
    Joined rows that the declarations allow (a course's teacher, a
    submission's student, ...) are not carried. */
module Records {
  import opened Wrappers

  /** The text a profile's role column may hold: "teacher", "student", or
      any other text, which the declared column type does not admit but
      the pages still handle. */
  datatype RoleText = Teacher | Student | Other(name: string)

  /** A profile's role: `Other` never stands for "teacher" or "student". */
  type Role = r: RoleText | !(r.Other? && (r.name == "teacher" || r.name == "student")) witness Teacher

  datatype Profile = Profile(
    id: string,
    name: string,
    email: string,
    role: Role,
    createdAt: string,
    updatedAt: string)

  datatype Course = Course(
    id: string,
    title: string,
    description: Option<string>,
    duration: Option<int>,
    createdBy: string,
    createdAt: string,
    updatedAt: string,
    enrollmentCount: Option<int>,
    isEnrolled: Option<bool>)

  datatype Assignment = Assignment(
    id: string,
    courseId: string,
    title: string,
    description: Option<string>,
    dueDate: Option<string>,
    createdBy: string,
    createdAt: string,
    updatedAt: string)

  /** `grade` is `None` while the submission is ungraded (`null`). */
  datatype Submission = Submission(
    id: string,
    assignmentId: string,
    studentId: string,
    content: Option<string>,
    fileUrl: Option<string>,
    grade: Option<int>,
    feedback: Option<string>,
    submittedAt: string,
    gradedAt: Option<string>)
}
