/** The rows of the four tables: users, problems, test cases and submissions. */
module Schema {
  import opened Wrappers

  /** A user row. Only the columns the core reads are kept; a missing
      nullable column is `None`. */
  datatype User = User(
    id: string,
    email: Option<string>,
    profileImageUrl: Option<string>,
    isAdmin: bool,
    college: Option<string>,
    department: Option<string>,
    age: Option<int>)

  datatype Problem = Problem(
    id: int,
    title: string,
    description: string,
    constraints: string,
    sampleInput: string,
    sampleOutput: string,
    marks: int)

  datatype TestCase = TestCase(
    id: int,
    problemId: int,
    input: string,
    expectedOutput: string,
    isHidden: bool)

  datatype Submission = Submission(
    id: int,
    userId: string,
    problemId: int,
    code: string,
    language: string,
    status: string,
    score: int,
    output: Option<string>)
}
