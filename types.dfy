/** The validation rules and defaults of the insert schemas for problems,
    test cases and submissions. Numbers arrive as JavaScript numbers, modelled
    as reals; "a positive integer" is checked on them. */
module Types {
  import opened Wrappers

  /** The first rule a request body breaks, in the order of the schema's fields. */
  datatype FieldError =
    | Required(message: string)
    | NotAnInteger(field: string)
    | NotPositive(field: string)

  /** The text a rejected body is answered with: the rule's own message, or
      the validator's standard message for the numeric checks. */
  function ErrorMessage(e: FieldError): (m: string)
    ensures m != "" || (e.Required? && e.message == "")
  {
    match e
    case Required(message) => message
    case NotAnInteger(_) => "Expected integer, received float"
    case NotPositive(_) => "Number must be greater than 0"
  }

  predicate IsInteger(x: real) {
    x.Floor as real == x
  }

  /** The problem fields as sent by a client (`marks` may be omitted). */
  datatype ProblemInput = ProblemInput(
    title: string,
    description: string,
    constraints: string,
    sampleInput: string,
    sampleOutput: string,
    marks: Option<real>)

  /** The problem fields after validation and defaults. */
  datatype ProblemData = ProblemData(
    title: string,
    description: string,
    constraints: string,
    sampleInput: string,
    sampleOutput: string,
    marks: int)

  const DefaultMarks: int := 25

  /** `z.number().int().positive()`: the first failing check, if any. */
  function CheckPositiveInt(field: string, x: real): (r: Option<FieldError>)
    ensures r.None? <==> IsInteger(x) && x > 0.0
  {
    if !IsInteger(x) then Some(NotAnInteger(field))
    else if x <= 0.0 then Some(NotPositive(field))
    else None
  }

  /** `z.string().min(1, message)`. */
  function CheckRequired(s: string, message: string): (r: Option<FieldError>)
    ensures r.None? <==> s != ""
  {
    if s == "" then Some(Required(message)) else None
  }

  /** `insertProblemSchema.parse`: the five texts must be non-empty and the
      marks a positive integer, 25 when omitted. */
  function ParseProblem(p: ProblemInput): (r: Result<ProblemData, FieldError>)
    ensures r.Ok? <==>
              p.title != "" && p.description != "" && p.constraints != "" &&
              p.sampleInput != "" && p.sampleOutput != "" &&
              (p.marks.Some? ==> IsInteger(p.marks.value) && p.marks.value > 0.0)
    ensures r.Ok? ==> r.value.marks > 0
    ensures r.Ok? ==> r.value.title == p.title && r.value.description == p.description &&
                      r.value.constraints == p.constraints && r.value.sampleInput == p.sampleInput &&
                      r.value.sampleOutput == p.sampleOutput
    ensures r.Ok? && p.marks.None? ==> r.value.marks == DefaultMarks
    ensures r.Ok? && p.marks.Some? ==> r.value.marks as real == p.marks.value
    ensures p.title == "" ==> r == Err(Required("Title is required"))
  {
    var firstError :=
      if p.title == "" then Some(Required("Title is required"))
      else if p.description == "" then Some(Required("Description is required"))
      else if p.constraints == "" then Some(Required("Constraints are required"))
      else if p.sampleInput == "" then Some(Required("Sample input is required"))
      else if p.sampleOutput == "" then Some(Required("Sample output is required"))
      else if p.marks.Some? then CheckPositiveInt("marks", p.marks.value)
      else None;
    match firstError
    case Some(e) => Err(e)
    case None =>
      Ok(ProblemData(p.title, p.description, p.constraints, p.sampleInput, p.sampleOutput,
                     if p.marks.Some? then p.marks.value.Floor else DefaultMarks))
  }

  /** The fields of `insertProblemSchema.partial()`: each may be omitted, and
      an omitted `marks` stays omitted (no default is applied). */
  datatype ProblemPatchInput = ProblemPatchInput(
    title: Option<string>,
    description: Option<string>,
    constraints: Option<string>,
    sampleInput: Option<string>,
    sampleOutput: Option<string>,
    marks: Option<real>)

  datatype ProblemPatch = ProblemPatch(
    title: Option<string>,
    description: Option<string>,
    constraints: Option<string>,
    sampleInput: Option<string>,
    sampleOutput: Option<string>,
    marks: Option<int>)

  function ParseProblemPatch(p: ProblemPatchInput): (r: Result<ProblemPatch, FieldError>)
    ensures r.Ok? <==>
              p.title != Some("") && p.description != Some("") && p.constraints != Some("") &&
              p.sampleInput != Some("") && p.sampleOutput != Some("") &&
              (p.marks.Some? ==> IsInteger(p.marks.value) && p.marks.value > 0.0)
    ensures r.Ok? ==> r.value.marks.Some? == p.marks.Some? && (r.value.marks.Some? ==> r.value.marks.value > 0)
    ensures r.Ok? ==> r.value.title == p.title && r.value.description == p.description &&
                      r.value.constraints == p.constraints && r.value.sampleInput == p.sampleInput &&
                      r.value.sampleOutput == p.sampleOutput
  {
    var firstError :=
      if p.title == Some("") then Some(Required("Title is required"))
      else if p.description == Some("") then Some(Required("Description is required"))
      else if p.constraints == Some("") then Some(Required("Constraints are required"))
      else if p.sampleInput == Some("") then Some(Required("Sample input is required"))
      else if p.sampleOutput == Some("") then Some(Required("Sample output is required"))
      else if p.marks.Some? then CheckPositiveInt("marks", p.marks.value)
      else None;
    match firstError
    case Some(e) => Err(e)
    case None =>
      Ok(ProblemPatch(p.title, p.description, p.constraints, p.sampleInput, p.sampleOutput,
                      if p.marks.Some? then Some(p.marks.value.Floor) else None))
  }

  /** A test case as sent inside a problem body (`problemId` is omitted there
      and supplied by the server). */
  datatype TestCaseInput = TestCaseInput(input: string, expectedOutput: string, isHidden: Option<bool>)

  datatype TestCaseData = TestCaseData(input: string, expectedOutput: string, isHidden: bool)

  /** The test-case fields after defaults: any texts, hidden unless said otherwise. */
  function ParseTestCase(t: TestCaseInput): (r: TestCaseData)
    ensures r.input == t.input && r.expectedOutput == t.expectedOutput
    ensures r.isHidden <==> t.isHidden != Some(false)
  {
    TestCaseData(t.input, t.expectedOutput, t.isHidden.GetOr(true))
  }

  /** `insertTestCaseSchema.parse` with a problem id: the id must be a
      positive integer; the texts may be empty. */
  function ParseFullTestCase(problemId: real, t: TestCaseInput): (r: Result<(int, TestCaseData), FieldError>)
    ensures r.Ok? <==> IsInteger(problemId) && problemId > 0.0
    ensures r.Ok? ==> r.value.0 as real == problemId && r.value.0 > 0 && r.value.1 == ParseTestCase(t)
  {
    match CheckPositiveInt("problemId", problemId)
    case Some(e) => Err(e)
    case None => Ok((problemId.Floor, ParseTestCase(t)))
  }

  /** A submission as sent to `insertSubmissionSchema`; `output` is absent,
      null (`Some(None)`) or a text. */
  datatype SubmissionInput = SubmissionInput(
    userId: string,
    problemId: real,
    code: string,
    language: string,
    status: string,
    score: Option<real>,
    output: Option<Option<string>>)

  datatype SubmissionData = SubmissionData(
    userId: string,
    problemId: int,
    code: string,
    language: string,
    status: string,
    score: int,
    output: Option<string>)

  /** `insertSubmissionSchema.parse`: a positive-integer problem id, an
      integer score that defaults to 0, an output that may be null or absent. */
  function ParseSubmission(s: SubmissionInput): (r: Result<SubmissionData, FieldError>)
    ensures r.Ok? <==> IsInteger(s.problemId) && s.problemId > 0.0 && (s.score.Some? ==> IsInteger(s.score.value))
    ensures r.Ok? ==> r.value.problemId > 0 && r.value.problemId as real == s.problemId
    ensures r.Ok? && s.score.None? ==> r.value.score == 0
    ensures r.Ok? && s.score.Some? ==> r.value.score as real == s.score.value
    ensures r.Ok? ==> (r.value.output.Some? <==> s.output.Some? && s.output.value.Some?)
  {
    match CheckPositiveInt("problemId", s.problemId)
    case Some(e) => Err(e)
    case None =>
      if s.score.Some? && !IsInteger(s.score.value) then Err(NotAnInteger("score"))
      else
        Ok(SubmissionData(s.userId, s.problemId.Floor, s.code, s.language, s.status,
                          if s.score.Some? then s.score.value.Floor else 0,
                          if s.output.Some? then s.output.value else None))
  }

  /** The outcome reported for a run: every run response is one of these. */
  datatype RunStatus = Pass | Fail | Error

  function RunStatusText(s: RunStatus): (r: string)
    ensures r in {"pass", "fail", "error"}
  {
    match s
    case Pass => "pass"
    case Fail => "fail"
    case Error => "error"
  }

  /** The three texts a run status may take, and only those. */
  lemma RunStatusTextsAreDistinct(a: RunStatus, b: RunStatus)
    ensures RunStatusText(a) == RunStatusText(b) <==> a == b
  {
  }
}
