/** The HTTP handlers of the back end: problem administration, the problem
    view that hides hidden test cases, and grading (run and submit). The
    caller's identity arrives as parameters (`isAdmin`, `userId`), as the
    authentication middleware supplies them. */
module Routes {
  import opened Wrappers
  import opened Text
  import opened Schema
  import opened Types
  import Piston
  import Storage
  import opened ApiRoutes

  /** A JSON reply: a status with a payload, or a status with `{ message }`. */
  datatype HttpReply<T> = Reply(status: int, payload: T) | ErrorReply(status: int, message: string)

  const AdminRequired := "Admin access required"

  /** The result reported for one test case. */
  datatype TestResult = TestResult(passed: bool, input: string, expectedOutput: string,
                                   actualOutput: string, isHidden: bool, error: Option<string>)

  /** JavaScript's `!error`: no error, or an empty one. */
  predicate NoError(e: Piston.ExecutionResult) {
    e.error.None? || e.error == Some("")
  }

  /** The verdict on one test case and what of it is shown: a hidden case
      shows neither its input nor its expected output, and instead of the
      actual output only whether it passed. */
  function Grade(tc: TestCase, e: Piston.ExecutionResult): (r: TestResult)
    ensures r.passed <==> NoError(e) && e.output == Trim(tc.expectedOutput)
    ensures r.isHidden == tc.isHidden && r.error == e.error
    ensures tc.isHidden ==> r.input == "Hidden" && r.expectedOutput == "Hidden" &&
                            r.actualOutput == (if r.passed then "Hidden" else "Incorrect")
    ensures !tc.isHidden ==> r.input == tc.input && r.expectedOutput == tc.expectedOutput && r.actualOutput == e.output
  {
    var passed := NoError(e) && e.output == Trim(tc.expectedOutput);
    TestResult(passed,
               if tc.isHidden then "Hidden" else tc.input,
               if tc.isHidden then "Hidden" else tc.expectedOutput,
               if tc.isHidden then (if passed then "Hidden" else "Incorrect") else e.output,
               tc.isHidden,
               e.error)
  }

  /** Two hidden cases run to the same execution result and the same verdict
      are reported identically: the report reveals nothing else of them. */
  lemma HiddenCaseRevealsOnlyVerdict(tc1: TestCase, tc2: TestCase, e: Piston.ExecutionResult)
    requires tc1.isHidden && tc2.isHidden
    requires Grade(tc1, e).passed == Grade(tc2, e).passed
    ensures Grade(tc1, e) == Grade(tc2, e)
  {
  }

  /** The execution service never answers with an empty error, so a case
      passes exactly when there is no error and the trimmed outputs agree. */
  lemma PistonVerdict(tc: TestCase, language: string, code: string, call: Piston.Request -> Piston.Reply)
    ensures var e := Piston.ExecuteCode(language, code, tc.input, call);
            Grade(tc, e).passed <==> e.error.None? && e.output == Trim(tc.expectedOutput)
  {
  }

  /** The loop of `runTests`: one result per case, in order, and
      `allPassed` exactly when every one passed (so also when there are none). */
  method GradeCases(testCases: seq<TestCase>, code: string, language: string,
                    execute: (string, string, string) -> Piston.ExecutionResult)
    returns (results: seq<TestResult>, allPassed: bool)
    ensures |results| == |testCases|
    ensures forall i :: 0 <= i < |results| ==>
              results[i] == Grade(testCases[i], execute(language, code, testCases[i].input))
    ensures allPassed <==> forall i :: 0 <= i < |results| ==> results[i].passed
  {
    results := [];
    allPassed := true;
    for k := 0 to |testCases|
      invariant |results| == k
      invariant forall i :: 0 <= i < k ==> results[i] == Grade(testCases[i], execute(language, code, testCases[i].input))
      invariant allPassed <==> forall i :: 0 <= i < k ==> results[i].passed
    {
      var tc := testCases[k];
      var r := Grade(tc, execute(language, code, tc.input));
      if !r.passed {
        allPassed := false;
      }
      ghost var before := results;
      results := results + [r];
      forall i | 0 <= i < k + 1
        ensures results[i] == Grade(testCases[i], execute(language, code, testCases[i].input))
      {
        if i < k { assert results[i] == before[i]; }
      }
    }
  }

  /** `runTests(problemId, code, language)` grades the problem's stored test
      cases in stored order. */
  method RunTests(store: Storage.Store, problemId: int, code: string, language: string,
                  execute: (string, string, string) -> Piston.ExecutionResult)
    returns (testCases: seq<TestCase>, results: seq<TestResult>, allPassed: bool)
    ensures testCases == store.TestCasesOf(problemId)
    ensures |results| == |testCases|
    ensures forall i :: 0 <= i < |results| ==>
              results[i] == Grade(testCases[i], execute(language, code, testCases[i].input))
    ensures allPassed <==> forall i :: 0 <= i < |results| ==> results[i].passed
  {
    testCases := store.TestCasesOf(problemId);
    results, allPassed := GradeCases(testCases, code, language, execute);
  }

  /** The run and submit bodies: `language` must be one of the three enum values. */
  datatype CodeBody = CodeBody(code: string, language: string, problemId: int)

  datatype RunOutcome = RunOutcome(status: RunStatus, results: seq<TestResult>)

  /** The executor the handlers use: the execution service behind `call`. */
  function PistonExecutor(call: Piston.Request -> Piston.Reply): (string, string, string) -> Piston.ExecutionResult {
    (language: string, code: string, input: string) => Piston.ExecuteCode(language, code, input, call)
  }

  /** POST /api/run: "pass" exactly when every case passed, "fail" otherwise,
      never "error"; a body that does not validate is answered with 500. */
  method RunHandler(store: Storage.Store, body: CodeBody, call: Piston.Request -> Piston.Reply)
    returns (reply: HttpReply<RunOutcome>)
    ensures !AcceptedLanguage(body.language) ==> reply == ErrorReply(500, "Execution failed")
    ensures AcceptedLanguage(body.language) ==> reply.Reply? && reply.status == 200
    ensures reply.Reply? ==> reply.payload.status != Error
    ensures reply.Reply? ==>
              var cases := store.TestCasesOf(body.problemId);
              var results := reply.payload.results;
              && |results| == |cases|
              && (forall i :: 0 <= i < |results| ==>
                    results[i] == Grade(cases[i], Piston.ExecuteCode(body.language, body.code, cases[i].input, call)))
              && (reply.payload.status == Pass <==> forall i :: 0 <= i < |results| ==> results[i].passed)
  {
    if !AcceptedLanguage(body.language) {
      return ErrorReply(500, "Execution failed");
    }
    var _, results, allPassed := RunTests(store, body.problemId, body.code, body.language, PistonExecutor(call));
    reply := Reply(200, RunOutcome(if allPassed then Pass else Fail, results));
  }

  /** `problem?.marks || 0`. */
  function AwardedScore(problem: Option<Problem>): (score: int)
    ensures problem.None? ==> score == 0
    ensures problem.Some? ==> score == problem.value.marks
  {
    if problem.Some? && problem.value.marks != 0 then problem.value.marks else 0
  }

  /** Every one of `cases` passes when `body`'s code is run on it. */
  ghost predicate AllPass(cases: seq<TestCase>, body: CodeBody, call: Piston.Request -> Piston.Reply) {
    forall tc :: tc in cases ==> Grade(tc, Piston.ExecuteCode(body.language, body.code, tc.input, call)).passed
  }

  /** The row a successful submit stores: the caller's code for the problem,
      status "pass", the problem's marks as score. */
  predicate PassingSubmission(s: Submission, userId: string, body: CodeBody, marks: int) {
    && s.userId == userId && s.problemId == body.problemId
    && s.code == body.code && s.language == body.language
    && s.status == "pass" && s.output == Some("All test cases passed")
    && s.score == marks
  }

  /** The results of grading with the Piston executor all pass exactly
      when every case passes. */
  lemma GradedAllPass(cases: seq<TestCase>, results: seq<TestResult>, body: CodeBody, call: Piston.Request -> Piston.Reply)
    requires |results| == |cases|
    requires forall i :: 0 <= i < |results| ==>
               results[i] == Grade(cases[i], PistonExecutor(call)(body.language, body.code, cases[i].input))
    ensures (forall i :: 0 <= i < |results| ==> results[i].passed) <==> AllPass(cases, body, call)
  {
    if forall i :: 0 <= i < |results| ==> results[i].passed {
      forall tc | tc in cases
        ensures Grade(tc, Piston.ExecuteCode(body.language, body.code, tc.input, call)).passed
      {
        var i :| 0 <= i < |cases| && cases[i] == tc;
        assert results[i].passed;
      }
    } else {
      var i :| 0 <= i < |results| && !results[i].passed;
      assert cases[i] in cases;
    }
  }

  /** POST /api/submissions: a submission is stored exactly when every test
      case passed and the problem and the user exist; it is stored as "pass"
      with the problem's marks as its score. A failing case gives 400 and a
      rejected insert 500, and neither stores anything. */
  method SubmitHandler(store: Storage.Store, userId: string, body: CodeBody, call: Piston.Request -> Piston.Reply)
    returns (reply: HttpReply<Submission>)
    requires store.Valid()
    modifies store`submissions, store`nextSubmissionId
    ensures store.Valid()
    ensures reply.Reply? <==> store.submissions != old(store.submissions)
    ensures !AcceptedLanguage(body.language) ==> reply == ErrorReply(500, "Submission failed")
    ensures reply.Reply? ==>
              && reply.status == 201
              && AcceptedLanguage(body.language)
              && AllPass(old(store.TestCasesOf(body.problemId)), body, call)
              && old(store.GetProblem(body.problemId)).Some?
              && store.submissions == old(store.submissions) + [reply.payload]
              && PassingSubmission(reply.payload, userId, body, old(store.GetProblem(body.problemId)).value.marks)
    ensures AcceptedLanguage(body.language) && !AllPass(old(store.TestCasesOf(body.problemId)), body, call) ==>
              reply == ErrorReply(400, "All test cases must pass to submit.")
    ensures AcceptedLanguage(body.language) && AllPass(old(store.TestCasesOf(body.problemId)), body, call) ==>
              if body.problemId in old(store.ProblemIds()) && userId in old(store.UserIds()) then reply.Reply?
              else reply == ErrorReply(500, "Submission failed")
  {
    if !AcceptedLanguage(body.language) {
      return ErrorReply(500, "Submission failed");
    }
    var cases, results, allPassed := RunTests(store, body.problemId, body.code, body.language, PistonExecutor(call));
    GradedAllPass(cases, results, body, call);
    if !allPassed {
      return ErrorReply(400, "All test cases must pass to submit.");
    }
    var problem := store.GetProblem(body.problemId);
    var created := store.CreateSubmission(SubmissionData(userId, body.problemId, body.code, body.language,
                                                         "pass", AwardedScore(problem), Some("All test cases passed")));
    if created.None? {
      return ErrorReply(500, "Submission failed");
    }
    reply := Reply(201, created.value);
  }

  /** GET /api/problems/:id shows a hidden test case with "Hidden" in place
      of its input and expected output, and a visible one as stored. */
  function Masked(tc: TestCase): (r: TestCase)
    ensures r.id == tc.id && r.problemId == tc.problemId && r.isHidden == tc.isHidden
    ensures tc.isHidden ==> r.input == "Hidden" && r.expectedOutput == "Hidden"
    ensures !tc.isHidden ==> r == tc
  {
    if tc.isHidden then tc.(input := "Hidden", expectedOutput := "Hidden") else tc
  }

  datatype ProblemView = ProblemView(problem: Problem, testCases: seq<TestCase>)

  /** GET /api/problems/:id. */
  function GetProblemHandler(store: Storage.Store, id: int): (reply: HttpReply<ProblemView>)
    reads store
    ensures id !in store.ProblemIds() ==> reply == ErrorReply(404, "Problem not found")
    ensures id in store.ProblemIds() ==>
              && reply.Reply? && reply.status == 200
              && reply.payload.problem == store.GetProblem(id).value
              && |reply.payload.testCases| == |store.TestCasesOf(id)|
              && forall i :: 0 <= i < |reply.payload.testCases| ==>
                   reply.payload.testCases[i] == Masked(store.TestCasesOf(id)[i])
  {
    match store.GetProblem(id)
    case None => ErrorReply(404, "Problem not found")
    case Some(problem) =>
      var tcs := store.TestCasesOf(id);
      Reply(200, ProblemView(problem, seq(|tcs|, i requires 0 <= i < |tcs| => Masked(tcs[i]))))
  }

  /** Masking is all a reader learns of a hidden case besides its ids: two
      hidden cases that differ only in their texts are shown identically. */
  lemma MaskedHiddenCasesAgree(tc1: TestCase, tc2: TestCase)
    requires tc1.isHidden && tc2.isHidden
    requires tc1.id == tc2.id && tc1.problemId == tc2.problemId
    ensures Masked(tc1) == Masked(tc2)
  {
  }

  /** The stored texts of test cases, without their ids. */
  function Contents(tcs: seq<TestCase>): (r: seq<TestCaseData>)
    ensures |r| == |tcs|
    ensures forall i :: 0 <= i < |tcs| ==> r[i] == TestCaseData(tcs[i].input, tcs[i].expectedOutput, tcs[i].isHidden)
  {
    seq(|tcs|, i requires 0 <= i < |tcs| => TestCaseData(tcs[i].input, tcs[i].expectedOutput, tcs[i].isHidden))
  }

  function ParseAll(inputs: seq<TestCaseInput>): (r: seq<TestCaseData>)
    ensures |r| == |inputs|
    ensures forall i :: 0 <= i < |inputs| ==> r[i] == ParseTestCase(inputs[i])
  {
    seq(|inputs|, i requires 0 <= i < |inputs| => ParseTestCase(inputs[i]))
  }

  /** Appending rows of one problem to a table that holds none of its rows
      makes them exactly that problem's rows and leaves every other
      problem's rows as they were. */
  lemma AppendedRowsOfOneProblem(base: seq<TestCase>, added: seq<TestCase>, problemId: int)
    requires Storage.Filter(base, Storage.ForProblem(problemId)) == []
    requires forall tc :: tc in added ==> tc.problemId == problemId
    ensures Storage.Filter(base + added, Storage.ForProblem(problemId)) == added
    ensures forall q :: q != problemId ==>
              Storage.Filter(base + added, Storage.ForProblem(q)) == Storage.Filter(base, Storage.ForProblem(q))
  {
    Storage.FilterConcat(base, added, Storage.ForProblem(problemId));
    Storage.FilterAll(added, Storage.ForProblem(problemId));
    forall q | q != problemId
      ensures Storage.Filter(base + added, Storage.ForProblem(q)) == Storage.Filter(base, Storage.ForProblem(q))
    {
      Storage.FilterConcat(base, added, Storage.ForProblem(q));
      Storage.FilterNone(added, Storage.ForProblem(q));
    }
  }

  /** Inserts the given test cases for an existing problem that has none,
      one `createTestCase` call after another. */
  method InsertTestCases(store: Storage.Store, problemId: int, inputs: seq<TestCaseInput>)
    requires store.Valid() && problemId in store.ProblemIds() && store.TestCasesOf(problemId) == []
    modifies store`testCases, store`nextTestCaseId
    ensures store.Valid()
    ensures Contents(store.TestCasesOf(problemId)) == ParseAll(inputs)
    ensures forall q :: q != problemId ==> store.TestCasesOf(q) == old(store.TestCasesOf(q))
  {
    ghost var base := store.testCases;
    ghost var added: seq<TestCase> := [];
    for k := 0 to |inputs|
      invariant store.Valid() && problemId in store.ProblemIds()
      invariant store.testCases == base + added
      invariant forall tc :: tc in added ==> tc.problemId == problemId
      invariant Contents(added) == ParseAll(inputs[..k])
    {
      var created := store.CreateTestCase(problemId, ParseTestCase(inputs[k]));
      added := added + [created.value];
      assert ParseAll(inputs[..k + 1]) == ParseAll(inputs[..k]) + [ParseTestCase(inputs[k])];
    }
    assert inputs[..|inputs|] == inputs;
    AppendedRowsOfOneProblem(base, added, problemId);
  }

  /** The body of POST /api/problems. */
  datatype CreateBody = CreateBody(problem: ProblemInput, testCases: seq<TestCaseInput>)

  /** POST /api/problems: admins only; a valid body creates the problem and
      exactly the given test cases for it. */
  method CreateProblemHandler(store: Storage.Store, isAdmin: bool, body: CreateBody)
    returns (reply: HttpReply<Problem>)
    requires store.Valid()
    modifies store
    ensures store.Valid()
    ensures !isAdmin ==> reply == ErrorReply(403, AdminRequired)
    ensures isAdmin && ParseProblem(body.problem).Err? ==>
              reply == ErrorReply(400, ErrorMessage(ParseProblem(body.problem).error))
    ensures isAdmin && ParseProblem(body.problem).Ok? ==> reply.Reply?
    ensures reply.ErrorReply? ==> unchanged(store)
    ensures reply.Reply? ==>
              && isAdmin && ParseProblem(body.problem).Ok? && reply.status == 201
              && reply.payload.id !in old(store.ProblemIds())
              && reply.payload == Storage.NewRow(reply.payload.id, ParseProblem(body.problem).value)
              && store.problems == old(store.problems) + [reply.payload]
              && Contents(store.TestCasesOf(reply.payload.id)) == ParseAll(body.testCases)
              && (forall q :: q != reply.payload.id ==> store.TestCasesOf(q) == old(store.TestCasesOf(q)))
              && store.users == old(store.users) && store.submissions == old(store.submissions)
  {
    if !isAdmin {
      return ErrorReply(403, AdminRequired);
    }
    match ParseProblem(body.problem)
    case Err(e) =>
      return ErrorReply(400, ErrorMessage(e));
    case Ok(data) =>
      var problem := store.CreateProblem(data);
      Storage.FilterNone(store.testCases, Storage.ForProblem(problem.id));
      InsertTestCases(store, problem.id, body.testCases);
      reply := Reply(201, problem);
  }

  /** The body of PUT /api/problems/:id: any problem fields, and optionally
      a list that replaces the problem's test cases. */
  datatype UpdateBody = UpdateBody(patch: ProblemPatchInput, testCases: Option<seq<TestCaseInput>>)

  /** PUT /api/problems/:id: admins only; an unknown problem is a 404 before
      any test case is touched; a supplied list becomes exactly the problem's
      test cases; any rejected body is a 500. */
  method UpdateProblemHandler(store: Storage.Store, isAdmin: bool, id: int, body: UpdateBody)
    returns (reply: HttpReply<Problem>)
    requires store.Valid()
    modifies store
    ensures store.Valid()
    ensures !isAdmin ==> reply == ErrorReply(403, AdminRequired)
    ensures isAdmin && ParseProblemPatch(body.patch).Err? ==> reply == ErrorReply(500, "Update failed")
    ensures isAdmin && ParseProblemPatch(body.patch).Ok? && id !in old(store.ProblemIds()) ==>
              reply == ErrorReply(404, "Problem not found")
    ensures isAdmin && ParseProblemPatch(body.patch).Ok? && id in old(store.ProblemIds()) ==> reply.Reply?
    ensures reply.ErrorReply? ==> unchanged(store)
    ensures reply.Reply? ==>
              && reply.status == 200 && id in old(store.ProblemIds())
              && reply.payload == Storage.Patched(old(store.GetProblem(id)).value, ParseProblemPatch(body.patch).value)
              && store.problems == Storage.PatchRows(old(store.problems), id, ParseProblemPatch(body.patch).value)
              && (body.testCases.Some? ==> Contents(store.TestCasesOf(id)) == ParseAll(body.testCases.value))
              && (body.testCases.None? ==> store.testCases == old(store.testCases))
              && (forall q :: q != id ==> store.TestCasesOf(q) == old(store.TestCasesOf(q)))
              && store.users == old(store.users) && store.submissions == old(store.submissions)
  {
    if !isAdmin {
      return ErrorReply(403, AdminRequired);
    }
    match ParseProblemPatch(body.patch)
    case Err(_) =>
      return ErrorReply(500, "Update failed");
    case Ok(patch) =>
      if id !in store.ProblemIds() {
        // No row matches: the update changes nothing.
        return ErrorReply(404, "Problem not found");
      }
      var updated := store.UpdateProblem(id, patch);
      if body.testCases.Some? {
        store.DeleteTestCasesForProblem(id);
        InsertTestCases(store, id, body.testCases.value);
      }
      reply := Reply(200, updated.value);
  }

  /** DELETE /api/problems/:id: admins only; removes the problem with its
      test cases and submissions, and nothing else. */
  method DeleteProblemHandler(store: Storage.Store, isAdmin: bool, id: int) returns (status: int)
    requires store.Valid()
    modifies store`problems, store`testCases, store`submissions
    ensures store.Valid()
    ensures status == (if isAdmin then 204 else 403)
    ensures !isAdmin ==> unchanged(store)
    ensures isAdmin ==>
              && store.problems == Storage.Filter(old(store.problems), Storage.NotProblem(id))
              && store.ProblemIds() == old(store.ProblemIds()) - {id}
              && store.testCases == Storage.Filter(old(store.testCases), Storage.NotForProblem(id))
              && store.TestCasesOf(id) == []
              && (forall q :: q != id ==> store.TestCasesOf(q) == old(store.TestCasesOf(q)))
              && store.submissions == Storage.Filter(old(store.submissions), Storage.NotSubmittedFor(id))
              && store.users == old(store.users)
  {
    if !isAdmin {
      return 403;
    }
    store.DeleteProblem(id);
    status := 204;
  }

  /** GET /api/users: admins only, newest first. */
  function ListUsersHandler(store: Storage.Store, isAdmin: bool): (reply: HttpReply<seq<User>>)
    reads store
    ensures !isAdmin ==> reply == ErrorReply(403, AdminRequired)
    ensures isAdmin ==> reply == Reply(200, store.GetUsers())
  {
    if !isAdmin then ErrorReply(403, AdminRequired) else Reply(200, store.GetUsers())
  }

  /** DELETE /api/users/:id: admins only; removes the user and the user's
      submissions, and nothing else. */
  method DeleteUserHandler(store: Storage.Store, isAdmin: bool, id: string) returns (status: int)
    requires store.Valid()
    modifies store`users, store`submissions
    ensures store.Valid()
    ensures status == (if isAdmin then 204 else 403)
    ensures !isAdmin ==> unchanged(store)
    ensures isAdmin ==>
              && store.users == Storage.Filter(old(store.users), Storage.NotUser(id))
              && store.UserIds() == old(store.UserIds()) - {id}
              && store.submissions == Storage.Filter(old(store.submissions), Storage.NotSubmittedBy(id))
              && Storage.Filter(store.submissions, Storage.SubmittedBy(id)) == []
              && (forall u :: u != id ==>
                    Storage.Filter(store.submissions, Storage.SubmittedBy(u)) == Storage.Filter(old(store.submissions), Storage.SubmittedBy(u)))
              && store.problems == old(store.problems) && store.testCases == old(store.testCases)
  {
    if !isAdmin {
      return 403;
    }
    store.DeleteUser(id);
    status := 204;
  }
}
