/** The database as four in-memory tables held by one object. Each SQL
    statement of the storage layer becomes one update of a table field. The
    foreign keys declared on the tables are enforced: an insert whose
    referenced row is missing fails and changes nothing. Rows are kept in
    creation order, which is also the order of their creation times. */
module Storage {
  import opened Wrappers
  import opened Schema
  import opened Types

  /** The rows of `s` that `keep` accepts, in their order in `s`. */
  function Filter<T(!new)>(s: seq<T>, keep: T -> bool): (r: seq<T>)
    ensures |r| <= |s|
    ensures forall x :: x in r <==> x in s && keep(x)
  {
    if s == [] then [] else (if keep(s[0]) then [s[0]] else []) + Filter(s[1..], keep)
  }

  lemma {:induction false} FilterAppend<T(!new)>(s: seq<T>, x: T, keep: T -> bool)
    ensures Filter(s + [x], keep) == Filter(s, keep) + (if keep(x) then [x] else [])
  {
    if s != [] {
      assert (s + [x])[1..] == s[1..] + [x];
      FilterAppend(s[1..], x, keep);
    }
  }

  lemma {:induction false} FilterConcat<T(!new)>(a: seq<T>, b: seq<T>, keep: T -> bool)
    ensures Filter(a + b, keep) == Filter(a, keep) + Filter(b, keep)
  {
    if a == [] {
      assert a + b == b;
    } else {
      assert (a + b)[1..] == a[1..] + b;
      FilterConcat(a[1..], b, keep);
    }
  }

  /** Filtering with a stricter condition after a looser one is filtering
      with the stricter one alone. */
  lemma {:induction false} FilterNarrowing<T(!new)>(s: seq<T>, loose: T -> bool, strict: T -> bool)
    requires forall x :: x in s && strict(x) ==> loose(x)
    ensures Filter(Filter(s, loose), strict) == Filter(s, strict)
  {
    if s != [] {
      var head := if loose(s[0]) then [s[0]] else [];
      FilterConcat(head, Filter(s[1..], loose), strict);
      FilterNarrowing(s[1..], loose, strict);
      if loose(s[0]) {
        assert Filter(head, strict) == (if strict(s[0]) then [s[0]] else []) + Filter([], strict);
      }
    }
  }

  /** Filtering keeps rows that were pairwise distinct pairwise distinct. */
  lemma {:induction false} FilterDistinct<T(!new)>(s: seq<T>, keep: T -> bool)
    requires forall i, j :: 0 <= i < j < |s| ==> s[i] != s[j]
    ensures forall i, j :: 0 <= i < j < |Filter(s, keep)| ==> Filter(s, keep)[i] != Filter(s, keep)[j]
  {
    if s != [] {
      FilterDistinct(s[1..], keep);
      var t := Filter(s[1..], keep);
      assert s[0] !in s[1..];
      assert s[0] !in t;
      var r := Filter(s, keep);
      if keep(s[0]) {
        assert r == [s[0]] + t;
        forall i, j | 0 <= i < j < |r| ensures r[i] != r[j] {
          if i == 0 { assert r[j] == t[j - 1]; assert t[j - 1] in t; }
          else { assert r[i] == t[i - 1] && r[j] == t[j - 1]; }
        }
      } else {
        assert r == t;
      }
    }
  }

  /** A condition no row meets keeps nothing. */
  lemma {:induction false} FilterNone<T(!new)>(s: seq<T>, keep: T -> bool)
    requires forall x :: x in s ==> !keep(x)
    ensures Filter(s, keep) == []
  {
    if s != [] { FilterNone(s[1..], keep); }
  }

  /** Filtering with a condition every row meets changes nothing. */
  lemma {:induction false} FilterAll<T(!new)>(s: seq<T>, keep: T -> bool)
    requires forall x :: x in s ==> keep(x)
    ensures Filter(s, keep) == s
  {
    if s != [] { FilterAll(s[1..], keep); }
  }

  function ForProblem(problemId: int): TestCase -> bool { (tc: TestCase) => tc.problemId == problemId }
  function NotForProblem(problemId: int): TestCase -> bool { (tc: TestCase) => tc.problemId != problemId }
  function SubmittedFor(problemId: int): Submission -> bool { (s: Submission) => s.problemId == problemId }
  function NotSubmittedFor(problemId: int): Submission -> bool { (s: Submission) => s.problemId != problemId }
  function SubmittedBy(userId: string): Submission -> bool { (s: Submission) => s.userId == userId }
  function NotSubmittedBy(userId: string): Submission -> bool { (s: Submission) => s.userId != userId }
  function NotProblem(id: int): Problem -> bool { (p: Problem) => p.id != id }
  function NotUser(id: string): User -> bool { (u: User) => u.id != id }
  function JoinableFor(userId: string, problemIds: set<int>): Submission -> bool {
    (s: Submission) => s.userId == userId && s.problemId in problemIds
  }

  /** The problem row inserted with serial id `id` for `data`. */
  function NewRow(id: int, data: ProblemData): Problem {
    Problem(id, data.title, data.description, data.constraints, data.sampleInput, data.sampleOutput, data.marks)
  }

  /** The problem row `p` after an update that sets the fields present in `patch`. */
  function Patched(p: Problem, patch: ProblemPatch): Problem {
    Problem(p.id,
            patch.title.GetOr(p.title),
            patch.description.GetOr(p.description),
            patch.constraints.GetOr(p.constraints),
            patch.sampleInput.GetOr(p.sampleInput),
            patch.sampleOutput.GetOr(p.sampleOutput),
            patch.marks.GetOr(p.marks))
  }

  function ProblemIdsOf(ps: seq<Problem>): set<int> {
    set p | p in ps :: p.id
  }

  function UserIdsOf(us: seq<User>): set<string> {
    set u | u in us :: u.id
  }

  lemma ProblemIdsAfterDelete(ps: seq<Problem>, id: int)
    ensures ProblemIdsOf(Filter(ps, NotProblem(id))) == ProblemIdsOf(ps) - {id}
  {
    var kept := Filter(ps, NotProblem(id));
    forall q | q in ProblemIdsOf(ps) - {id} ensures q in ProblemIdsOf(kept) {
      var p :| p in ps && p.id == q;
      assert p in kept;
    }
  }

  lemma UserIdsAfterDelete(us: seq<User>, id: string)
    ensures UserIdsOf(Filter(us, NotUser(id))) == UserIdsOf(us) - {id}
  {
    var kept := Filter(us, NotUser(id));
    forall q | q in UserIdsOf(us) - {id} ensures q in UserIdsOf(kept) {
      var u :| u in us && u.id == q;
      assert u in kept;
    }
  }

  ghost predicate TablesValid(us: seq<User>, ps: seq<Problem>, tcs: seq<TestCase>, subs: seq<Submission>, nextProblemId: int) {
    && 0 < nextProblemId
    && (forall p :: p in ps ==> 0 < p.id < nextProblemId)
    && (forall tc :: tc in tcs ==> tc.problemId in ProblemIdsOf(ps))
    && (forall s :: s in subs ==> s.problemId in ProblemIdsOf(ps) && s.userId in UserIdsOf(us))
  }

  lemma DeleteProblemKeepsValid(us: seq<User>, ps: seq<Problem>, tcs: seq<TestCase>, subs: seq<Submission>, next: int, id: int)
    requires TablesValid(us, ps, tcs, subs, next)
    ensures TablesValid(us, Filter(ps, NotProblem(id)), Filter(tcs, NotForProblem(id)), Filter(subs, NotSubmittedFor(id)), next)
  {
    ProblemIdsAfterDelete(ps, id);
  }

  /** The rows after `UPDATE problems SET patch WHERE id = id`. */
  function PatchRows(ps: seq<Problem>, id: int, patch: ProblemPatch): (r: seq<Problem>)
    ensures |r| == |ps|
    ensures forall i :: 0 <= i < |ps| ==> r[i] == if ps[i].id == id then Patched(ps[i], patch) else ps[i]
    ensures ProblemIdsOf(r) == ProblemIdsOf(ps)
  {
    var r := seq(|ps|, i requires 0 <= i < |ps| => if ps[i].id == id then Patched(ps[i], patch) else ps[i]);
    assert forall i :: 0 <= i < |ps| ==> r[i].id == ps[i].id;
    forall q | q in ProblemIdsOf(ps) ensures q in ProblemIdsOf(r) {
      var p :| p in ps && p.id == q;
      var i :| 0 <= i < |ps| && ps[i] == p;
      assert r[i] in r;
    }
    forall q | q in ProblemIdsOf(r) ensures q in ProblemIdsOf(ps) {
      var p :| p in r && p.id == q;
      var i :| 0 <= i < |r| && r[i] == p;
      assert ps[i] in ps;
    }
    r
  }

  /** A submission together with the title of its problem, as listed for a user. */
  datatype SubmissionRow = SubmissionRow(submission: Submission, problemTitle: string)

  /** The first problem row with id `id` (the ids are a primary key). */
  function FindProblem(ps: seq<Problem>, id: int): (r: Option<Problem>)
    ensures r.Some? ==> r.value in ps && r.value.id == id
    ensures r.None? ==> forall p :: p in ps ==> p.id != id
  {
    if ps == [] then None else if ps[0].id == id then Some(ps[0]) else FindProblem(ps[1..], id)
  }

  class Store {
    var users: seq<User>
    var problems: seq<Problem>
    var testCases: seq<TestCase>
    var submissions: seq<Submission>
    var nextProblemId: int
    var nextTestCaseId: int
    var nextSubmissionId: int

    function ProblemIds(): set<int>
      reads this
    {
      ProblemIdsOf(problems)
    }

    function UserIds(): set<string>
      reads this
    {
      UserIdsOf(users)
    }

    /** Serial ids below the next value to hand out, and the foreign keys:
        every test case and submission names an existing problem, every
        submission an existing user. */
    ghost predicate Valid()
      reads this
    {
      TablesValid(users, problems, testCases, submissions, nextProblemId)
    }

    /** Empty problem, test-case and submission tables over the given users
        (user rows are written by the sign-in flow, which is not modelled). */
    constructor (initialUsers: seq<User>)
      ensures Valid()
      ensures users == initialUsers && problems == [] && testCases == [] && submissions == []
    {
      users := initialUsers;
      problems, testCases, submissions := [], [], [];
      nextProblemId, nextTestCaseId, nextSubmissionId := 1, 1, 1;
    }

    /** `getUsers`: newest first. */
    function GetUsers(): (r: seq<User>)
      reads this
      ensures |r| == |users| && forall i :: 0 <= i < |r| ==> r[i] == users[|users| - 1 - i]
    {
      seq(|users|, i requires 0 <= i < |users| reads this => users[|users| - 1 - i])
    }

    /** `getProblems`: newest first. */
    function GetProblems(): (r: seq<Problem>)
      reads this
      ensures |r| == |problems| && forall i :: 0 <= i < |r| ==> r[i] == problems[|problems| - 1 - i]
    {
      seq(|problems|, i requires 0 <= i < |problems| reads this => problems[|problems| - 1 - i])
    }

    /** `getProblem(id)`. */
    function GetProblem(id: int): (r: Option<Problem>)
      reads this
      ensures r.Some? <==> id in ProblemIds()
      ensures r.Some? ==> r.value in problems && r.value.id == id
    {
      FindProblem(problems, id)
    }

    /** `getTestCases(problemId)`: exactly the rows of that problem, in table order. */
    function TestCasesOf(problemId: int): (r: seq<TestCase>)
      reads this
      ensures forall tc :: tc in r <==> tc in testCases && tc.problemId == problemId
    {
      Filter(testCases, ForProblem(problemId))
    }

    /** The submissions listed for a user: those joined with their problem. */
    function JoinedSubmissionsOf(userId: string): seq<Submission>
      reads this
    {
      Filter(submissions, JoinableFor(userId, ProblemIds()))
    }

    /** `getSubmissionsForUser(userId)`: that user's submissions whose
        problem exists, each with its problem's title, newest first. */
    function GetSubmissionsForUser(userId: string): (r: seq<SubmissionRow>)
      reads this
      ensures forall row :: row in r ==> row.submission in submissions && row.submission.userId == userId
      ensures |r| == |JoinedSubmissionsOf(userId)|
      ensures forall i :: 0 <= i < |r| ==> r[i].submission == JoinedSubmissionsOf(userId)[|r| - 1 - i]
      ensures forall i :: 0 <= i < |r| ==>
                GetProblem(r[i].submission.problemId).Some? &&
                r[i].problemTitle == GetProblem(r[i].submission.problemId).value.title
    {
      var joined := JoinedSubmissionsOf(userId);
      var r := seq(|joined|, i requires 0 <= i < |joined| reads this =>
                     var s := joined[|joined| - 1 - i];
                     SubmissionRow(s, match GetProblem(s.problemId) case Some(p) => p.title case None => ""));
      assert forall i :: 0 <= i < |r| ==> r[i].submission in joined;
      r
    }

    /** `createProblem`: appends the row with the next serial id. */
    method CreateProblem(data: ProblemData) returns (p: Problem)
      requires Valid()
      modifies this
      ensures Valid()
      ensures p == NewRow(old(nextProblemId), data)
      ensures problems == old(problems) + [p] && nextProblemId == old(nextProblemId) + 1
      ensures p.id !in old(ProblemIds())
      ensures users == old(users) && testCases == old(testCases) && submissions == old(submissions)
      ensures nextTestCaseId == old(nextTestCaseId) && nextSubmissionId == old(nextSubmissionId)
    {
      p := NewRow(nextProblemId, data);
      problems := problems + [p];
      nextProblemId := nextProblemId + 1;
    }

    /** `updateProblem(id, updates)`: the row with that id gets the supplied
        fields; the updated row is returned, `None` when there is no such row. */
    method UpdateProblem(id: int, patch: ProblemPatch) returns (r: Option<Problem>)
      requires Valid()
      modifies this`problems
      ensures Valid()
      ensures r.None? <==> id !in old(ProblemIds())
      ensures r.Some? ==> r.value == Patched(old(GetProblem(id)).value, patch)
      ensures problems == PatchRows(old(problems), id, patch)
      ensures ProblemIds() == old(ProblemIds())
    {
      var found := GetProblem(id);
      problems := PatchRows(problems, id, patch);
      r := if found.Some? then Some(Patched(found.value, patch)) else None;
    }

    /** `deleteProblem(id)`: its test cases, then its submissions, then the
        problem row. */
    method DeleteProblem(id: int)
      requires Valid()
      modifies this`problems, this`testCases, this`submissions
      ensures Valid()
      ensures testCases == Filter(old(testCases), NotForProblem(id))
      ensures submissions == Filter(old(submissions), NotSubmittedFor(id))
      ensures problems == Filter(old(problems), NotProblem(id))
      ensures ProblemIds() == old(ProblemIds()) - {id}
      ensures TestCasesOf(id) == [] && GetProblem(id).None?
      ensures forall q :: q != id ==> TestCasesOf(q) == old(TestCasesOf(q))
      ensures forall q :: q != id ==> Filter(submissions, SubmittedFor(q)) == Filter(old(submissions), SubmittedFor(q))
    {
      var tcs, subs, ps := testCases, submissions, problems;
      var tcs', subs', ps' := Filter(tcs, NotForProblem(id)), Filter(subs, NotSubmittedFor(id)), Filter(ps, NotProblem(id));
      ProblemIdsAfterDelete(ps, id);
      DeleteProblemKeepsValid(users, ps, tcs, subs, nextProblemId, id);
      forall q | q != id
        ensures Filter(tcs', ForProblem(q)) == Filter(tcs, ForProblem(q))
        ensures Filter(subs', SubmittedFor(q)) == Filter(subs, SubmittedFor(q))
      {
        FilterNarrowing(tcs, NotForProblem(id), ForProblem(q));
        FilterNarrowing(subs, NotSubmittedFor(id), SubmittedFor(q));
      }
      FilterNone(tcs', ForProblem(id));
      testCases := tcs';
      submissions := subs';
      problems := ps';
    }

    /** `deleteTestCasesForProblem(problemId)`. */
    method DeleteTestCasesForProblem(problemId: int)
      requires Valid()
      modifies this`testCases
      ensures Valid()
      ensures testCases == Filter(old(testCases), NotForProblem(problemId))
      ensures TestCasesOf(problemId) == []
      ensures forall q :: q != problemId ==> TestCasesOf(q) == old(TestCasesOf(q))
    {
      ghost var oldTests := testCases;
      testCases := Filter(testCases, NotForProblem(problemId));
      forall q | q != problemId
        ensures Filter(testCases, ForProblem(q)) == Filter(oldTests, ForProblem(q))
      {
        FilterNarrowing(oldTests, NotForProblem(problemId), ForProblem(q));
      }
      FilterNone(testCases, ForProblem(problemId));
    }

    /** `createTestCase`: appends the row with the next serial id; the
        insert fails, changing nothing, when the problem does not exist. */
    method CreateTestCase(problemId: int, data: TestCaseData) returns (r: Option<TestCase>)
      requires Valid()
      modifies this`testCases, this`nextTestCaseId
      ensures Valid()
      ensures r.None? <==> problemId !in ProblemIds()
      ensures r.None? ==> testCases == old(testCases) && nextTestCaseId == old(nextTestCaseId)
      ensures r.Some? ==> r.value == TestCase(old(nextTestCaseId), problemId, data.input, data.expectedOutput, data.isHidden)
      ensures r.Some? ==> testCases == old(testCases) + [r.value] && nextTestCaseId == old(nextTestCaseId) + 1
    {
      if problemId !in ProblemIds() {
        return None;
      }
      var tc := TestCase(nextTestCaseId, problemId, data.input, data.expectedOutput, data.isHidden);
      testCases := testCases + [tc];
      nextTestCaseId := nextTestCaseId + 1;
      r := Some(tc);
    }

    /** `createSubmission`: appends the row with the next serial id; the
        insert fails, changing nothing, when the user or the problem does not exist. */
    method CreateSubmission(data: SubmissionData) returns (r: Option<Submission>)
      requires Valid()
      modifies this`submissions, this`nextSubmissionId
      ensures Valid()
      ensures r.None? <==> data.problemId !in ProblemIds() || data.userId !in UserIds()
      ensures r.None? ==> submissions == old(submissions) && nextSubmissionId == old(nextSubmissionId)
      ensures r.Some? ==> r.value == Submission(old(nextSubmissionId), data.userId, data.problemId, data.code,
                                                data.language, data.status, data.score, data.output)
      ensures r.Some? ==> submissions == old(submissions) + [r.value] && nextSubmissionId == old(nextSubmissionId) + 1
    {
      if data.problemId !in ProblemIds() || data.userId !in UserIds() {
        return None;
      }
      var s := Submission(nextSubmissionId, data.userId, data.problemId, data.code,
                          data.language, data.status, data.score, data.output);
      submissions := submissions + [s];
      nextSubmissionId := nextSubmissionId + 1;
      r := Some(s);
    }

    /** `deleteUser(id)`: that user's submissions, then the user row. */
    method DeleteUser(id: string)
      requires Valid()
      modifies this`users, this`submissions
      ensures Valid()
      ensures submissions == Filter(old(submissions), NotSubmittedBy(id))
      ensures users == Filter(old(users), NotUser(id))
      ensures UserIds() == old(UserIds()) - {id}
      ensures Filter(submissions, SubmittedBy(id)) == []
      ensures forall u :: u != id ==> Filter(submissions, SubmittedBy(u)) == Filter(old(submissions), SubmittedBy(u))
    {
      ghost var oldSubs := submissions;
      submissions := Filter(submissions, NotSubmittedBy(id));
      UserIdsAfterDelete(users, id);
      users := Filter(users, NotUser(id));
      forall u | u != id
        ensures Filter(submissions, SubmittedBy(u)) == Filter(oldSubs, SubmittedBy(u))
      {
        FilterNarrowing(oldSubs, NotSubmittedBy(id), SubmittedBy(u));
      }
      FilterNone(submissions, SubmittedBy(id));
    }
  }
}
