/** The problem-solving page: the editor's language and code, the last run
    verdict, the violation counter of the anti-cheating rules, and the
    browser's list of solved problem ids. Browser events (tab hidden,
    fullscreen left) and request outcomes arrive as method calls. */
module SolveProblem {
  import opened Wrappers
  import opened Schema
  import opened Types
  import ApiRoutes
  import Routes

  /** The languages the page offers, in menu order. */
  const Languages: seq<string> := ["python", "c", "cpp", "java"]

  const PythonTemplate := "# Write your Python code here\n"
  const CTemplate := "#include <stdio.h>\n\nint main() {\n    // Write your C code here\n    return 0;\n}\n"
  const CppTemplate := "#include <iostream>\nusing namespace std;\n\nint main() {\n    // Write your C++ code here\n    return 0;\n}\n"
  const JavaTemplate := "import java.util.*;\n\npublic class Main {\n    public static void main(String[] args) {\n        // Write your Java code here\n    }\n}\n"

  /** The starting code of each offered language. */
  function Template(language: string): (code: Option<string>)
    ensures code.Some? <==> language in Languages
  {
    if language == "python" then Some(PythonTemplate)
    else if language == "c" then Some(CTemplate)
    else if language == "cpp" then Some(CppTemplate)
    else if language == "java" then Some(JavaTemplate)
    else None
  }

  /** The menu offers Java, which the run and submit contract does not accept. */
  lemma JavaOfferedButNotAccepted()
    ensures "java" in Languages && !ApiRoutes.AcceptedLanguage("java")
    ensures forall l :: l in Languages && l != "java" ==> ApiRoutes.AcceptedLanguage(l)
  {
  }

  predicate Distinct(s: seq<int>) {
    forall i, j :: 0 <= i < j < |s| ==> s[i] != s[j]
  }

  /** Marking a problem solved: its id is appended unless already listed. */
  function AddSolved(solved: seq<int>, id: int): (r: seq<int>)
    ensures id in r
    ensures forall x :: x in r <==> x in solved || x == id
    ensures |solved| <= |r| <= |solved| + 1 && r[..|solved|] == solved
    ensures Distinct(solved) ==> Distinct(r)
  {
    if id in solved then solved else solved + [id]
  }

  /** Marking twice is marking once. */
  lemma AddSolvedIdempotent(solved: seq<int>, id: int)
    ensures AddSolved(AddSolved(solved, id), id) == AddSolved(solved, id)
  {
  }

  /** A problem the next-problem button skips: solved already, or the current one. */
  predicate Skipped(p: Problem, solved: seq<int>, current: int) {
    p.id in solved || p.id == current
  }

  /** The position of the first problem not skipped. */
  function FirstUnskipped(ps: seq<Problem>, solved: seq<int>, current: int): (r: Option<nat>)
    ensures r.Some? ==> r.value < |ps| && !Skipped(ps[r.value], solved, current)
    ensures r.Some? ==> forall j :: 0 <= j < r.value ==> Skipped(ps[j], solved, current)
    ensures r.None? ==> forall j :: 0 <= j < |ps| ==> Skipped(ps[j], solved, current)
  {
    if ps == [] then None
    else if !Skipped(ps[0], solved, current) then Some(0)
    else match FirstUnskipped(ps[1..], solved, current)
      case None => None
      case Some(k) => Some(k + 1)
  }

  /** `getNextProblem()`: nothing before the list has loaded; otherwise the
      first problem in list order that is neither solved nor the current
      one, or nothing when every problem is. */
  function NextProblem(allProblems: Option<seq<Problem>>, solved: seq<int>, current: int): (r: Option<Problem>)
    ensures allProblems.None? ==> r.None?
    ensures r.Some? ==> !Skipped(r.value, solved, current)
    ensures r.Some? ==>
              exists i :: 0 <= i < |allProblems.value| && allProblems.value[i] == r.value &&
                          forall j :: 0 <= j < i ==> Skipped(allProblems.value[j], solved, current)
    ensures allProblems.Some? && r.None? ==> forall p :: p in allProblems.value ==> Skipped(p, solved, current)
  {
    match allProblems
    case None => None
    case Some(ps) =>
      match FirstUnskipped(ps, solved, current)
      case None => None
      case Some(i) => Some(ps[i])
  }

  /** Solving the problem a page shows never makes it the next one. */
  lemma NextIsNeverJustSolved(allProblems: Option<seq<Problem>>, solved: seq<int>, current: int)
    ensures NextProblem(allProblems, AddSolved(solved, current), current).Some? ==>
              NextProblem(allProblems, AddSolved(solved, current), current).value.id !in solved + [current]
  {
  }

  class SolvePage {
    const problemId: int
    var language: string
    var code: string
    /** The status of the last run response, if any. */
    var lastRun: Option<RunStatus>
    var runPending: bool
    var submitPending: bool
    var isSolved: bool
    var violationCount: nat
    var hasViolation: bool
    var isSubmitted: bool
    /** The browser's stored list of solved problem ids. */
    var solved: seq<int>

    ghost predicate Valid()
      reads this
    {
      && language in Languages
      && (hasViolation <==> violationCount > 0)
      && (isSolved <==> problemId in solved)
      && (isSubmitted ==> isSolved)
    }

    /** Opening the page: Python with its template, no run, no violation,
        solved exactly when the stored list has the problem. */
    constructor(problemId: int, stored: seq<int>)
      ensures Valid()
      ensures this.problemId == problemId && solved == stored
      ensures language == "python" && code == Template("python").value && lastRun.None?
      ensures !runPending && !submitPending && !isSubmitted
      ensures violationCount == 0 && !hasViolation
      ensures isSolved == (problemId in stored)
    {
      this.problemId := problemId;
      language := "python";
      code := Template("python").value;
      lastRun := None;
      runPending := false;
      submitPending := false;
      isSolved := problemId in stored;
      violationCount := 0;
      hasViolation := false;
      isSubmitted := false;
      solved := stored;
    }

    /** The run button works while no run is pending and nothing was submitted. */
    function RunEnabled(): (b: bool)
      reads this
      ensures b ==> !isSubmitted
      ensures b <==> !runPending && !isSubmitted
    {
      !runPending && !isSubmitted
    }

    /** The submit button is shown for an unsolved problem and works only
        after a passing run, with no submit pending and nothing submitted. */
    function SubmitEnabled(): (b: bool)
      reads this
      ensures b ==> lastRun == Some(Pass) && !isSubmitted
      ensures b <==> !isSolved && !submitPending && lastRun == Some(Pass) && !isSubmitted
    {
      !isSolved && !submitPending && lastRun == Some(Pass) && !isSubmitted
    }

    /** The score the page announces: none after a violation, the marks otherwise. */
    function FinalScore(marks: Option<int>): (score: int)
      reads this
      ensures hasViolation ==> score == 0
      ensures !hasViolation ==> score == marks.GetOr(0)
    {
      if hasViolation then 0 else if marks.Some? && marks.value != 0 then marks.value else 0
    }

    /** A tab-visibility event: counted as a violation when the tab is
        hidden and nothing has been submitted yet. */
    method OnVisibilityChange(hidden: bool)
      requires Valid()
      modifies this`violationCount, this`hasViolation
      ensures Valid()
      ensures hidden && !isSubmitted ==> violationCount == old(violationCount) + 1 && hasViolation
      ensures !(hidden && !isSubmitted) ==> violationCount == old(violationCount) && hasViolation == old(hasViolation)
    {
      if hidden && !isSubmitted {
        violationCount := violationCount + 1;
        hasViolation := true;
      }
    }

    /** A fullscreen event: counted as a violation when fullscreen was left
        and nothing has been submitted yet. */
    method OnFullscreenChange(inFullscreen: bool)
      requires Valid()
      modifies this`violationCount, this`hasViolation
      ensures Valid()
      ensures !inFullscreen && !isSubmitted ==> violationCount == old(violationCount) + 1 && hasViolation
      ensures !(!inFullscreen && !isSubmitted) ==> violationCount == old(violationCount) && hasViolation == old(hasViolation)
    {
      if !inFullscreen && !isSubmitted {
        violationCount := violationCount + 1;
        hasViolation := true;
      }
    }

    /** Choosing a language replaces the code with that language's template. */
    method SelectLanguage(choice: string)
      requires Valid() && choice in Languages
      modifies this`language, this`code
      ensures Valid()
      ensures language == choice && code == Template(choice).value
    {
      language := choice;
      code := Template(choice).value;
    }

    /** Typing in the editor. */
    method EditCode(text: string)
      requires Valid()
      modifies this`code
      ensures Valid()
      ensures code == text
    {
      code := text;
    }

    /** Pressing Run: the request carries the code, the language and the problem id. */
    method StartRun() returns (request: Routes.CodeBody)
      requires Valid() && RunEnabled()
      modifies this`runPending
      ensures Valid() && runPending
      ensures request == Routes.CodeBody(code, language, problemId)
    {
      runPending := true;
      request := Routes.CodeBody(code, language, problemId);
    }

    /** A run request settles: a response's status becomes the last run
        status; a failed request leaves it as it was. */
    method OnRunSettled(response: Option<RunStatus>)
      requires Valid()
      modifies this`runPending, this`lastRun
      ensures Valid() && !runPending
      ensures lastRun == (if response.Some? then response else old(lastRun))
    {
      runPending := false;
      if response.Some? {
        lastRun := response;
      }
    }

    /** Pressing Submit: the request carries only the code, the language and
        the problem id; the final score and the violation state are not sent. */
    method StartSubmit() returns (request: Routes.CodeBody)
      requires Valid() && SubmitEnabled()
      modifies this`submitPending
      ensures Valid() && submitPending
      ensures request == Routes.CodeBody(code, language, problemId)
    {
      submitPending := true;
      request := Routes.CodeBody(code, language, problemId);
    }

    /** A successful submit: the page is submitted and solved, the id is in
        the stored list once, and no further run, submit or violation is possible. */
    method OnSubmitSuccess()
      requires Valid()
      modifies this`submitPending, this`isSubmitted, this`isSolved, this`solved
      ensures Valid()
      ensures isSubmitted && isSolved && !submitPending
      ensures solved == AddSolved(old(solved), problemId)
      ensures !RunEnabled() && !SubmitEnabled()
    {
      submitPending := false;
      isSubmitted := true;
      solved := AddSolved(solved, problemId);
      isSolved := true;
    }

    /** A failed submit only ends the pending state. */
    method OnSubmitFailure()
      requires Valid()
      modifies this`submitPending
      ensures Valid() && !submitPending
    {
      submitPending := false;
    }
  }

  /** Once submitted, no event adds a violation: the counter is frozen. */
  method ViolationsFrozenAfterSubmit(page: SolvePage, hidden: bool, inFullscreen: bool)
    requires page.Valid() && page.isSubmitted
    modifies page
    ensures page.violationCount == old(page.violationCount) && page.hasViolation == old(page.hasViolation)
  {
    page.OnVisibilityChange(hidden);
    page.OnFullscreenChange(inFullscreen);
  }
}
