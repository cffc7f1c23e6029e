/** Running one program on one input through the Piston execution service.
    The HTTP call itself is a parameter (`call`); everything after it is the
    classification of the service's answer into an output or an error. */
module Piston {
  import opened Wrappers
  import opened Text

  /** What the grading code sees: the program's output, or an error message. */
  datatype ExecutionResult = ExecutionResult(output: string, error: Option<string>)

  /** One stage (compile or run) of the service's answer. `code` is `None`
      when the service reports a null exit code (the process was killed).
      An empty string stands for a field that is empty or absent. */
  datatype Stage = Stage(code: Option<int>, signal: Option<string>, stdout: string, stderr: string, output: string)

  /** The body of a successful reply; `compile` is absent for interpreted languages. */
  datatype ExecuteData = ExecuteData(compile: Option<Stage>, run: Stage)

  /** The outcome of the HTTP call: a reply body, or a transport failure with
      its `code`, the `message` of the error body when a response arrived
      (`""` when the body has none) and the failure's own `message`. */
  datatype Reply =
    | Response(data: ExecuteData)
    | Failure(code: string, response: Option<string>, message: string)

  /** The request sent to the service for one run. */
  datatype Request = Request(language: string, fileName: string, content: string, stdin: string)

  /** The languages the service is asked for, by the names the application uses. */
  function LanguageMap(language: string): (r: Option<string>)
    ensures r.Some? <==> language in {"python", "c", "cpp", "java"}
    ensures language == "cpp" ==> r == Some("c++")
    ensures language != "cpp" && r.Some? ==> r.value == language
  {
    match language
    case "python" => Some("python")
    case "c" => Some("c")
    case "cpp" => Some("c++")
    case "java" => Some("java")
    case _ => None
  }

  /** The name of the single source file sent: `main.` followed by the
      application's language name. */
  function FileName(language: string): (r: string)
    ensures r == "main." + language
  {
    "main." + (if language == "cpp" then "cpp" else if language == "java" then "java" else language)
  }

  /** JavaScript's `a || b` on strings. */
  function Or(a: string, b: string): (r: string)
    ensures r == a || r == b
    ensures r == "" <==> a == "" && b == ""
  {
    if a != "" then a else b
  }

  /** The classification of the service's answer: success exactly when
      nothing failed to compile and the run exited with 0, with the trimmed
      standard output; every failure has an empty output and a message. */
  function ClassifyReply(reply: Reply): (r: ExecutionResult)
    ensures r.error.None? <==>
              && reply.Response?
              && (reply.data.compile.None? || reply.data.compile.value.code == Some(0))
              && reply.data.run.code == Some(0)
    ensures r.error.None? ==> r.output == Trim(reply.data.run.stdout)
    ensures r.error.Some? ==> r.output == "" && r.error.value != ""
  {
    match reply
    case Response(data) =>
      if data.compile.Some? && data.compile.value.code != Some(0) then
        ExecutionResult("", Some("Compilation Error:\n" + Or(data.compile.value.stderr, data.compile.value.output)))
      else if data.run.code == Some(0) then
        ExecutionResult(Trim(data.run.stdout), None)
      else if data.run.signal == Some("SIGKILL") then
        ExecutionResult("", Some("Time Limit Exceeded"))
      else
        ExecutionResult("", Some("Runtime Error:\n" + Or(data.run.stderr, Or(data.run.output, "Unknown error"))))
    case Failure(code, response, message) =>
      if code == "ECONNABORTED" then ExecutionResult("", Some("Time Limit Exceeded"))
      else if response.Some? then ExecutionResult("", Some("API Error: " + Or(response.value, message)))
      else ExecutionResult("", Some("Execution failed: " + message))
  }

  /** `executeCodeWithPiston(language, code, input)`. Every error result has
      an empty output and a non-empty message, and an unsupported language is
      refused without a call. */
  function ExecuteCode(language: string, code: string, input: string, call: Request -> Reply): (r: ExecutionResult)
    ensures r.error.Some? ==> r.output == "" && r.error.value != ""
    ensures LanguageMap(language).None? ==> r == ExecutionResult("", Some("Unsupported language: " + language))
  {
    match LanguageMap(language)
    case None => ExecutionResult("", Some("Unsupported language: " + language))
    case Some(pistonLanguage) =>
      ClassifyReply(call(Request(pistonLanguage, FileName(language), code, input)))
  }

  /** The request for a supported language carries the mapped language, the
      file name, the code and the input, and nothing but the reply to that one
      request influences the result. */
  lemma OnlyTheRequestMatters(language: string, code: string, input: string, call1: Request -> Reply, call2: Request -> Reply)
    requires LanguageMap(language).Some?
    requires var req := Request(LanguageMap(language).value, FileName(language), code, input);
             call1(req) == call2(req)
    ensures ExecuteCode(language, code, input, call1) == ExecuteCode(language, code, input, call2)
  {
  }

  /** An unsupported language makes no call: the result is the same whatever
      the service would answer. */
  lemma UnsupportedMakesNoCall(language: string, code: string, input: string, call1: Request -> Reply, call2: Request -> Reply)
    requires LanguageMap(language).None?
    ensures ExecuteCode(language, code, input, call1) == ExecuteCode(language, code, input, call2)
  {
  }

  /** A failed compilation is reported before anything about the run is looked at. */
  lemma CompileErrorComesFirst(data1: ExecuteData, data2: ExecuteData)
    requires data1.compile == data2.compile
    requires data1.compile.Some? && data1.compile.value.code != Some(0)
    ensures ClassifyReply(Response(data1)) == ClassifyReply(Response(data2))
    ensures var c := data1.compile.value;
            ClassifyReply(Response(data1)).error ==
              Some("Compilation Error:\n" + (if c.stderr != "" then c.stderr else c.output))
  {
  }

  /** A run that exits with 0 after a successful (or absent) compilation
      yields its trimmed standard output and no error. */
  lemma CleanRunYieldsTrimmedStdout(data: ExecuteData)
    requires data.compile.None? || data.compile.value.code == Some(0)
    requires data.run.code == Some(0)
    ensures ClassifyReply(Response(data)) == ExecutionResult(Trim(data.run.stdout), None)
  {
  }

  /** A run killed with SIGKILL is a time-out; any other failed run is a
      runtime error carrying stderr, else the output, else "Unknown error". */
  lemma FailedRunClassification(data: ExecuteData)
    requires data.compile.None? || data.compile.value.code == Some(0)
    requires data.run.code != Some(0)
    ensures data.run.signal == Some("SIGKILL") ==>
              ClassifyReply(Response(data)) == ExecutionResult("", Some("Time Limit Exceeded"))
    ensures data.run.signal != Some("SIGKILL") ==>
              ClassifyReply(Response(data)).error.value ==
                "Runtime Error:\n" + (if data.run.stderr != "" then data.run.stderr
                                      else if data.run.output != "" then data.run.output
                                      else "Unknown error")
  {
  }

  /** Transport failures: an aborted connection is a time-out, a failure with
      a response an API error, anything else an execution failure. */
  lemma TransportFailureClassification(code: string, response: Option<string>, message: string)
    ensures var r := ClassifyReply(Failure(code, response, message));
            && (code == "ECONNABORTED" ==> r.error == Some("Time Limit Exceeded"))
            && (code != "ECONNABORTED" && response.Some? ==>
                  r.error == Some("API Error: " + (if response.value != "" then response.value else message)))
            && (code != "ECONNABORTED" && response.None? ==> r.error == Some("Execution failed: " + message))
            && r.output == ""
  {
  }
}
