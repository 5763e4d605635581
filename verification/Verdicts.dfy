/** Verdicts and the records that travel through the judge (shared/src/submission.cpp). */
module Verdicts {
  datatype Option<+T> = None | Some(value: T)

  datatype Verdict =
    | Pending
    | Compiling
    | Running
    | Accepted
    | WrongAnswer
    | TimeLimitExceeded
    | MemoryLimitExceeded
    | RuntimeError
    | CompilationError
    | InternalError

  datatype SubmissionJob = SubmissionJob(
    submissionId: string, problemId: string, sourceCode: string, language: string, username: string)

  datatype TestCaseResult = TestCaseResult(
    index: int, verdict: Verdict, timeMs: int, memoryKb: int,
    expectedOutput: string, actualOutput: string, errorMessage: string)

  datatype SubmissionResult = SubmissionResult(
    submissionId: string, problemId: string, username: string, language: string, verdict: Verdict,
    passed: int, total: int, maxTimeMs: int, maxMemoryKb: int, compileOutput: string,
    testResults: seq<TestCaseResult>)

  datatype ProblemInfo = ProblemInfo(
    id: string, title: string, description: string,
    timeLimitMs: int, memoryLimitMb: int, testCaseCount: int)

  /** The seven verdicts on which every poller stops asking. */
  predicate Terminal(v: Verdict) {
    v != Pending && v != Compiling && v != Running
  }

  function ToString(v: Verdict): string {
    match v
    case Pending => "PENDING"
    case Compiling => "COMPILING"
    case Running => "RUNNING"
    case Accepted => "ACCEPTED"
    case WrongAnswer => "WRONG_ANSWER"
    case TimeLimitExceeded => "TIME_LIMIT_EXCEEDED"
    case MemoryLimitExceeded => "MEMORY_LIMIT_EXCEEDED"
    case RuntimeError => "RUNTIME_ERROR"
    case CompilationError => "COMPILATION_ERROR"
    case InternalError => "INTERNAL_ERROR"
  }

  function FromString(s: string): Verdict {
    if s == "PENDING" then Pending
    else if s == "COMPILING" then Compiling
    else if s == "RUNNING" then Running
    else if s == "ACCEPTED" then Accepted
    else if s == "WRONG_ANSWER" then WrongAnswer
    else if s == "TIME_LIMIT_EXCEEDED" then TimeLimitExceeded
    else if s == "MEMORY_LIMIT_EXCEEDED" then MemoryLimitExceeded
    else if s == "RUNTIME_ERROR" then RuntimeError
    else if s == "COMPILATION_ERROR" then CompilationError
    else InternalError
  }

  /** Decoding inverts encoding on all ten verdicts. */
  lemma NameRoundTrip(v: Verdict)
    ensures FromString(ToString(v)) == v
  {
    match v {
      case Pending => case Compiling => case Running => case Accepted => case WrongAnswer =>
      case TimeLimitExceeded => case MemoryLimitExceeded => case RuntimeError =>
      case CompilationError => case InternalError =>
    }
  }

  predicate IsName(s: string) {
    exists v :: s == ToString(v)
  }

  /** Re-encoding a text gives it back exactly when it is one of the ten names; every other text
      decodes to the terminal INTERNAL_ERROR. */
  lemma DecodeInverts(s: string)
    ensures ToString(FromString(s)) == s <==> IsName(s)
    ensures !IsName(s) ==> FromString(s) == InternalError
  {
    if IsName(s) {
      var v :| s == ToString(v);
      NameRoundTrip(v);
    }
  }

  /** The names on which the web client stops polling are those of the terminal verdicts. */
  lemma PollersStopOn(v: Verdict)
    ensures Terminal(v) <==>
      ToString(v) in ["ACCEPTED", "WRONG_ANSWER", "TIME_LIMIT_EXCEEDED", "MEMORY_LIMIT_EXCEEDED", "RUNTIME_ERROR",
                      "COMPILATION_ERROR", "INTERNAL_ERROR"]
  {
    var names := ["ACCEPTED", "WRONG_ANSWER", "TIME_LIMIT_EXCEEDED", "MEMORY_LIMIT_EXCEEDED", "RUNTIME_ERROR",
                  "COMPILATION_ERROR", "INTERNAL_ERROR"];
    assert names[0] in names && names[1] in names && names[2] in names && names[3] in names;
    assert names[4] in names && names[5] in names && names[6] in names;
  }
}
