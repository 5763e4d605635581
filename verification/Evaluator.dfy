/** From a job to its result: running every test case (sandbox/src/runner.cpp) and aggregating the
    verdicts (worker/src/evaluator.cpp). */
module Evaluator {
  import opened Languages
  import Output
  import opened Sandbox
  import opened Verdicts

  type Case = (string, string)

  datatype CompileOutcome = CompileOutcome(success: bool, output: string)

  /** All that evaluation learns from outside: the problem, the compiler and the runs of its tests. */
  datatype Environment = Environment(
    problem: Option<ProblemInfo>, compile: CompileOutcome, cases: seq<Case>, runs: seq<Observation>)

  function LimitsOf(p: ProblemInfo): SandboxLimits {
    SandboxLimits(p.timeLimitMs, p.memoryLimitMb)
  }

  /** The record of test i; stderr stands in for a missing message. */
  function TestResult(i: nat, case_: Case, sr: SandboxResult): TestCaseResult {
    TestCaseResult(i, sr.verdict, sr.timeMs, sr.memoryKb, case_.1, sr.stdoutOutput,
                   if sr.stderrOutput != "" && sr.errorMessage == "" then sr.stderrOutput else sr.errorMessage)
  }

  function TestResults(cases: seq<Case>, runs: seq<Observation>, limits: SandboxLimits): (results: seq<TestCaseResult>)
    requires |runs| == |cases|
    ensures |results| == |cases|
  {
    seq(|cases|, i requires 0 <= i < |cases| => TestResult(i, cases[i], Judged(runs[i], cases[i].1, limits)))
  }

  predicate AllEnd(launches: seq<Launch>, limits: SandboxLimits) {
    forall i :: 0 <= i < |launches| ==> TimeComesToAnEnd(launches[i], limits)
  }

  function Observations(launches: seq<Launch>, limits: SandboxLimits): (runs: seq<Observation>)
    requires AllEnd(launches, limits)
    ensures |runs| == |launches|
  {
    seq(|launches|, i requires 0 <= i < |launches| => Observe(launches[i], limits))
  }

  /** One sandboxed run per case, in order; a failed case does not stop the others. */
  method RunAllTestCases(cases: seq<Case>, launches: seq<Launch>, limits: SandboxLimits)
    returns (results: seq<TestCaseResult>)
    requires |launches| == |cases| && AllEnd(launches, limits)
    ensures results == TestResults(cases, Observations(launches, limits), limits)
  {
    results := [];
    var i := 0;
    while i < |cases|
      invariant 0 <= i <= |cases| && |results| == i
      invariant forall k :: 0 <= k < i ==>
        results[k] == TestResult(k, cases[k], Judged(Observe(launches[k], limits), cases[k].1, limits))
    {
      var sr := Run(launches[i], cases[i].1, limits);
      var message := sr.errorMessage;
      if sr.stderrOutput != "" && message == "" {
        message := sr.stderrOutput;
      }
      var tc := TestCaseResult(i, sr.verdict, sr.timeMs, sr.memoryKb, cases[i].1, sr.stdoutOutput, message);
      results := results + [tc];
      i := i + 1;
    }
  }

  function CountAccepted(results: seq<TestCaseResult>): nat {
    if results == [] then 0
    else CountAccepted(results[..|results| - 1]) + if results[|results| - 1].verdict == Accepted then 1 else 0
  }

  function MaxTime(results: seq<TestCaseResult>): int {
    if results == [] then 0 else Max(MaxTime(results[..|results| - 1]), results[|results| - 1].timeMs)
  }

  function MaxMemory(results: seq<TestCaseResult>): int {
    if results == [] then 0 else Max(MaxMemory(results[..|results| - 1]), results[|results| - 1].memoryKb)
  }

  function Max(a: int, b: int): int {
    if a < b then b else a
  }

  /** The counting branches that choose the verdict of a whole submission. */
  function Overall(results: seq<TestCaseResult>, passed: int, total: int): Verdict {
    if results == [] then InternalError
    else if passed == total then Accepted
    else if results[|results| - 1].verdict == Pending then WrongAnswer
    else results[|results| - 1].verdict
  }

  function Aggregated(base: SubmissionResult, results: seq<TestCaseResult>): SubmissionResult {
    base.(verdict := Overall(results, CountAccepted(results), |results|),
          passed := CountAccepted(results), total := |results|,
          maxTimeMs := MaxTime(results), maxMemoryKb := MaxMemory(results), testResults := results)
  }

  /** The result a job starts from. */
  function Opened(job: SubmissionJob): SubmissionResult {
    SubmissionResult(job.submissionId, job.problemId, job.username, Normalize(job.language), Pending,
                     0, 0, 0, 0, "", [])
  }

  function Evaluated(job: SubmissionJob, env: Environment): SubmissionResult
    requires |env.runs| == |env.cases|
  {
    var base := Opened(job);
    if env.problem.None? then base.(verdict := InternalError, compileOutput := "Problem not found")
    else if !IsSupported(base.language) then
      base.(verdict := CompilationError, compileOutput := "Unsupported language: " + job.language)
    else if !env.compile.success then
      base.(verdict := CompilationError, compileOutput := env.compile.output)
    else
      Aggregated(base.(compileOutput := env.compile.output),
                 TestResults(env.cases, env.runs, LimitsOf(env.problem.value)))
  }

  /** The environment seen by an evaluation whose runs are these launches. */
  function SeenAs(problem: Option<ProblemInfo>, compile: CompileOutcome, cases: seq<Case>, launches: seq<Launch>)
    : (env: Environment)
    requires |launches| == |cases|
    requires problem.Some? ==> AllEnd(launches, LimitsOf(problem.value))
    ensures |env.runs| == |env.cases|
  {
    if problem.Some? then Environment(problem, compile, cases, Observations(launches, LimitsOf(problem.value)))
    else Environment(None, compile, [], [])
  }

  /** evaluate_submission: early exits, the runs, the aggregation loop and the final verdict. */
  method EvaluateSubmission(job: SubmissionJob, problem: Option<ProblemInfo>, compile: CompileOutcome,
                            cases: seq<Case>, launches: seq<Launch>)
    returns (result: SubmissionResult)
    requires |launches| == |cases|
    requires problem.Some? ==> AllEnd(launches, LimitsOf(problem.value))
    ensures result == Evaluated(job, SeenAs(problem, compile, cases, launches))
  {
    hide TestResults, Observations, AllEnd, TimeComesToAnEnd, LimitsOf, IsSupported, Normalize;
    result := Opened(job);
    if problem.None? {
      return result.(verdict := InternalError, compileOutput := "Problem not found");
    }
    if !IsSupported(result.language) {
      return result.(verdict := CompilationError, compileOutput := "Unsupported language: " + job.language);
    }
    result := result.(compileOutput := compile.output);
    if !compile.success {
      result := result.(verdict := CompilationError);
      return;
    }
    result := result.(total := |cases|);
    var tests := RunAllTestCases(cases, launches, LimitsOf(problem.value));
    var passed, maxTime, maxMemory := 0, 0, 0;
    for i := 0 to |tests|
      invariant passed == CountAccepted(tests[..i])
      invariant maxTime == MaxTime(tests[..i]) && maxMemory == MaxMemory(tests[..i])
    {
      assert tests[..i + 1][..i] == tests[..i];
      if tests[i].verdict == Accepted {
        passed := passed + 1;
      }
      maxTime := Max(maxTime, tests[i].timeMs);
      maxMemory := Max(maxMemory, tests[i].memoryKb);
    }
    assert tests[..|tests|] == tests;
    result := result.(testResults := tests, passed := passed, maxTimeMs := maxTime, maxMemoryKb := maxMemory);
    if tests == [] {
      result := result.(verdict := InternalError);
    } else if result.passed == result.total {
      result := result.(verdict := Accepted);
    } else {
      result := result.(verdict := tests[|tests| - 1].verdict);
      if result.verdict == Pending {
        result := result.(verdict := WrongAnswer);
      }
    }
  }

  function VerdictsOf(results: seq<TestCaseResult>): seq<Verdict> {
    seq(|results|, i requires 0 <= i < |results| => results[i].verdict)
  }

  /** `passed` is the number of ACCEPTED tests, and it reaches the number of tests only when every one is. */
  lemma {:induction false} PassedIsExact(results: seq<TestCaseResult>)
    ensures CountAccepted(results) == multiset(VerdictsOf(results))[Accepted]
    ensures CountAccepted(results) <= |results|
    ensures CountAccepted(results) == |results| <==> forall tc <- results :: tc.verdict == Accepted
  {
    if results != [] {
      var front, last := results[..|results| - 1], results[|results| - 1];
      PassedIsExact(front);
      assert results == front + [last];
      assert VerdictsOf(results) == VerdictsOf(front) + [last.verdict];
    }
  }

  /** The maxima bound every test, and are 0 or reached by one. */
  lemma {:induction false} MaximaAreExact(results: seq<TestCaseResult>)
    ensures forall tc <- results :: tc.timeMs <= MaxTime(results) && tc.memoryKb <= MaxMemory(results)
    ensures MaxTime(results) == 0 || exists tc <- results :: tc.timeMs == MaxTime(results)
    ensures MaxMemory(results) == 0 || exists tc <- results :: tc.memoryKb == MaxMemory(results)
    ensures 0 <= MaxTime(results) && 0 <= MaxMemory(results)
  {
    if results != [] {
      var front, last := results[..|results| - 1], results[|results| - 1];
      MaximaAreExact(front);
      assert results == front + [last];
      assert last in results;
    }
  }

  /** The branch on `passed == total` never matters: a non-empty run of tests ends in the verdict of its
      last test, so a submission is ACCEPTED exactly when its last test is. */
  lemma AggregationCollapses(results: seq<TestCaseResult>)
    requires results != []
    ensures Overall(results, CountAccepted(results), |results|) ==
            var last := results[|results| - 1].verdict; if last == Pending then WrongAnswer else last
    ensures (forall tc <- results :: tc.verdict == Accepted) ==>
            Overall(results, CountAccepted(results), |results|) == Accepted
  {
    PassedIsExact(results);
    assert results[|results| - 1] in results;
  }

  predicate AllAccepted(results: seq<TestCaseResult>) {
    forall tc <- results :: tc.verdict == Accepted
  }

  /** "ACCEPTED only if every test passed" fails exactly when the last test passed and some earlier one
      did not. */
  lemma AcceptedWithFailures(results: seq<TestCaseResult>)
    ensures (Overall(results, CountAccepted(results), |results|) == Accepted && !AllAccepted(results)) <==>
            (results != [] && results[|results| - 1].verdict == Accepted &&
             exists i :: 0 <= i < |results| - 1 && results[i].verdict != Accepted)
  {
    hide Overall, CountAccepted;
    if results == [] {
      NoTests(results);
    } else {
      AggregationCollapses(results);
      assert results == results[..|results| - 1] + [results[|results| - 1]];
      assert results[|results| - 1].verdict == Accepted && !AllAccepted(results) ==>
        exists i :: 0 <= i < |results| - 1 && results[i].verdict != Accepted;
    }
  }

  /** [WRONG_ANSWER, ACCEPTED] is such a run, whatever else its tests report. */
  lemma LastTestAloneDecides(failed: TestCaseResult, passed: TestCaseResult)
    requires failed.verdict == WrongAnswer && passed.verdict == Accepted
    ensures var results := [failed, passed];
            Overall(results, CountAccepted(results), |results|) == Accepted && !AllAccepted(results)
  {
    var results := [failed, passed];
    assert results[0].verdict != Accepted;
    AcceptedWithFailures(results);
  }

  /** A clean run that printed this text. */
  function Printed(text: string): Observation {
    Ran(false, Some(Waited(Exited(0), NO_USAGE)), text, "")
  }

  lemma PrintedVerdict(text: string, expected: string, limits: SandboxLimits)
    requires limits.timeLimitMs >= 0 && limits.memoryLimitMb >= 0
    ensures VerdictOf(Printed(text), expected, limits) ==
            if Output.OutputsMatch(text, expected) then Accepted else WrongAnswer
  {
    hide TimeMs, MemoryKb, NearMemoryLimit, Output.OutputsMatch;
    NothingUsed();
  }

  lemma SingleCharacters()
    ensures !Output.OutputsMatch("2", "1") && Output.OutputsMatch("1", "1")
  {
    assert Output.Trim("2") == "2" && Output.Trim("1") == "1";
  }

  /** A submission that got to its tests. */
  predicate GetsToTests(job: SubmissionJob, env: Environment) {
    && |env.runs| == |env.cases| && env.problem.Some? && IsSupported(job.language) && env.compile.success
    && env.cases != []
  }

  /** The verdict of run i. */
  function RunVerdict(env: Environment, i: nat): Verdict
    requires |env.runs| == |env.cases| && i < |env.cases| && env.problem.Some?
  {
    VerdictOf(env.runs[i], env.cases[i].1, LimitsOf(env.problem.value))
  }

  lemma TestedResult(job: SubmissionJob, env: Environment)
    requires GetsToTests(job, env)
    ensures var results := TestResults(env.cases, env.runs, LimitsOf(env.problem.value));
      && Evaluated(job, env).verdict == Overall(results, CountAccepted(results), |results|)
      && Evaluated(job, env).passed == CountAccepted(results) && Evaluated(job, env).total == |results|
      && forall i :: 0 <= i < |results| ==> results[i].verdict == RunVerdict(env, i)
  {
    hide IsSupported, Normalize, VerdictOf, MessageOf, Overall, CountAccepted, MaxTime, MaxMemory;
    StagesAgree(job.language);
  }

  /** A whole submission is reported as ACCEPTED with fewer tests passed than there are exactly if its last
      run was ACCEPTED and an earlier one was not. */
  lemma AcceptedSubmissionFailsTests(job: SubmissionJob, env: Environment)
    requires GetsToTests(job, env)
    ensures Evaluated(job, env).verdict == Accepted && Evaluated(job, env).passed < Evaluated(job, env).total <==>
            && RunVerdict(env, |env.cases| - 1) == Accepted
            && exists i :: 0 <= i < |env.cases| - 1 && RunVerdict(env, i) != Accepted
  {
    hide Evaluated, RunVerdict, Overall, CountAccepted, IsSupported;
    TestedResult(job, env);
    var results := TestResults(env.cases, env.runs, LimitsOf(env.problem.value));
    AcceptedWithFailures(results);
    PassedIsExact(results);
  }

  /** Printing 2 and then 1 where 1 is expected is such a submission: ACCEPTED with one test passed of two. */
  lemma OnePassedOfTwo(job: SubmissionJob, problem: ProblemInfo)
    requires IsSupported(job.language) && problem.timeLimitMs >= 0 && problem.memoryLimitMb >= 0
    ensures var env := Environment(Some(problem), CompileOutcome(true, ""), [("", "1"), ("", "1")],
                                   [Printed("2"), Printed("1")]);
            var result := Evaluated(job, env);
            result.verdict == Accepted && result.passed == 1 && result.total == 2
  {
    hide IsSupported, Evaluated, VerdictOf, TestResults, Printed, Output.OutputsMatch;
    var env := Environment(Some(problem), CompileOutcome(true, ""), [("", "1"), ("", "1")], [Printed("2"), Printed("1")]);
    SingleCharacters();
    PrintedVerdict("2", "1", LimitsOf(problem));
    PrintedVerdict("1", "1", LimitsOf(problem));
    assert RunVerdict(env, 0) == WrongAnswer && RunVerdict(env, 1) == Accepted;
    TestedResult(job, env);
    var results := TestResults(env.cases, env.runs, LimitsOf(problem));
    FirstFailsSecondPasses(results);
  }

  lemma FirstFailsSecondPasses(results: seq<TestCaseResult>)
    requires |results| == 2 && results[0].verdict == WrongAnswer && results[1].verdict == Accepted
    ensures Overall(results, CountAccepted(results), 2) == Accepted && CountAccepted(results) == 1
  {
    assert results[..1][..0] == [] && results[..1][0] == results[0];
    assert CountAccepted(results) == CountAccepted(results[..1]) + 1 && CountAccepted(results[..1]) == 0;
  }

  /** A test that was run ends in a terminal verdict, and never in COMPILATION_ERROR. */
  lemma TestsEndTerminally(env: Environment, limits: SandboxLimits, i: nat)
    requires |env.runs| == |env.cases| && i < |env.cases|
    ensures var v := TestResults(env.cases, env.runs, limits)[i].verdict; Terminal(v) && v != CompilationError
  {
    hide VerdictFrom, MessageOf, Output.OutputsMatch;
    var o, expected := env.runs[i], env.cases[i].1;
    RunsEndTerminally(o, o.Ran? && Output.OutputsMatch(o.stdout, expected), limits);
    assert TestResults(env.cases, env.runs, limits)[i].verdict == VerdictOf(o, expected, limits);
  }

  // ----- What a result must say, without reference to how it is computed -----

  /** The record of test i tells what was observed of its run. */
  predicate TellsOf(t: TestCaseResult, i: nat, case_: Case, o: Observation, limits: SandboxLimits) {
    var verdict := VerdictOf(o, case_.1, limits);
    && t.index == i && t.verdict == verdict && t.expectedOutput == case_.1
    && t.actualOutput == (if o.Ran? then o.stdout else "")
    && (o.Ran? && (verdict == Accepted || verdict == WrongAnswer) ==> t.errorMessage == o.stderr)
    && (verdict != Accepted && verdict != WrongAnswer ==> t.errorMessage == MessageOf(o, verdict))
    && (o.Ran? && o.waited.Some? && InRange(o.waited.value.usage) ==>
          var usage := o.waited.value.usage;
          && 1000 * t.timeMs <= usage.userUs + usage.systemUs < 1000 * t.timeMs + 1000
          && t.memoryKb == usage.maxRssKb)
  }

  /** m is 0 or one of the numbers, and none is greater. */
  predicate IsMaximum(m: int, numbers: seq<int>) {
    (m == 0 || m in numbers) && m >= 0 && forall n <- numbers :: n <= m
  }

  function Times(tests: seq<TestCaseResult>): seq<int> {
    seq(|tests|, i requires 0 <= i < |tests| => tests[i].timeMs)
  }

  function Memories(tests: seq<TestCaseResult>): seq<int> {
    seq(|tests|, i requires 0 <= i < |tests| => tests[i].memoryKb)
  }

  /** The result of a submission that got past its compiler: one record per case, in order; the exact count of
      passed tests and the exact maxima; and the verdict of the last test. */
  ghost predicate Tested(problem: ProblemInfo, cases: seq<Case>, runs: seq<Observation>, r: SubmissionResult)
    requires |runs| == |cases|
  {
    var limits := SandboxLimits(problem.timeLimitMs, problem.memoryLimitMb);
    && |r.testResults| == r.total == |cases|
    && (forall i :: 0 <= i < |cases| ==> TellsOf(r.testResults[i], i, cases[i], runs[i], limits))
    && r.passed == multiset(VerdictsOf(r.testResults))[Accepted]
    && IsMaximum(r.maxTimeMs, Times(r.testResults)) && IsMaximum(r.maxMemoryKb, Memories(r.testResults))
    && r.verdict == if cases == [] then InternalError else r.testResults[|cases| - 1].verdict
  }

  predicate Untested(r: SubmissionResult) {
    r.testResults == [] && r.passed == r.total == r.maxTimeMs == r.maxMemoryKb == 0
  }

  /** What the result of this job in this environment must say. */
  ghost predicate Decides(env: Environment, job: SubmissionJob, r: SubmissionResult) {
    && r.submissionId == job.submissionId && r.problemId == job.problemId && r.username == job.username
    && r.language == Normalize(job.language)
    && if env.problem.None? then
         r.verdict == InternalError && r.compileOutput == "Problem not found" && Untested(r)
       else if !IsSupported(job.language) then
         r.verdict == CompilationError && r.compileOutput == "Unsupported language: " + job.language && Untested(r)
       else if !env.compile.success then
         r.verdict == CompilationError && r.compileOutput == env.compile.output && Untested(r)
       else
         r.compileOutput == env.compile.output && |env.runs| == |env.cases| &&
         Tested(env.problem.value, env.cases, env.runs, r)
  }

  lemma TestTells(i: nat, case_: Case, o: Observation, limits: SandboxLimits)
    ensures TellsOf(TestResult(i, case_, Judged(o, case_.1, limits)), i, case_, o, limits)
  {
    hide VerdictOf, MessageOf, TimeMs, MemoryKb, InRange;
    if o.Ran? {
      OnlyFiveVerdicts(o, case_.1, limits);
      MessageTells(o, case_.1, limits);
      if o.waited.Some? && InRange(o.waited.value.usage) {
        ReportIsMeasured(o.timedOut, o.waited.value, o.stdout, o.stderr, case_.1, limits);
      }
    } else {
      UnstartedTells(o, case_.1, limits);
    }
  }

  lemma UnstartedTells(o: Observation, expected: string, limits: SandboxLimits)
    requires o.Unstarted?
    ensures VerdictOf(o, expected, limits) == InternalError && MessageOf(o, InternalError) == o.reason
  {
  }

  lemma TestsTell(problem: ProblemInfo, cases: seq<Case>, runs: seq<Observation>, base: SubmissionResult)
    requires |runs| == |cases|
    ensures Tested(problem, cases, runs, Aggregated(base, TestResults(cases, runs, LimitsOf(problem))))
  {
    hide TellsOf, Judged, Overall, CountAccepted, MaxTime, MaxMemory, IsMaximum;
    var limits := LimitsOf(problem);
    var tests := TestResults(cases, runs, limits);
    forall i | 0 <= i < |cases| ensures TellsOf(tests[i], i, cases[i], runs[i], limits) {
      TestTells(i, cases[i], runs[i], limits);
    }
    PassedIsExact(tests);
    MaximaAre(tests);
    if cases != [] {
      AggregationCollapses(tests);
      var n := |cases| - 1;
      TestsEndTerminally(Environment(Some(problem), CompileOutcome(true, ""), cases, runs), limits, n);
    } else {
      NoTests(tests);
    }
  }

  lemma NoTests(tests: seq<TestCaseResult>)
    requires tests == []
    ensures Overall(tests, CountAccepted(tests), |tests|) == InternalError
  {
  }

  lemma MaximaAre(tests: seq<TestCaseResult>)
    ensures IsMaximum(MaxTime(tests), Times(tests)) && IsMaximum(MaxMemory(tests), Memories(tests))
  {
    hide MaxTime, MaxMemory;
    MaximaAreExact(tests);
    assert forall i :: 0 <= i < |tests| ==> tests[i] in tests;
    if MaxTime(tests) != 0 {
      var tc :| tc in tests && tc.timeMs == MaxTime(tests);
      var i :| 0 <= i < |tests| && tests[i] == tc;
      assert Times(tests)[i] == MaxTime(tests);
    }
    if MaxMemory(tests) != 0 {
      var tc :| tc in tests && tc.memoryKb == MaxMemory(tests);
      var i :| 0 <= i < |tests| && tests[i] == tc;
      assert Memories(tests)[i] == MaxMemory(tests);
    }
  }

  /** Evaluation says what it must, for every job and every environment. */
  lemma EvaluationDecides(job: SubmissionJob, env: Environment)
    requires |env.runs| == |env.cases|
    ensures Decides(env, job, Evaluated(job, env))
  {
    hide TestResults, Tested, Aggregated, IsSupported, Normalize;
    StagesAgree(job.language);
    if env.problem.Some? && IsSupported(job.language) && env.compile.success {
      TestsTell(env.problem.value, env.cases, env.runs, Opened(job).(compileOutput := env.compile.output));
      AggregatedHeader(Opened(job).(compileOutput := env.compile.output),
                       TestResults(env.cases, env.runs, LimitsOf(env.problem.value)));
    }
  }

  lemma AggregatedHeader(base: SubmissionResult, tests: seq<TestCaseResult>)
    ensures var r := Aggregated(base, tests);
      && r.submissionId == base.submissionId && r.problemId == base.problemId && r.username == base.username
      && r.language == base.language && r.compileOutput == base.compileOutput
  {
  }

  /** Every stored verdict is one on which pollers stop, and the record names the job's own submission,
      user and problem. */
  lemma EvaluationEndsTerminally(job: SubmissionJob, env: Environment)
    requires |env.runs| == |env.cases|
    ensures Terminal(Evaluated(job, env).verdict)
    ensures Evaluated(job, env).submissionId == job.submissionId
    ensures Evaluated(job, env).username == job.username && Evaluated(job, env).problemId == job.problemId
  {
    hide TestResults, IsSupported, Normalize;
    if env.problem.Some? && IsSupported(Normalize(job.language)) && env.compile.success && env.cases != [] {
      var limits := LimitsOf(env.problem.value);
      AggregationCollapses(TestResults(env.cases, env.runs, limits));
      TestsEndTerminally(env, limits, |env.cases| - 1);
    }
  }

  /** For a job whose language is supported, COMPILATION_ERROR means exactly that the compiler failed:
      the "unsupported language" branch is dead. */
  lemma UnsupportedBranchIsDead(job: SubmissionJob, env: Environment)
    requires |env.runs| == |env.cases| && env.problem.Some?
    requires IsSupported(job.language)
    ensures Evaluated(job, env).verdict == CompilationError <==> !env.compile.success
    ensures Evaluated(job, env).compileOutput == env.compile.output
  {
    hide TestResults, IsSupported, Normalize;
    StagesAgree(job.language);
    if env.compile.success && env.cases != [] {
      var limits := LimitsOf(env.problem.value);
      AggregationCollapses(TestResults(env.cases, env.runs, limits));
      TestsEndTerminally(env, limits, |env.cases| - 1);
    }
  }
}
