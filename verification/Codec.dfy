/** Job and result codecs at the level of JSON values (shared/src/json_utils.cpp).  Dumping a value
    to text and parsing it back is the JSON library's business, so a stored document is a value. */
module Codec {
  import opened Verdicts

  /** The member names of the two documents; each constructor is the text with the same
      words, and Outcome is "verdict". */
  datatype Name =
    | SubmissionId | ProblemId | SourceCode | Language | Username
    | Index | Outcome | TimeMs | MemoryKb | ExpectedOutput | ActualOutput | ErrorMessage
    | Passed | Total | MaxTimeMs | MaxMemoryKb | CompileOutput | TestResults

  datatype Json =
    | Null
    | Num(n: int)
    | Str(s: string)
    | Arr(items: seq<Json>)
    | Obj(fields: map<Name, Json>)

  /** `j.value(key, text)`: the default for an absent key; None where the library throws. */
  function TextAt(j: Json, key: Name, default: string): Option<string> {
    if !j.Obj? then None
    else if key !in j.fields then Some(default)
    else if j.fields[key].Str? then Some(j.fields[key].s)
    else None
  }

  function NumberAt(j: Json, key: Name, default: int): Option<int> {
    if !j.Obj? then None
    else if key !in j.fields then Some(default)
    else if j.fields[key].Num? then Some(j.fields[key].n)
    else None
  }

  function JobToJson(job: SubmissionJob): Json {
    Obj(map[
      SubmissionId := Str(job.submissionId),
      ProblemId := Str(job.problemId),
      SourceCode := Str(job.sourceCode),
      Language := Str(job.language),
      Username := Str(job.username)])
  }

  function JobFromJson(j: Json): Option<SubmissionJob> {
    var id := TextAt(j, SubmissionId, "");
    var problem := TextAt(j, ProblemId, "");
    var source := TextAt(j, SourceCode, "");
    var language := TextAt(j, Language, "c");
    var user := TextAt(j, Username, "");
    if id.None? || problem.None? || source.None? || language.None? || user.None? then None
    else Some(SubmissionJob(id.value, problem.value, source.value, language.value, user.value))
  }

  function TestToJson(tc: TestCaseResult): Json {
    Obj(map[
      Index := Num(tc.index),
      Outcome := Str(ToString(tc.verdict)),
      TimeMs := Num(tc.timeMs),
      MemoryKb := Num(tc.memoryKb),
      ExpectedOutput := Str(tc.expectedOutput),
      ActualOutput := Str(tc.actualOutput),
      ErrorMessage := Str(tc.errorMessage)])
  }

  function TestFromJson(j: Json): Option<TestCaseResult> {
    var index := NumberAt(j, Index, 0);
    var verdict := TextAt(j, Outcome, "PENDING");
    var time := NumberAt(j, TimeMs, 0);
    var memory := NumberAt(j, MemoryKb, 0);
    var expected := TextAt(j, ExpectedOutput, "");
    var actual := TextAt(j, ActualOutput, "");
    var message := TextAt(j, ErrorMessage, "");
    if index.None? || verdict.None? || time.None? || memory.None? || expected.None? || actual.None? || message.None?
    then None
    else Some(TestCaseResult(index.value, FromString(verdict.value), time.value, memory.value,
                             expected.value, actual.value, message.value))
  }

  function TestsToJson(tests: seq<TestCaseResult>): (items: seq<Json>)
    ensures |items| == |tests|
  {
    if tests == [] then [] else TestsToJson(tests[..|tests| - 1]) + [TestToJson(tests[|tests| - 1])]
  }

  function TestsFromJson(items: seq<Json>): Option<seq<TestCaseResult>> {
    if items == [] then Some([])
    else
      var front := TestsFromJson(items[..|items| - 1]);
      var last := TestFromJson(items[|items| - 1]);
      if front.None? || last.None? then None else Some(front.value + [last.value])
  }

  function ResultFields(r: SubmissionResult, tests: Json): map<Name, Json> {
    map[
      SubmissionId := Str(r.submissionId),
      ProblemId := Str(r.problemId),
      Username := Str(r.username),
      Language := Str(r.language),
      Outcome := Str(ToString(r.verdict)),
      Passed := Num(r.passed),
      Total := Num(r.total),
      MaxTimeMs := Num(r.maxTimeMs),
      MaxMemoryKb := Num(r.maxMemoryKb),
      CompileOutput := Str(r.compileOutput),
      TestResults := tests]
  }

  function ResultToJson(r: SubmissionResult): Json {
    Obj(ResultFields(r, Arr(TestsToJson(r.testResults))))
  }

  /** The listed tests: none unless the key is there and holds an array. */
  function TestItems(j: Json): seq<Json>
    requires j.Obj?
  {
    if TestResults in j.fields && j.fields[TestResults].Arr? then j.fields[TestResults].items else []
  }

  /** Everything but the tests. */
  function ResultHeader(j: Json): Option<SubmissionResult> {
    var id := TextAt(j, SubmissionId, "");
    var problem := TextAt(j, ProblemId, "");
    var user := TextAt(j, Username, "");
    var language := TextAt(j, Language, "c");
    var verdict := TextAt(j, Outcome, "PENDING");
    var passed := NumberAt(j, Passed, 0);
    var total := NumberAt(j, Total, 0);
    var time := NumberAt(j, MaxTimeMs, 0);
    var memory := NumberAt(j, MaxMemoryKb, 0);
    var output := TextAt(j, CompileOutput, "");
    if id.None? || problem.None? || user.None? || language.None? || verdict.None? || passed.None?
       || total.None? || time.None? || memory.None? || output.None?
    then None
    else Some(SubmissionResult(id.value, problem.value, user.value, language.value, FromString(verdict.value),
                               passed.value, total.value, time.value, memory.value, output.value, []))
  }

  function ResultFromJson(j: Json): Option<SubmissionResult> {
    var header := ResultHeader(j);
    if header.None? then None
    else
      var tests := TestsFromJson(TestItems(j));
      if tests.None? then None else Some(header.value.(testResults := tests.value))
  }

  /** The encoder appends one object per test, in order. */
  method EncodeResult(r: SubmissionResult) returns (j: Json)
    ensures j == ResultToJson(r)
  {
    var items: seq<Json> := [];
    for i := 0 to |r.testResults|
      invariant items == TestsToJson(r.testResults[..i])
    {
      assert r.testResults[..i + 1][..i] == r.testResults[..i];
      items := items + [TestToJson(r.testResults[i])];
    }
    assert r.testResults[..|r.testResults|] == r.testResults;
    j := Obj(ResultFields(r, Arr(items)));
  }

  /** The decoder appends one record per array element, in order, and gives up where the library throws. */
  method DecodeResult(j: Json) returns (r: Option<SubmissionResult>)
    ensures r == ResultFromJson(j)
  {
    var header := ResultHeader(j);
    if header.None? {
      return None;
    }
    var items := TestItems(j);
    var tests: seq<TestCaseResult> := [];
    for i := 0 to |items|
      invariant TestsFromJson(items[..i]) == Some(tests)
    {
      assert items[..i + 1][..i] == items[..i];
      var tc := TestFromJson(items[i]);
      if tc.None? {
        ThrowsForever(items, i + 1);
        return None;
      }
      tests := tests + [tc.value];
    }
    assert items[..|items|] == items;
    r := Some(header.value.(testResults := tests));
  }

  /** One element that does not decode spoils the whole array. */
  lemma {:induction false} ThrowsForever(items: seq<Json>, n: nat)
    requires n <= |items| && TestsFromJson(items[..n]).None?
    ensures TestsFromJson(items).None?
    decreases |items| - n
  {
    if n == |items| {
      assert items[..n] == items;
    } else {
      assert items[..n + 1][..n] == items[..n];
      ThrowsForever(items, n + 1);
    }
  }

  /** A job read back from the queue is the job that was enqueued. */
  lemma JobRoundTrip(job: SubmissionJob)
    ensures JobFromJson(JobToJson(job)) == Some(job)
  {
  }

  /** Each member of a job's document carries the field of its own name, and a missing one has its default. */
  lemma JobMembers(job: SubmissionJob, t: string)
    ensures var f := JobToJson(job).fields;
      && JobFromJson(Obj(f[SubmissionId := Str(t)])) == Some(job.(submissionId := t))
      && JobFromJson(Obj(f[ProblemId := Str(t)])) == Some(job.(problemId := t))
      && JobFromJson(Obj(f[SourceCode := Str(t)])) == Some(job.(sourceCode := t))
      && JobFromJson(Obj(f[Language := Str(t)])) == Some(job.(language := t))
      && JobFromJson(Obj(f[Username := Str(t)])) == Some(job.(username := t))
      && JobFromJson(Obj(map[])) == Some(SubmissionJob("", "", "", "c", ""))
  {
  }

  lemma TestRoundTrip(tc: TestCaseResult)
    ensures TestFromJson(TestToJson(tc)) == Some(tc)
  {
    NameRoundTrip(tc.verdict);
  }

  /** Each number of a test's document carries the field of its own name. */
  lemma TestNumbers(tc: TestCaseResult, n: int)
    ensures TestToJson(tc).Obj?
    ensures var f := TestToJson(tc).fields;
      && TestFromJson(Obj(f[Index := Num(n)])) == Some(tc.(index := n))
      && TestFromJson(Obj(f[TimeMs := Num(n)])) == Some(tc.(timeMs := n))
      && TestFromJson(Obj(f[MemoryKb := Num(n)])) == Some(tc.(memoryKb := n))
  {
    hide ToString, FromString;
    NameRoundTrip(tc.verdict);
  }

  /** So do its verdict and each of its texts. */
  lemma TestTexts(tc: TestCaseResult, t: string, v: Verdict)
    ensures var f := TestToJson(tc).fields;
      && TestFromJson(Obj(f[Outcome := Str(ToString(v))])) == Some(tc.(verdict := v))
      && TestFromJson(Obj(f[ExpectedOutput := Str(t)])) == Some(tc.(expectedOutput := t))
      && TestFromJson(Obj(f[ActualOutput := Str(t)])) == Some(tc.(actualOutput := t))
      && TestFromJson(Obj(f[ErrorMessage := Str(t)])) == Some(tc.(errorMessage := t))
  {
    hide ToString, FromString;
    NameRoundTrip(tc.verdict);
    NameRoundTrip(v);
  }

  /** The array of a result's document has one element per test, in order. */
  lemma {:induction false} TestsInOrder(tests: seq<TestCaseResult>, i: nat)
    requires i < |tests|
    ensures TestsToJson(tests)[i] == TestToJson(tests[i])
  {
    hide TestToJson;
    if i < |tests| - 1 {
      TestsInOrder(tests[..|tests| - 1], i);
    }
  }

  lemma {:induction false} TestsRoundTrip(tests: seq<TestCaseResult>)
    ensures TestsFromJson(TestsToJson(tests)) == Some(tests)
  {
    hide TestToJson, TestFromJson;
    if tests != [] {
      var front, last := tests[..|tests| - 1], tests[|tests| - 1];
      TestsRoundTrip(front);
      TestRoundTrip(last);
      assert TestsToJson(tests)[..|tests| - 1] == TestsToJson(front);
      assert front + [last] == tests;
    }
  }

  lemma HeaderRoundTrip(r: SubmissionResult, tests: Json)
    ensures ResultHeader(Obj(ResultFields(r, tests))) == Some(r.(testResults := []))
  {
    NameRoundTrip(r.verdict);
    var j := Obj(ResultFields(r, tests));
    assert TextAt(j, SubmissionId, "") == Some(r.submissionId);
    assert TextAt(j, ProblemId, "") == Some(r.problemId);
    assert TextAt(j, Username, "") == Some(r.username);
    assert TextAt(j, Language, "c") == Some(r.language);
    assert TextAt(j, Outcome, "PENDING") == Some(ToString(r.verdict));
    assert TextAt(j, CompileOutput, "") == Some(r.compileOutput);
    assert NumberAt(j, Passed, 0) == Some(r.passed);
    assert NumberAt(j, Total, 0) == Some(r.total);
  }

  /** Each text of a result's document carries the field of its own name. */
  lemma ResultTexts(r: SubmissionResult, tests: Json, t: string)
    ensures var f, h := ResultFields(r, tests), r.(testResults := []);
      && ResultHeader(Obj(f[SubmissionId := Str(t)])) == Some(h.(submissionId := t))
      && ResultHeader(Obj(f[ProblemId := Str(t)])) == Some(h.(problemId := t))
      && ResultHeader(Obj(f[Username := Str(t)])) == Some(h.(username := t))
      && ResultHeader(Obj(f[Language := Str(t)])) == Some(h.(language := t))
      && ResultHeader(Obj(f[CompileOutput := Str(t)])) == Some(h.(compileOutput := t))
  {
    hide ToString, FromString;
    NameRoundTrip(r.verdict);
  }

  /** So do its verdict and each of its numbers. */
  lemma ResultNumbers(r: SubmissionResult, tests: Json, n: int, v: Verdict)
    ensures var f, h := ResultFields(r, tests), r.(testResults := []);
      && ResultHeader(Obj(f[Outcome := Str(ToString(v))])) == Some(h.(verdict := v))
      && ResultHeader(Obj(f[Passed := Num(n)])) == Some(h.(passed := n))
      && ResultHeader(Obj(f[Total := Num(n)])) == Some(h.(total := n))
      && ResultHeader(Obj(f[MaxTimeMs := Num(n)])) == Some(h.(maxTimeMs := n))
      && ResultHeader(Obj(f[MaxMemoryKb := Num(n)])) == Some(h.(maxMemoryKb := n))
  {
    hide ToString, FromString;
    NameRoundTrip(r.verdict);
    NameRoundTrip(v);
  }

  /** A stored result reads back unchanged, with any number of tests and any verdict in each. */
  lemma ResultRoundTrip(r: SubmissionResult)
    ensures ResultFromJson(ResultToJson(r)) == Some(r)
  {
    HeaderRoundTrip(r, Arr(TestsToJson(r.testResults)));
    TestsRoundTrip(r.testResults);
    assert TestItems(ResultToJson(r)) == TestsToJson(r.testResults);
  }
}
