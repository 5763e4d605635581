/** The request handlers of the API server (api/src/server.cpp): the branches that answer a request, and the
    ordered store operations that each of them runs. */
module Api {
  import opened Auth
  import opened Codec
  import opened Keyspace
  import opened Languages
  import opened RedisClient
  import opened Store
  import opened Verdicts
  import Credentials
  import Evaluator
  import Loader
  import Protocol

  const ID_LENGTH := 32

  datatype Failure =
    | AuthRequired | BadToken | InvalidJson | FieldsRequired | UnsupportedLanguage | NoSuchProblem
    | QueueUnavailable | NoSuchSubmission

  /** One line of a user's history. */
  datatype Entry =
    | Judged(id: string, problemId: string, verdict: Verdict, language: string, passed: int, total: int)
    | Waiting(id: string, verdict: Verdict)

  datatype Response =
    | Failed(failure: Failure)
    | Taken(id: string, language: string, position: int)
    | ShowResult(result: SubmissionResult)
    | ShowStatus(id: string, verdict: Verdict)
    | ShowList(entries: seq<Entry>)

  /** The HTTP status: 202 is for an accepted submission alone, and errors are for failures alone. */
  function Code(r: Response): (code: int)
    ensures code == 202 <==> r.Taken?
    ensures code >= 400 <==> r.Failed?
    ensures !r.Failed? && !r.Taken? ==> code == 200
    ensures code == 401 <==> r == Failed(AuthRequired) || r == Failed(BadToken)
    ensures code == 404 <==> r == Failed(NoSuchProblem) || r == Failed(NoSuchSubmission)
    ensures code == 503 <==> r == Failed(QueueUnavailable)
  {
    match r
    case Taken(_, _, _) => 202
    case Failed(AuthRequired) => 401
    case Failed(BadToken) => 401
    case Failed(InvalidJson) => 400
    case Failed(FieldsRequired) => 400
    case Failed(UnsupportedLanguage) => 400
    case Failed(NoSuchProblem) => 404
    case Failed(NoSuchSubmission) => 404
    case Failed(QueueUnavailable) => 503
    case _ => 200
  }

  /** The problems on disk. */
  datatype Disk = Disk(files: Loader.FileSystem, root: string)

  predicate HasProblem(disk: Disk, id: string) {
    Loader.Opens(disk.files, Loader.MetaPath(disk.root, id))
  }

  /** Members that are there are texts; for anything else the JSON library throws. */
  predicate WellTyped(body: Json) {
    TextAt(body, ProblemId, "").Some? && TextAt(body, SourceCode, "").Some? && TextAt(body, Language, "c").Some?
  }

  /** The first complaint about a submit request, whose body is None when it does not parse. */
  function Complaint(disk: Disk, body: Option<Json>): Option<Failure>
    requires body.Some? ==> WellTyped(body.value)
  {
    if body.None? then Some(InvalidJson)
    else
      var problem := TextAt(body.value, ProblemId, "").value;
      if problem == "" || TextAt(body.value, SourceCode, "").value == "" then Some(FieldsRequired)
      else if !IsSupported(TextAt(body.value, Language, "c").value) then Some(UnsupportedLanguage)
      else if !HasProblem(disk, problem) then Some(NoSuchProblem)
      else None
  }

  function JobFor(body: Json, user: string, id: string): SubmissionJob
    requires WellTyped(body)
  {
    SubmissionJob(id, TextAt(body, ProblemId, "").value, TextAt(body, SourceCode, "").value,
                  Normalize(TextAt(body, Language, "c").value), user)
  }

  /** A request that parses is complained about exactly for an empty problem or source, else an unsupported
      language, else a problem whose record does not open; and each of its members reaches the job. */
  lemma SubmittedMembers(disk: Disk, problem: string, source: string, language: string, user: string, id: string)
    ensures var body := Obj(map[ProblemId := Str(problem), SourceCode := Str(source), Language := Str(language)]);
      var there := Loader.Opens(disk.files, disk.root + "/" + problem + "/meta.json");
      && WellTyped(body)
      && (Complaint(disk, Some(body)) == None <==> problem != "" && source != "" && IsSupported(language) && there)
      && (Complaint(disk, Some(body)) == Some(FieldsRequired) <==> problem == "" || source == "")
      && (Complaint(disk, Some(body)) == Some(UnsupportedLanguage) <==>
            problem != "" && source != "" && !IsSupported(language))
      && (Complaint(disk, Some(body)) == Some(NoSuchProblem) <==>
            problem != "" && source != "" && IsSupported(language) && !there)
      && JobFor(body, user, id) == SubmissionJob(id, problem, source, Normalize(language), user)
  {
    hide IsSupported, Normalize, Loader.Opens;
  }

  /** What is missing counts as empty, except the language, which is then C. */
  lemma MissingMembers(disk: Disk, problem: string, source: string, user: string, id: string)
    ensures Complaint(disk, None) == Some(InvalidJson)
    ensures Complaint(disk, Some(Obj(map[]))) == Some(FieldsRequired)
    ensures var body := Obj(map[ProblemId := Str(problem), SourceCode := Str(source)]);
      && WellTyped(body) && Complaint(disk, Some(body)) != Some(UnsupportedLanguage)
      && JobFor(body, user, id).language == "c"
  {
    SupportedExactlyWhen("c");
    assert Lower("c") == "c";
  }

  /** Language agreement end to end: the job of an accepted request reaches the worker unchanged, its language
      is its own normal form and a row of the table, the result names that same language, the evaluator never
      calls it unsupported, and the source file never gets the fall-back extension. */
  lemma LanguageEndToEnd(disk: Disk, body: Json, user: string, id: string, env: Evaluator.Environment)
    requires WellTyped(body) && Complaint(disk, Some(body)) == None
    requires env.problem.Some? && |env.runs| == |env.cases|
    ensures var job := JobFor(body, user, id);
      && JobFromJson(JobToJson(job)) == Some(job)
      && Normalize(job.language) == job.language && Evaluator.Evaluated(job, env).language == job.language
      && (exists l <- SUPPORTED :: l.id == job.language && l.extension == SourceExtension(job.language))
      && (Evaluator.Evaluated(job, env).verdict == CompilationError <==> !env.compile.success)
  {
    var job, language := JobFor(body, user, id), TextAt(body, Language, "c").value;
    JobRoundTrip(job);
    NormalizeIdempotent(language);
    StagesAgree(language);
    Evaluator.UnsupportedBranchIsDead(job, env);
    LanguageOfResult(job, env);
  }

  lemma LanguageOfResult(job: SubmissionJob, env: Evaluator.Environment)
    requires |env.runs| == |env.cases|
    ensures Evaluator.Evaluated(job, env).language == Normalize(job.language)
  {
    hide Normalize, IsSupported;
  }

  /** What a poll of one submission shows in this world. */
  function PollOf(w: World, id: string): Response {
    var result, status := Live(w.store.results, id, w.now), Live(w.store.statuses, id, w.now);
    if result.Some? then ShowResult(result.value)
    else if status.Some? then ShowStatus(id, status.value)
    else Failed(NoSuchSubmission)
  }

  /** The calls of a poll: the result, and the status exactly if the first reply showed no result. */
  predicate IsPoll(id: string, poll: seq<Exchange>) {
    && |poll| >= 1 && poll[0].op == GetResult(id)
    && if ResultHeard(poll[0]).Some? then |poll| == 1 else |poll| == 2 && poll[1].op == GetStatus(id)
  }

  /** What the replies of a poll lead to. */
  function PollResponse(id: string, poll: seq<Exchange>): Response
    requires IsPoll(id, poll)
  {
    if |poll| == 1 then ShowResult(ResultHeard(poll[0]).value)
    else if StatusHeard(poll[1]).Some? then ShowStatus(id, StatusHeard(poll[1]).value)
    else Failed(NoSuchSubmission)
  }

  /** The line of the history listing: a submission without a status is shown as PENDING. */
  function LineOf(r: Response, id: string): Entry {
    match r
    case ShowResult(result) =>
      Judged(id, result.problemId, result.verdict, result.language, result.passed, result.total)
    case ShowStatus(_, verdict) => Waiting(id, verdict)
    case _ => Waiting(id, Pending)
  }

  function LinesOf(w: World, ids: seq<string>): (lines: seq<Entry>)
    ensures |lines| == |ids|
  {
    seq(|ids|, i requires 0 <= i < |ids| => LineOf(PollOf(w, ids[i]), ids[i]))
  }

  /** A poll is answered with 404 exactly if its replies showed neither a result nor a status, and else with 200. */
  lemma PollCodes(id: string, poll: seq<Exchange>)
    requires IsPoll(id, poll)
    ensures var code := Code(PollResponse(id, poll));
            code == if ResultHeard(poll[0]).None? && StatusHeard(poll[1]).None? then 404 else 200
  {
  }

  /** One poll for each listed id, in order. */
  predicate ArePolls(ids: seq<string>, polls: seq<seq<Exchange>>) {
    |polls| == |ids| && forall i :: 0 <= i < |ids| ==> IsPoll(ids[i], polls[i])
  }

  /** The lines that the replies of the polls lead to. */
  function LinesFrom(ids: seq<string>, polls: seq<seq<Exchange>>): (lines: seq<Entry>)
    requires ArePolls(ids, polls)
    ensures |lines| == |ids|
  {
    seq(|ids|, i requires 0 <= i < |ids| => LineOf(PollResponse(ids[i], polls[i]), ids[i]))
  }

  function Joined(polls: seq<seq<Exchange>>): seq<Exchange> {
    if polls == [] then [] else Joined(polls[..|polls| - 1]) + polls[|polls| - 1]
  }

  function VerdictIn(r: Response): Option<Verdict> {
    match r
    case ShowResult(result) => Some(result.verdict)
    case ShowStatus(_, verdict) => Some(verdict)
    case _ => None
  }

  /** The protocol's readers are these handlers.  Whatever others do between the two reads of a poll, a
      reader of the machine that makes its reads at the same two moments shows what the poll shows. */
  lemma ReaderIsPoll(a: View, b: View, id: string, poll: seq<Exchange>, rd: Protocol.Reader)
    requires Runs(a, b, poll) && IsPoll(id, poll) && forall e <- poll :: e.heard.Some?
    requires rd.phase.ReadingResult? && rd.todo != [] && rd.todo[0] == id
    ensures |a.trace| <= poll[0].heard.value.at < |b.trace|
    ensures var w := WorldBefore(b, poll[0].heard.value.at);
      var first := Protocol.NextRead(rd, w.store, w.now);
      var shown := Protocol.Shown(id, w.now, VerdictIn(PollResponse(id, poll)));
      if |poll| == 1 then first == Protocol.Reader(Protocol.ReadingResult, rd.todo[1..], rd.shown + [shown])
      else
        && first == rd.(phase := Protocol.ReadingStatus(w.now))
        && poll[0].heard.value.at < poll[1].heard.value.at < |b.trace|
        && var later := WorldBefore(b, poll[1].heard.value.at);
           Protocol.NextRead(first, later.store, later.now) ==
           Protocol.Reader(Protocol.ReadingResult, rd.todo[1..], rd.shown + [shown])
  {
    hide Mine, Now, AppliedTo, Applications, WorldBefore, Live;
    assert Sound(a, b, poll[0]);
    if |poll| == 2 {
      assert Sound(a, b, poll[1]);
    }
  }

  /** The listing read of a history reader is the range of the listing handler: at the same moment it takes up
      exactly the ids that the handler polls next, one after the other, each as in ReaderIsPoll. */
  lemma ReaderIsListing(a: View, b: View, user: string, response: Response, listing: seq<Exchange>,
                        polls: seq<seq<Exchange>>, rd: Protocol.Reader)
    requires Runs(a, b, listing) && IsListing(user, response, listing, polls) && listing[0].heard.Some?
    requires rd.phase == Protocol.Listing(user)
    ensures |a.trace| <= listing[0].heard.value.at < |b.trace|
    ensures var w := WorldBefore(b, listing[0].heard.value.at);
      && Protocol.NextRead(rd, w.store, w.now) ==
         rd.(phase := Protocol.ReadingResult, todo := IdsHeard(listing[0]))
      && ArePolls(Protocol.NextRead(rd, w.store, w.now).todo, polls)
  {
    hide Mine, Now, AppliedTo, Applications, WorldBefore, ArePolls, LinesFrom, Joined, InOrder, Plays;
    assert Sound(a, b, listing[0]);
  }

  /** A line of the listing has the verdict that a reader shows, PENDING for none; and the rest of it is the
      result's own. */
  lemma LineShows(id: string, r: Response)
    ensures var line := LineOf(r, id);
      && line.id == id && line.verdict == (if VerdictIn(r).Some? then VerdictIn(r).value else Pending)
      && (line.Judged? <==> r.ShowResult?)
      && (r.ShowResult? ==>
            && line.problemId == r.result.problemId && line.language == r.result.language
            && line.passed == r.result.passed && line.total == r.result.total)
  {
  }

  /** A poll alone shows what is there. */
  lemma PollAlone(w: World, id: string, poll: seq<Exchange>)
    requires IsPoll(id, poll) && forall e <- poll :: ReplyIn(e) == Some(Answer(w.store, w.now, e.op))
    ensures PollResponse(id, poll) == PollOf(w, id)
  {
    hide Live;
    assert poll[0] in poll;
    if |poll| == 2 {
      assert poll[1] in poll;
    }
  }

  lemma PollReadsOnly(w: World, id: string)
    ensures AppliedTo(w, [GetResult(id)]) == w && AppliedTo(w, [GetResult(id), GetStatus(id)]) == w
  {
    AppliedNone(w);
    AppliedLast(w, [], GetResult(id));
    AppliedLast(w, [GetResult(id)], GetStatus(id));
    assert [] + [GetResult(id)] == [GetResult(id)];
    assert [GetResult(id)] + [GetStatus(id)] == [GetResult(id), GetStatus(id)];
  }

  /** The handler's operations when the push to the history got no reply. */
  function UntrimmedOps(job: SubmissionJob): seq<Op> {
    [EnqueueJob(job), SetStatus(job.submissionId, Pending), PushHistory(job.username, job.submissionId), QueueLength]
  }

  /** A job queued in a quiet system sees itself counted. */
  lemma PositionAfter(w: World, job: SubmissionJob)
    ensures |AppliedTo(w, SubmitOps(job)[..4]).store.queue| == |w.store.queue| + 1
  {
    hide Slice;
    var ops := SubmitOps(job);
    AppliedLast(w, [], ops[0]);
    AppliedLast(w, [ops[0]], ops[1]);
    AppliedLast(w, [ops[0], ops[1]], ops[2]);
    AppliedLast(w, [ops[0], ops[1], ops[2]], ops[3]);
    assert [] + [ops[0]] == [ops[0]] && [ops[0]] + [ops[1]] == [ops[0], ops[1]];
    assert [ops[0], ops[1]] + [ops[2]] == [ops[0], ops[1], ops[2]];
    assert [ops[0], ops[1], ops[2]] + [ops[3]] == ops[..4];
  }

  lemma HeardWithoutTrouble(a: View, b: View, script: seq<Exchange>)
    requires Runs(a, b, script) && a.steady
    ensures b.steady && forall e <- script :: e.heard.Some?
  {
    hide Mine, Applications, InOrder, Now, AppliedTo, Truthful;
    forall e | e in script ensures e.heard.Some? {
      assert Sound(a, b, e);
    }
  }

  lemma NoLines(w: World)
    ensures ArePolls([], []) && LinesFrom([], []) == [] && LinesOf(w, []) == [] && Joined([]) == []
  {
  }

  /** The next line of a listing. */
  lemma NextLine(w: World, ids: seq<string>, i: nat, polls: seq<seq<Exchange>>, poll: seq<Exchange>, lines: seq<Entry>)
    requires i < |ids| && ArePolls(ids[..i], polls) && IsPoll(ids[i], poll) && lines == LinesFrom(ids[..i], polls)
    ensures ArePolls(ids[..i + 1], polls + [poll]) && Joined(polls + [poll]) == Joined(polls) + poll
    ensures LinesFrom(ids[..i + 1], polls + [poll]) == lines + [LineOf(PollResponse(ids[i], poll), ids[i])]
    ensures lines == LinesOf(w, ids[..i]) && PollResponse(ids[i], poll) == PollOf(w, ids[i]) ==>
      lines + [LineOf(PollResponse(ids[i], poll), ids[i])] == LinesOf(w, ids[..i + 1])
  {
    hide IsPoll, PollOf, PollResponse, LineOf;
    assert (polls + [poll])[..i] == polls && ids[..i + 1] == ids[..i] + [ids[i]];
  }

  lemma StillAlone(a: View, b: View, script: seq<Exchange>)
    requires Runs(a, b, script)
    ensures a.Alone() ==> b.Alone()
  {
    hide Mine, Applications, AllSound, InOrder, Now, AppliedTo;
  }

  lemma RangeAlone(a: View, b: View, user: string, range: Exchange)
    requires Runs(a, b, [range]) && range.op == RangeHistory(user, HISTORY_PAGE) && AnsweredAlone(a, range)
    ensures a.Alone() ==>
      b.Alone() && Now(b) == Now(a) && IdsHeard(range) == Slice(HistoryOf(Now(a).store, user), 0, HISTORY_PAGE - 1)
  {
    hide Mine, Applications, AllSound, InOrder, Now, Slice;
    if a.Alone() {
      AppliedNone(Now(a));
      AppliedLast(Now(a), [], range.op);
      assert OpsOf([range]) == [] + [range.op];
    }
  }

  /** The poll of a reader that has the system to itself. */
  lemma PollWhenAlone(a: View, b: View, c: View, id: string, poll: seq<Exchange>)
    requires Runs(a, c, poll) && IsPoll(id, poll) && AnsweredAlone(a, poll[0])
    requires |poll| == 2 ==> Runs(a, b, poll[..1]) && AnsweredAlone(b, poll[1])
    ensures a.Alone() ==> PollResponse(id, poll) == PollOf(Now(a), id) && Now(c) == Now(a)
  {
    hide Mine, Applications, AllSound, InOrder, Now, Live;
    if a.Alone() {
      PollReadsOnly(Now(a), id);
      if |poll| == 2 {
        assert OpsOf(poll[..1]) == [GetResult(id)] && OpsOf(poll) == [GetResult(id), GetStatus(id)];
      } else {
        assert OpsOf(poll) == [GetResult(id)];
      }
      PollAlone(Now(a), id, poll);
    }
  }

  /** The calls of a listing and its response: one range, then one poll for each id in its reply. */
  predicate IsListing(user: string, response: Response, listing: seq<Exchange>, polls: seq<seq<Exchange>>) {
    && |listing| >= 1 && listing[0].op == RangeHistory(user, HISTORY_PAGE)
    && ArePolls(IdsHeard(listing[0]), polls) && listing == [listing[0]] + Joined(polls)
    && response == ShowList(LinesFrom(IdsHeard(listing[0]), polls))
  }

  /** The calls of require_auth and the user they lead to. */
  predicate IsCheck(header: Option<string>, user: Option<string>, check: seq<Exchange>) {
    if header.None? then check == [] && user == None
    else IsValidation(ExtractBearerToken(header.value), user, check)
  }

  /** The calls for an accepted request and the response: nothing after an enqueue without a reply, no trim
      after a push without a reply, and the position that the last reply tells. */
  predicate IsAcceptance(job: SubmissionJob, response: Response, script: seq<Exchange>) {
    && |script| >= 1 && script[0].op == EnqueueJob(job)
    && if script[0].heard.None? then |script| == 1 && response == Failed(QueueUnavailable)
       else
         && |script| >= 4
         && OpsOf(script) == (if script[2].heard.Some? then SubmitOps(job) else UntrimmedOps(job))
         && response == Taken(job.submissionId, job.language, LengthHeard(script[|script| - 1]))
  }

  /** A submit request that passed its checks is accepted exactly if the line brings the enqueue's reply: at
      once, or after one I/O loss with a successful reconnect. */
  lemma AcceptedOnTheLine(a: View, b: View, job: SubmissionJob, response: Response, script: seq<Exchange>)
    requires Runs(a, b, script) && IsAcceptance(job, response, script)
    ensures response.Taken? <==> AnswersOn(a.line)
    ensures Code(response) == if AnswersOn(a.line) then 202 else 503
  {
    hide Mine, Applications, AllSound, InOrder, Now, AppliedTo, AnswersOn, TimesOn;
    assert LineAfterCalls(a.line, 0) == a.line;
  }

  lemma RefusedAcceptance(a: View, b: View, job: SubmissionJob, enqueue: Exchange)
    requires Runs(a, b, [enqueue]) && enqueue.op == EnqueueJob(job) && enqueue.heard.None?
    ensures IsAcceptance(job, Failed(QueueUnavailable), [enqueue]) && !a.steady
  {
    if a.steady {
      HeardWithoutTrouble(a, b, [enqueue]);
    }
  }

  lemma AcceptanceIs(job: SubmissionJob, enqueue: Exchange, mark: Exchange, record: seq<Exchange>, length: Exchange,
                     recorded: bool)
    requires enqueue.op == EnqueueJob(job) && enqueue.heard.Some? && mark.op == SetStatus(job.submissionId, Pending)
    requires IsRecording(job.username, job.submissionId, recorded, record) && length.op == QueueLength
    ensures IsAcceptance(job, Taken(job.submissionId, job.language, LengthHeard(length)),
                         [enqueue, mark] + record + [length])
    ensures recorded ==> OpsOf([enqueue, mark] + record) == SubmitOps(job)[..4]
  {
    var script := [enqueue, mark] + record + [length];
    assert OpsOf(script) == [enqueue.op, mark.op] + OpsOf(record) + [length.op];
    assert script[2] == record[0];
    if recorded {
      assert OpsOf([enqueue, mark] + record) == [enqueue.op, mark.op] + OpsOf(record);
    }
  }

  lemma AcceptanceAlone(a: View, b: View, job: SubmissionJob, enqueue: Exchange, mark: Exchange,
                        record: seq<Exchange>, length: Exchange, recorded: bool)
    requires enqueue.op == EnqueueJob(job) && enqueue.heard.Some? && mark.op == SetStatus(job.submissionId, Pending)
    requires IsRecording(job.username, job.submissionId, recorded, record) && length.op == QueueLength
    requires Runs(a, b, [enqueue, mark] + record) && AnsweredAlone(b, length)
    ensures a.Alone() ==> LengthHeard(length) == |Now(a).store.queue| + 1
  {
    hide Mine, Applications, AllSound, InOrder, Now, AppliedTo, SubmitOps, IsAcceptance;
    if a.Alone() {
      HeardWithoutTrouble(a, b, [enqueue, mark] + record);
      assert record[0] in [enqueue, mark] + record;
      AcceptanceIs(job, enqueue, mark, record, length, recorded);
      PositionAfter(Now(a), job);
    }
  }

  class ApiServer {
    const disk: Disk
    const parse: string -> ProblemInfo
    const redis: Client
    const auth: AuthService
    const draw: Source
    var drawn: nat

    constructor (disk: Disk, parse: string -> ProblemInfo, redis: Client, auth: AuthService, draw: Source)
      requires auth.redis == redis
      ensures this.disk == disk && this.redis == redis && this.auth == auth && this.draw == draw && drawn == 0
    {
      this.disk, this.parse, this.redis, this.auth, this.draw, drawn := disk, parse, redis, auth, draw, 0;
    }

    ghost predicate Valid()
      reads redis.server
    {
      auth.redis == redis && auth.Valid()
    }

    function NextId(): string
      reads this
    {
      Drawn(draw, drawn, ID_LENGTH)
    }

    method GenerateSubmissionId() returns (id: string)
      modifies this`drawn
      ensures id == old(NextId()) && drawn == old(drawn) + ID_LENGTH
    {
      id := "";
      for i := 0 to ID_LENGTH
        invariant drawn == old(drawn) + i
        invariant id == Drawn(draw, old(drawn), i)
      {
        id := id + [Credentials.HexDigit(draw(drawn))];
        drawn := drawn + 1;
      }
    }

    /** require_auth: either a user or a failure. */
    method RequireAuth(header: Option<string>)
      returns (user: Option<string>, failure: Failure, ghost check: seq<Exchange>)
      requires Valid()
      modifies redis, redis.server
      ensures Valid() && Runs(old(redis.Look()), redis.Look(), check) && IsCheck(header, user, check)
      ensures failure == if header.None? then AuthRequired else BadToken
      ensures old(redis.Look()).Alone() ==>
        && (header.Some? ==> user == Credentials.Validate(Now(old(redis.Look())), ExtractBearerToken(header.value)))
        && Now(redis.Look()) == Now(old(redis.Look()))
    {
      hide Runs, Now, Refines, AppliedTo;
      if header.None? {
        RunsNothing(redis.Look());
        return None, AuthRequired, [];
      }
      var token := ExtractBearerToken(header.value);
      user, check := auth.ValidateToken(token);
      failure := BadToken;
    }

    /** The store operations of an accepted submit request, in the order of the handler: the job is queued
        before its status is written. */
    method Accept(job: SubmissionJob) returns (response: Response, ghost script: seq<Exchange>)
      requires Valid()
      modifies redis, redis.server
      ensures Valid() && Runs(old(redis.Look()), redis.Look(), script) && IsAcceptance(job, response, script)
      ensures old(redis.Look()).Alone() ==>
        response.Taken? && response.position == |Now(old(redis.Look())).store.queue| + 1
    {
      hide Refines, Now, Runs, AnsweredAlone, IsAcceptance, IsRecording, Credentials.IsDigest;
      ghost var start := redis.Look();
      var ok, enqueue := redis.EnqueueJob(job);
      if !ok {
        RefusedAcceptance(start, redis.Look(), job, enqueue);
        return Failed(QueueUnavailable), [enqueue];
      }
      ghost var queued := redis.Look();
      var _, mark := redis.SetStatus(job.submissionId, Pending);
      RunsInTurn(start, queued, redis.Look(), [enqueue], [mark]);
      assert [enqueue] + [mark] == [enqueue, mark];
      ghost var marked := redis.Look();
      var recorded, record := auth.RecordSubmission(job.username, job.submissionId);
      RunsInTurn(start, marked, redis.Look(), [enqueue, mark], record);
      ghost var before := redis.Look();
      var position, length := redis.QueueLength();
      RunsInTurn(start, before, redis.Look(), [enqueue, mark] + record, [length]);
      script := [enqueue, mark] + record + [length];
      response := Taken(job.submissionId, job.language, position);
      AcceptanceIs(job, enqueue, mark, record, length, recorded);
      AcceptanceAlone(start, before, job, enqueue, mark, record, length, recorded);
    }

    /** POST /submit.  Nothing but the token is looked up until every check has passed. */
    method Submit(header: Option<string>, body: Option<Json>)
      returns (response: Response, ghost user: Option<string>, ghost check: seq<Exchange>, ghost acts: seq<Exchange>)
      requires Valid() && (body.Some? ==> WellTyped(body.value))
      modifies this, redis, redis.server
      ensures Valid() && Runs(old(redis.Look()), redis.Look(), check + acts) && IsCheck(header, user, check)
      ensures user.None? ==> acts == [] && response == Failed(if header.None? then AuthRequired else BadToken)
      ensures user.Some? && Complaint(disk, body).Some? ==> acts == [] && response == Failed(Complaint(disk, body).value)
      ensures user.Some? && Complaint(disk, body).None? ==>
        IsAcceptance(JobFor(body.value, user.value, old(NextId())), response, acts)
      ensures drawn == old(drawn) + if acts == [] then 0 else ID_LENGTH
      ensures old(redis.Look()).Alone() && header.Some? ==>
        user == Credentials.Validate(Now(old(redis.Look())), ExtractBearerToken(header.value))
      ensures old(redis.Look()).Alone() && acts != [] ==>
        response.Taken? && response.position == |Now(old(redis.Look())).store.queue| + 1
    {
      hide Refines, Now, Runs, IsCheck, Credentials.IsDigest, ExtractBearerToken, IsSupported, Normalize;
      ghost var start := redis.Look();
      var failure: Failure, name: Option<string>;
      name, failure, check := RequireAuth(header);
      user := name;
      acts := [];
      assert check + [] == check;
      if name.None? {
        return Failed(failure), user, check, acts;
      }
      if body.None? {
        return Failed(InvalidJson), user, check, acts;
      }
      var problem := TextAt(body.value, ProblemId, "").value;
      var source := TextAt(body.value, SourceCode, "").value;
      var language := TextAt(body.value, Language, "c").value;
      if problem == "" || source == "" {
        return Failed(FieldsRequired), user, check, acts;
      }
      if !IsSupported(language) {
        return Failed(UnsupportedLanguage), user, check, acts;
      }
      var found := Loader.GetProblem(disk.files, disk.root, problem, parse);
      if found.None? {
        return Failed(NoSuchProblem), user, check, acts;
      }
      ghost var checked := redis.Look();
      StillAlone(start, checked, check);
      var id := GenerateSubmissionId();
      var job := SubmissionJob(id, problem, source, Normalize(language), name.value);
      response, acts := Accept(job);
      RunsInTurn(start, checked, redis.Look(), check, acts);
    }

    /** GET /submissions/:id reads the result first and the status only if there is none. */
    method PollSubmission(header: Option<string>, id: string)
      returns (response: Response, ghost user: Option<string>, ghost check: seq<Exchange>, ghost poll: seq<Exchange>)
      requires Valid()
      modifies redis, redis.server
      ensures Valid() && Runs(old(redis.Look()), redis.Look(), check + poll) && IsCheck(header, user, check)
      ensures user.None? ==> poll == [] && response == Failed(if header.None? then AuthRequired else BadToken)
      ensures user.Some? ==> IsPoll(id, poll) && response == PollResponse(id, poll)
      ensures old(redis.Look()).Alone() && header.Some? ==>
        user == Credentials.Validate(Now(old(redis.Look())), ExtractBearerToken(header.value))
      ensures old(redis.Look()).Alone() && user.Some? ==>
        response == PollOf(Now(old(redis.Look())), id) && Now(redis.Look()) == Now(old(redis.Look()))
    {
      hide Refines, Now, Runs, IsCheck, IsPoll, Credentials.IsDigest, ExtractBearerToken, PollOf;
      ghost var start := redis.Look();
      var failure: Failure, name: Option<string>;
      name, failure, check := RequireAuth(header);
      user := name;
      poll := [];
      assert check + [] == check;
      if name.None? {
        return Failed(failure), user, check, poll;
      }
      ghost var checked := redis.Look();
      StillAlone(start, checked, check);
      response, poll := PollBody(id);
      RunsInTurn(start, checked, redis.Look(), check, poll);
    }

    method PollBody(id: string) returns (response: Response, ghost poll: seq<Exchange>)
      requires Valid()
      modifies redis, redis.server
      ensures Valid() && Runs(old(redis.Look()), redis.Look(), poll)
      ensures IsPoll(id, poll) && response == PollResponse(id, poll)
      ensures old(redis.Look()).Alone() ==>
        response == PollOf(Now(old(redis.Look())), id) && Now(redis.Look()) == Now(old(redis.Look()))
    {
      hide Refines, Now, Runs, Credentials.IsDigest, PollOf;
      ghost var start := redis.Look();
      var result, first := redis.GetResult(id);
      poll := [first];
      if result.Some? {
        PollWhenAlone(start, start, redis.Look(), id, poll);
        return ShowResult(result.value), poll;
      }
      ghost var between := redis.Look();
      var status, second := redis.GetStatus(id);
      RunsInTurn(start, between, redis.Look(), [first], [second]);
      poll := [first, second];
      assert [first] + [second] == poll;
      PollWhenAlone(start, between, redis.Look(), id, poll);
      response := if status.Some? then ShowStatus(id, status.value) else Failed(NoSuchSubmission);
    }

    /** GET /auth/submissions: one line for each listed id, in order. */
    method UserSubmissions(header: Option<string>)
      returns (response: Response, ghost user: Option<string>, ghost check: seq<Exchange>, ghost listing: seq<Exchange>,
               ghost polls: seq<seq<Exchange>>)
      requires Valid()
      modifies redis, redis.server
      ensures Valid() && Runs(old(redis.Look()), redis.Look(), check + listing) && IsCheck(header, user, check)
      ensures user.None? ==> listing == [] && response == Failed(if header.None? then AuthRequired else BadToken)
      ensures user.Some? ==> IsListing(user.value, response, listing, polls)
      ensures old(redis.Look()).Alone() && header.Some? ==>
        user == Credentials.Validate(Now(old(redis.Look())), ExtractBearerToken(header.value))
      ensures old(redis.Look()).Alone() && user.Some? ==>
        var w := Now(old(redis.Look()));
        response == ShowList(LinesOf(w, Slice(HistoryOf(w.store, user.value), 0, HISTORY_PAGE - 1)))
    {
      hide Refines, Now, Runs, IsCheck, IsListing, Credentials.IsDigest, ExtractBearerToken, Slice;
      ghost var start := redis.Look();
      var failure: Failure, name: Option<string>;
      name, failure, check := RequireAuth(header);
      user := name;
      listing, polls := [], [];
      assert check + [] == check;
      if name.None? {
        return Failed(failure), user, check, listing, polls;
      }
      ghost var checked := redis.Look();
      StillAlone(start, checked, check);
      response, listing, polls := ListBody(name.value);
      RunsInTurn(start, checked, redis.Look(), check, listing);
    }

    method ListBody(user: string)
      returns (response: Response, ghost listing: seq<Exchange>, ghost polls: seq<seq<Exchange>>)
      requires Valid()
      modifies redis, redis.server
      ensures Valid() && Runs(old(redis.Look()), redis.Look(), listing) && IsListing(user, response, listing, polls)
      ensures old(redis.Look()).Alone() ==>
        var w := Now(old(redis.Look()));
        response == ShowList(LinesOf(w, Slice(HistoryOf(w.store, user), 0, HISTORY_PAGE - 1)))
    {
      hide Refines, Now, Runs, IsPoll, Credentials.IsDigest, Slice, PollOf, PollResponse, ArePolls, LinesFrom, LinesOf, Joined;
      ghost var start := redis.Look();
      ghost var w := Now(start);
      var ids, range := auth.GetUserSubmissions(user, HISTORY_PAGE);
      RangeAlone(start, redis.Look(), user, range);
      var entries: seq<Entry> := [];
      polls := [];
      NoLines(w);
      assert [range] + Joined(polls) == [range];
      for i := 0 to |ids|
        invariant Valid() && ArePolls(ids[..i], polls) && entries == LinesFrom(ids[..i], polls)
        invariant Runs(start, redis.Look(), [range] + Joined(polls))
        invariant start.Alone() ==> redis.Look().Alone() && Now(redis.Look()) == w && entries == LinesOf(w, ids[..i])
      {
        ghost var before, past := redis.Look(), polls;
        var shown, poll := PollBody(ids[i]);
        NextLine(w, ids, i, past, poll, entries);
        entries := entries + [LineOf(shown, ids[i])];
        polls := past + [poll];
        RunsInTurn(start, before, redis.Look(), [range] + Joined(past), poll);
        assert [range] + Joined(polls) == [range] + Joined(past) + poll;
        StillAlone(start, redis.Look(), [range] + Joined(polls));
      }
      assert ids[..|ids|] == ids;
      listing := [range] + Joined(polls);
      response := ShowList(entries);
    }
  }
}
