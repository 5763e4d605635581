/** The judging protocol as a state machine: submit handlers (api/src/server.cpp), worker threads
    (worker/src/worker.cpp) and readers interleave over one store, one atomic command at a time.
    A run is a list of actions; every list whose actions are enabled is a possible interleaving. */
module Protocol {
  import opened Store
  import opened Verdicts
  import Evaluator

  /** Where a worker thread stands; the name says what it does next. */
  datatype WorkerPc =
    | Connecting
    | Checking
    | Popping
    | Starting(job: SubmissionJob, at: nat)
    | Evaluating(job: SubmissionJob)
    | Reporting(job: SubmissionJob, result: SubmissionResult, at: nat)
    | Exited

  /** A submit handler that has accepted its request; `at` counts the commands it has issued. */
  datatype Handler = Handler(job: SubmissionJob, at: nat, position: int)

  /** One reading of one submission: when its result key was read, and the verdict shown, if any. */
  datatype Shown = Shown(id: string, readAt: nat, verdict: Option<Verdict>)

  datatype Phase = Listing(user: string) | ReadingResult | ReadingStatus(readAt: nat)

  /** A reader shows the submissions in `todo` one by one, each with two separate reads. */
  datatype Reader = Reader(phase: Phase, todo: seq<string>, shown: seq<Shown>)

  datatype Writer = Api | Judge

  datatype Write = Write(writer: Writer, verdict: Verdict, at: nat)

  datatype Ruling = Ruling(result: SubmissionResult, at: nat)

  datatype Stage = Drafted | Queued | Held(worker: nat) | Settled

  /** History of one submission: its stage, the writes to its status key, the write of its result. */
  datatype Record = Record(job: SubmissionJob, handler: nat, stage: Stage, trail: seq<Write>, ruling: Option<Ruling>)

  datatype Pop = Pop(worker: nat, job: SubmissionJob)

  /** The last five fields are history variables: no step depends on them. */
  datatype State = State(
    store: Store, now: nat, started: bool, running: bool,
    workers: seq<WorkerPc>, handlers: seq<Handler>, readers: seq<Reader>,
    pushed: seq<SubmissionJob>, popped: seq<Pop>, finished: seq<SubmissionJob>,
    ledger: map<string, Record>, full: map<string, seq<string>>)

  const INITIAL := State(EMPTY, 0, false, false, [], [], [], [], [], [], map[], map[])

  datatype Action =
    | BeginSubmit(job: SubmissionJob)
    | HandlerStep(h: nat)
    | StartPool(count: nat)
    | StopPool
    | Connect(w: nat, ok: bool)
    | Check(w: nat)
    | TryPop(w: nat)
    | JudgeStep(w: nat)
    | Evaluate(w: nat, env: Evaluator.Environment)
    | BeginPoll(id: string)
    | BeginHistory(user: string)
    | ReaderStep(r: nat)
    | AuthTraffic(op: Op)
    | Elapse(seconds: nat)

  function JobOf(pc: WorkerPc): Option<SubmissionJob> {
    match pc
    case Starting(job, _) => Some(job)
    case Evaluating(job) => Some(job)
    case Reporting(job, _, _) => Some(job)
    case _ => None
  }

  /** The operations of registration, login and token checks. */
  predicate IsAuthOp(op: Op) {
    op.PutUser? || op.GetUser? || op.PutToken? || op.GetToken?
  }

  /** Submission ids are fresh: no handler has used the same one. */
  predicate Enabled(s: State, a: Action) {
    match a
    case BeginSubmit(job) => job.submissionId !in s.ledger
    case HandlerStep(h) => h < |s.handlers| && s.handlers[h].at < 5
    case StartPool(_) => !s.started
    case StopPool => true
    case Connect(w, _) => w < |s.workers| && s.workers[w] == Connecting
    case Check(w) => w < |s.workers| && s.workers[w] == Checking
    case TryPop(w) => w < |s.workers| && s.workers[w] == Popping
    case JudgeStep(w) =>
      w < |s.workers| && (s.workers[w].Starting? || s.workers[w].Reporting?) && s.workers[w].at < 2
    case Evaluate(w, env) => w < |s.workers| && s.workers[w].Evaluating? && |env.runs| == |env.cases|
    case BeginPoll(_) => true
    case BeginHistory(_) => true
    case ReaderStep(r) =>
      r < |s.readers| && (s.readers[r].phase.Listing? || s.readers[r].todo != [])
    case AuthTraffic(op) => IsAuthOp(op)
    case Elapse(_) => true
  }

  function Run(s: State, op: Op): State {
    s.(store := Perform(s.store, s.now, op))
  }

  function Goto(s: State, w: nat, pc: WorkerPc): State
    requires w < |s.workers|
  {
    s.(workers := s.workers[w := pc])
  }

  function WithRecord(s: State, id: string, r: Record): State {
    s.(ledger := s.ledger[id := r])
  }

  /** Notes a write to the status key. */
  function Noted(s: State, id: string, writer: Writer, verdict: Verdict): State {
    if id in s.ledger then WithRecord(s, id, Writing(s.ledger[id], Write(writer, verdict, s.now))) else s
  }

  function Staged(s: State, id: string, stage: Stage): State {
    if id in s.ledger then WithRecord(s, id, s.ledger[id].(stage := stage)) else s
  }

  function WithRuling(s: State, id: string, ruling: Ruling): State {
    if id in s.ledger then WithRecord(s, id, s.ledger[id].(ruling := Some(ruling))) else s
  }

  function Writing(r: Record, w: Write): Record {
    r.(trail := r.trail + [w])
  }

  /** start(): the flag is set and one thread per configured worker begins to connect. */
  function PoolStarted(s: State, count: nat): State {
    s.(started := true, running := true, workers := seq(count, _ => Connecting))
  }

  /** A handler accepts a request and drafts a job. */
  function Submitted(s: State, job: SubmissionJob): State {
    s.(handlers := s.handlers + [Handler(job, 0, 0)],
       ledger := s.ledger[job.submissionId := Record(job, |s.handlers|, Drafted, [], None)])
  }

  /** The handler runs the next command of its program. */
  function HandlerDoes(s: State, h: nat): State
    requires h < |s.handlers| && s.handlers[h].at < 5
  {
    var hd := s.handlers[h];
    var id, user := hd.job.submissionId, hd.job.username;
    var op := SubmitOps(hd.job)[hd.at];
    var reply := Answer(s.store, s.now, op);
    var s1 := Run(s, op).(handlers := s.handlers[h := hd.(at := hd.at + 1,
      position := if hd.at == 4 && reply.Length? then reply.n else hd.position)]);
    match hd.at
    case 0 => Staged(s1, id, Queued).(pushed := s.pushed + [hd.job])
    case 1 => Noted(s1, id, Api, Pending)
    case 2 => s1.(full := s.full[user := [id] + ListOf(s.full, user)])
    case _ => s1
  }

  /** BRPOP returns the oldest job, or nothing when the queue stays empty until the timeout. */
  function PopDoes(s: State, w: nat): State
    requires w < |s.workers|
  {
    var reply := Answer(s.store, s.now, DequeueJob);
    if reply.Job? && reply.job.Some? then
      var job := reply.job.value;
      Staged(Goto(Run(s, DequeueJob), w, Starting(job, 0)), job.submissionId, Held(w))
        .(popped := s.popped + [Pop(w, job)])
    else Goto(s, w, Checking)
  }

  /** The worker runs the next command of the program for its job. */
  function JudgeDoes(s: State, w: nat): State
    requires w < |s.workers| && (s.workers[w].Starting? || s.workers[w].Reporting?) && s.workers[w].at < 2
  {
    var pc := s.workers[w];
    var id := pc.job.submissionId;
    match pc
    case Starting(job, at) =>
      var op := StartOps(job)[at];
      var s1 := Goto(Run(s, op), w, if at == 0 then Starting(job, 1) else Evaluating(job));
      Noted(s1, id, Judge, op.verdict)
    case Reporting(job, result, at) =>
      var op := ReportOps(job, result)[at];
      if at == 0 then
        WithRuling(Goto(Run(s, op), w, Reporting(job, result, 1)), id, Ruling(result, s.now))
      else
        Staged(Noted(Goto(Run(s, op), w, Checking), id, Judge, op.verdict), id, Settled)
          .(finished := s.finished + [job])
  }

  /** The next read of a reader: the result key first, the status key only if that is absent. */
  function NextRead(rd: Reader, store: Store, now: nat): Reader
    requires rd.phase.Listing? || rd.todo != []
  {
    match rd.phase
    case Listing(user) =>
      var reply := Answer(store, now, RangeHistory(user, HISTORY_PAGE));
      rd.(phase := ReadingResult, todo := if reply.Ids? then reply.ids else [])
    case ReadingResult =>
      var reply := Answer(store, now, GetResult(rd.todo[0]));
      if reply.Result? && reply.result.Some?
      then Showing(rd, now, Some(reply.result.value.verdict))
      else rd.(phase := ReadingStatus(now))
    case ReadingStatus(readAt) =>
      var reply := Answer(store, now, GetStatus(rd.todo[0]));
      Showing(rd, readAt, if reply.Status? then reply.verdict else None)
  }

  function Showing(rd: Reader, readAt: nat, verdict: Option<Verdict>): Reader
    requires rd.todo != []
  {
    Reader(ReadingResult, rd.todo[1..], rd.shown + [Shown(rd.todo[0], readAt, verdict)])
  }

  function Take(s: State, a: Action): State
    requires Enabled(s, a)
  {
    match a
    case BeginSubmit(job) => Submitted(s, job)
    case HandlerStep(h) => HandlerDoes(s, h)
    case StartPool(count) => PoolStarted(s, count)
    case StopPool => s.(running := false)
    case Connect(w, ok) => if ok then Goto(s, w, Checking) else if !s.running then Goto(s, w, Exited) else s
    case Check(w) => Goto(s, w, if s.running then Popping else Exited)
    case TryPop(w) => PopDoes(s, w)
    case JudgeStep(w) => JudgeDoes(s, w)
    case Evaluate(w, env) =>
      Goto(s, w, Reporting(s.workers[w].job, Evaluator.Evaluated(s.workers[w].job, env), 0))
    case BeginPoll(id) => s.(readers := s.readers + [Reader(ReadingResult, [id], [])])
    case BeginHistory(user) => s.(readers := s.readers + [Reader(Listing(user), [], [])])
    case ReaderStep(r) => s.(readers := s.readers[r := NextRead(s.readers[r], s.store, s.now)])
    case AuthTraffic(op) => Run(s, op)
    case Elapse(seconds) => s.(now := s.now + seconds)
  }

  predicate IsRun(s: State, actions: seq<Action>)
    decreases |actions|
  {
    actions == [] || (Enabled(s, actions[0]) && IsRun(Take(s, actions[0]), actions[1..]))
  }

  function After(s: State, actions: seq<Action>): State
    requires IsRun(s, actions)
    decreases |actions|
  {
    if actions == [] then s else After(Take(s, actions[0]), actions[1..])
  }

  /** States that some interleaving reaches. */
  ghost predicate Reachable(s: State) {
    exists actions :: IsRun(INITIAL, actions) && s == After(INITIAL, actions)
  }

  function PoppedJobs(popped: seq<Pop>): (jobs: seq<SubmissionJob>)
    ensures |jobs| == |popped|
  {
    seq(|popped|, k requires 0 <= k < |popped| => popped[k].job)
  }

  /** How many workers have this job in their hands. */
  function HeldBy(workers: seq<WorkerPc>, job: SubmissionJob): nat {
    if workers == [] then 0
    else HeldBy(workers[..|workers| - 1], job) + if JobOf(workers[|workers| - 1]) == Some(job) then 1 else 0
  }

  /** The verdicts that one side has written, in order. */
  function WrittenBy(writer: Writer, trail: seq<Write>): seq<Verdict> {
    if trail == [] then []
    else
      var last := trail[|trail| - 1];
      WrittenBy(writer, trail[..|trail| - 1]) + if last.writer == writer then [last.verdict] else []
  }

  /** Handlers of a user that have pushed to the history but not yet trimmed it. */
  function PendingTrims(handlers: seq<Handler>, user: string): nat {
    if handlers == [] then 0
    else
      var last := handlers[|handlers| - 1];
      PendingTrims(handlers[..|handlers| - 1], user) + if last.at == 3 && last.job.username == user then 1 else 0
  }
}
