/** Shutdown and progress of the worker pool (worker/src/worker.cpp, start, stop, join, worker_loop). */
module ProtocolLiveness {
  import opened Protocol
  import opened ProtocolInvariant
  import opened ProtocolQueue
  import opened ProtocolVerdicts
  import opened Sequences
  import opened Store
  import opened Verdicts
  import Evaluator

  /** Steps of worker threads. */
  predicate IsWorkerAction(a: Action) {
    a.Connect? || a.Check? || a.TryPop? || a.JudgeStep? || a.Evaluate?
  }

  function NextPc(s: State, a: Action): WorkerPc
    requires Enabled(s, a) && IsWorkerAction(a)
  {
    var pc := s.workers[a.w];
    match a
    case Connect(_, ok) => if ok then Checking else if s.running then Connecting else Exited
    case Check(_) => if s.running then Popping else Exited
    case TryPop(_) =>
      if s.store.queue == [] then Checking else Starting(s.store.queue[|s.store.queue| - 1], 0)
    case Evaluate(_, env) => Reporting(pc.job, Evaluator.Evaluated(pc.job, env), 0)
    case _ => if pc.Starting? then NextStart(pc) else NextReport(pc)
  }

  function NextReport(pc: WorkerPc): WorkerPc {
    match pc
    case Reporting(job, result, at) => if at == 0 then Reporting(job, result, 1) else Checking
    case _ => Checking
  }

  /** What a worker's step does to the pool, the queue and the record of pops. */
  lemma WorkerEffect(s: State, a: Action)
    requires Inv(s) && Enabled(s, a) && IsWorkerAction(a)
    ensures var s' := Take(s, a);
            && s'.workers == s.workers[a.w := NextPc(s, a)]
            && s'.running == s.running && s'.started == s.started && s'.handlers == s.handlers
            && s'.store.queue == (if a.TryPop? && s.store.queue != [] then s.store.queue[..|s.store.queue| - 1]
                                  else s.store.queue)
            && s'.popped == (if a.TryPop? && s.store.queue != []
                             then s.popped + [Pop(a.w, s.store.queue[|s.store.queue| - 1])] else s.popped)
  {
    hide JudgeDoes, PopDoes, LedgerOk, KeysOk, Known, HandlerDoes;
    match a {
      case TryPop(w) =>
        PopShape(s, w);
        if s.store.queue != [] {
          QueueHeadKnown(s);
        }
      case JudgeStep(w) =>
        HeldInLedger(s, w);
        if s.workers[w].Starting? {
          StartShape(s, w);
        } else if s.workers[w].at == 0 {
          RuleShape(s, w);
        } else {
          SettleShape(s, w);
        }
      case _ =>
    }
  }

  lemma QueueHeadKnown(s: State)
    requires QueueOk(s.store.queue, s.ledger) && s.store.queue != []
    ensures s.store.queue[|s.store.queue| - 1].submissionId in s.ledger
  {
    assert Known(s.ledger, s.store.queue[|s.store.queue| - 1], Queued);
  }

  lemma HeldInLedger(s: State, w: nat)
    requires WorkersOk(s.workers, s.ledger) && w < |s.workers| && JobOf(s.workers[w]).Some?
    ensures JobOf(s.workers[w]).value.submissionId in s.ledger
  {
    assert WorkerOk(w, s.workers[w], s.ledger);
  }

  /** No other step touches the pool or the pops, and only an enqueue lengthens the queue. */
  lemma OtherEffect(s: State, a: Action)
    requires Inv(s) && Enabled(s, a) && !IsWorkerAction(a) && s.started
    ensures var s' := Take(s, a);
            && s'.workers == s.workers && s'.popped == s.popped && s'.started
            && s'.running == (s.running && !a.StopPool?)
            && (!Enqueues(s, a) ==> s'.store.queue == s.store.queue)
  {
    hide HandlerDoes, LedgerOk, KeysOk, NextRead;
    if a.HandlerStep? {
      var h := a.h;
      assert HandlerOk(h, s.handlers[h], s.ledger);
      if s.handlers[h].at == 0 {
        EnqueuedShape(s, h);
      } else if s.handlers[h].at == 1 {
        PendingShape(s, h);
      } else {
        AfterPendingShape(s, h);
      }
    }
  }

  predicate Enqueues(s: State, a: Action) {
    a.HandlerStep? && a.h < |s.handlers| && s.handlers[a.h].at == 0
  }

  // ----- Shutdown -----

  /** How many steps a thread can still take once the flag is cleared. */
  function StepsLeft(pc: WorkerPc): nat {
    match pc
    case Exited => 0
    case Checking => 1
    case Connecting => 2
    case Reporting(_, _, at) => if at == 0 then 3 else 2
    case Evaluating(_) => 4
    case Starting(_, at) => if at == 0 then 6 else 5
    case Popping => 7
  }

  function Total(workers: seq<WorkerPc>, measure: WorkerPc -> nat): nat {
    if workers == [] then 0 else Total(workers[..|workers| - 1], measure) + measure(workers[|workers| - 1])
  }

  lemma {:induction false} TotalUpdate(workers: seq<WorkerPc>, w: nat, pc: WorkerPc, measure: WorkerPc -> nat)
    requires w < |workers|
    ensures Total(workers[w := pc], measure) + measure(workers[w]) == Total(workers, measure) + measure(pc)
  {
    var n := |workers| - 1;
    if w == n {
      assert workers[w := pc][..n] == workers[..n];
    } else {
      assert workers[w := pc][..n] == workers[..n][w := pc];
      TotalUpdate(workers[..n], w, pc, measure);
    }
  }

  lemma {:induction false} TotalZero(workers: seq<WorkerPc>, measure: WorkerPc -> nat)
    requires Total(workers, measure) == 0
    ensures forall pc <- workers :: measure(pc) == 0
  {
    if workers != [] {
      TotalZero(workers[..|workers| - 1], measure);
      assert workers == workers[..|workers| - 1] + [workers[|workers| - 1]];
    }
  }

  lemma {:induction false} TotalPositive(workers: seq<WorkerPc>, measure: WorkerPc -> nat) returns (w: nat)
    requires Total(workers, measure) > 0
    ensures w < |workers| && measure(workers[w]) > 0
  {
    if measure(workers[|workers| - 1]) > 0 {
      w := |workers| - 1;
    } else {
      w := TotalPositive(workers[..|workers| - 1], measure);
    }
  }

  function AllStepsLeft(workers: seq<WorkerPc>): nat {
    Total(workers, StepsLeft)
  }

  function PopsBy(popped: seq<Pop>, w: nat): nat {
    if popped == [] then 0
    else PopsBy(popped[..|popped| - 1], w) + if popped[|popped| - 1].worker == w then 1 else 0
  }

  lemma PopsByAppend(popped: seq<Pop>, p: Pop, w: nat)
    ensures PopsBy(popped + [p], w) == PopsBy(popped, w) + if p.worker == w then 1 else 0
  {
    assert (popped + [p])[..|popped|] == popped;
  }

  /** Whether the thread has passed its test of the flag and may still pop. */
  function MayPop(workers: seq<WorkerPc>, w: nat): nat {
    if w < |workers| && workers[w] == Popping then 1 else 0
  }

  function WorkerSteps(actions: seq<Action>): nat {
    if actions == [] then 0 else (if IsWorkerAction(actions[0]) then 1 else 0) + WorkerSteps(actions[1..])
  }

  lemma ShutdownStep(s: State, a: Action, w: nat)
    requires Inv(s) && Enabled(s, a) && s.started && !s.running
    ensures var s' := Take(s, a);
            && s'.started && !s'.running && |s'.workers| == |s.workers|
            && AllStepsLeft(s'.workers) + (if IsWorkerAction(a) then 1 else 0) <= AllStepsLeft(s.workers)
            && PopsBy(s'.popped, w) + MayPop(s'.workers, w) <= PopsBy(s.popped, w) + MayPop(s.workers, w)
  {
    hide Inv, Take;
    if IsWorkerAction(a) {
      WorkerEffect(s, a);
      TotalUpdate(s.workers, a.w, NextPc(s, a), StepsLeft);
      if a.TryPop? && s.store.queue != [] {
        PopsByAppend(s.popped, Pop(a.w, s.store.queue[|s.store.queue| - 1]), w);
      }
    } else {
      OtherEffect(s, a);
    }
  }

  /** After stop(), whatever else goes on, the threads take at most AllStepsLeft more steps between them,
      and each thread pops at most one more job, and only if it had already passed its test of the flag. */
  lemma {:induction false} ShutdownIsBounded(s: State, actions: seq<Action>, w: nat)
    requires Inv(s) && IsRun(s, actions) && s.started && !s.running
    ensures var s' := After(s, actions);
            && AllStepsLeft(s'.workers) + WorkerSteps(actions) <= AllStepsLeft(s.workers)
            && PopsBy(s'.popped, w) + MayPop(s'.workers, w) <= PopsBy(s.popped, w) + MayPop(s.workers, w)
            && |s'.workers| == |s.workers| && !s'.running
    decreases |actions|
  {
    hide Inv, Take, Enabled, AllStepsLeft, PopsBy, MayPop, IsWorkerAction;
    if actions != [] {
      ShutdownStep(s, actions[0], w);
      StepKeeps(s, actions[0]);
      ShutdownIsBounded(Take(s, actions[0]), actions[1..], w);
    }
  }

  /** Some environment in which evaluation returns. */
  const FAILED_COMPILE := Evaluator.Environment(None, Evaluator.CompileOutcome(false, ""), [], [])

  /** No thread is ever stuck: one that has not exited has a step. */
  lemma NoThreadIsStuck(s: State, w: nat)
    requires Reachable(s) && w < |s.workers| && s.workers[w] != Exited
    ensures exists a :: Enabled(s, a) && IsWorkerAction(a) && a.w == w
  {
    hide LedgerOk, KeysOk;
    ReachableInv(s);
    assert WorkerOk(w, s.workers[w], s.ledger);
    var a := NextAction(w, s.workers[w]);
    assert Enabled(s, a) && IsWorkerAction(a) && a.w == w;
  }

  function NextAction(w: nat, pc: WorkerPc): Action {
    match pc
    case Connecting => Connect(w, true)
    case Checking => Check(w)
    case Popping => TryPop(w)
    case Evaluating(_) => Evaluate(w, FAILED_COMPILE)
    case _ => JudgeStep(w)
  }

  lemma {:induction false} PoolStays(s: State, actions: seq<Action>)
    requires Inv(s) && s.started && IsRun(s, actions)
    ensures After(s, actions).started && |After(s, actions).workers| == |s.workers|
    ensures !s.running ==> !After(s, actions).running
    decreases |actions|
  {
    hide Inv, Take;
    if actions != [] {
      var a := actions[0];
      StepKeeps(s, a);
      if IsWorkerAction(a) {
        WorkerEffect(s, a);
      } else {
        OtherEffect(s, a);
      }
      PoolStays(Take(s, a), actions[1..]);
    }
  }

  /** start() gives the pool one thread per worker, still to connect and with the flag set, and no more ever;
      and once stop() has cleared the flag it stays so. */
  lemma StartAndStop(s: State, count: nat, actions: seq<Action>, stopped: seq<Action>)
    requires Reachable(s) && !s.started && IsRun(Take(s, StartPool(count)), actions)
    requires var s' := After(Take(s, StartPool(count)), actions); IsRun(Take(s', StopPool), stopped)
    ensures var first := Take(s, StartPool(count));
            first.running && |first.workers| == count && forall pc <- first.workers :: pc == Connecting
    ensures var s' := After(Take(s, StartPool(count)), actions);
            s'.started && |s'.workers| == count &&
            !After(Take(s', StopPool), stopped).running && |After(Take(s', StopPool), stopped).workers| == count
  {
    hide Inv, Reachable, IsRun, After;
    ReachableInv(s);
    StepKeeps(s, StartPool(count));
    var first := Take(s, StartPool(count));
    PoolStays(first, actions);
    RunKeeps(first, actions);
    StepKeeps(After(first, actions), StopPool);
    PoolStays(Take(After(first, actions), StopPool), stopped);
  }

  predicate AllExited(s: State) {
    forall pc <- s.workers :: pc == Exited
  }

  lemma NothingLeft(workers: seq<WorkerPc>)
    requires AllStepsLeft(workers) == 0
    ensures forall pc <- workers :: pc == Exited
  {
    TotalZero(workers, StepsLeft);
  }

  /** No thread can take a step. */
  ghost predicate Halted(s: State) {
    forall a :: Enabled(s, a) ==> !IsWorkerAction(a)
  }

  /** Shutdown completes.  From every reachable state after stop(): a run that leaves no thread a step leaves
      all threads exited, so that join() returns; so does every run with enough worker steps, whatever else
      happens in it; and there is such a run, of worker steps alone. */
  lemma ShutdownCompletes(s: State)
    requires Reachable(s) && s.started && !s.running
    ensures forall actions :: IsRun(s, actions) && Halted(After(s, actions)) ==> AllExited(After(s, actions))
    ensures forall actions :: IsRun(s, actions) && WorkerSteps(actions) >= AllStepsLeft(s.workers) ==>
              AllExited(After(s, actions))
    ensures exists actions :: OnlyWorkers(actions) && IsRun(s, actions) && AllExited(After(s, actions))
  {
    hide Inv, Reachable, Halted, AllExited, AllStepsLeft, Take, Enabled, IsWorkerAction;
    ReachableInv(s);
    forall actions | IsRun(s, actions) && Halted(After(s, actions)) ensures AllExited(After(s, actions)) {
      ReachableRun(s, actions);
      HaltedHasExited(After(s, actions));
    }
    forall actions | IsRun(s, actions) && WorkerSteps(actions) >= AllStepsLeft(s.workers)
      ensures AllExited(After(s, actions))
    {
      ShutdownIsBounded(s, actions, 0);
      ExitedAtZero(After(s, actions));
    }
    WorkersCanExit(s);
  }

  lemma HaltedHasExited(s: State)
    requires Reachable(s) && Halted(s)
    ensures AllExited(s)
  {
    hide Reachable, Enabled;
    forall w | 0 <= w < |s.workers| ensures s.workers[w] == Exited {
      if s.workers[w] != Exited {
        NoThreadIsStuck(s, w);
      }
    }
  }

  lemma ExitedAtZero(s: State)
    requires AllStepsLeft(s.workers) == 0
    ensures AllExited(s)
  {
    NothingLeft(s.workers);
  }

  lemma {:induction false} WorkersCanExit(s: State)
    requires Reachable(s) && s.started && !s.running
    ensures exists actions :: OnlyWorkers(actions) && IsRun(s, actions) && AllExited(After(s, actions))
    decreases AllStepsLeft(s.workers)
  {
    hide Inv, Reachable, AllStepsLeft, Take, Enabled, PopsBy, MayPop;
    if AllExited(s) {
      assert OnlyWorkers([]) && IsRun(s, []) && After(s, []) == s;
    } else {
      var w :| 0 <= w < |s.workers| && s.workers[w] != Exited;
      NoThreadIsStuck(s, w);
      var a :| Enabled(s, a) && IsWorkerAction(a) && a.w == w;
      ReachableInv(s);
      ShutdownStep(s, a, w);
      ReachableStep(s, a);
      WorkersCanExit(Take(s, a));
      var rest :| OnlyWorkers(rest) && IsRun(Take(s, a), rest) && AllExited(After(Take(s, a), rest));
      assert ([a] + rest)[1..] == rest && IsRun(s, [a] + rest) && OnlyWorkers([a] + rest);
    }
  }

  /** When every thread has exited and join() returns: no job is in anybody's hands, every job that was
      popped is finished and has its result stored, and the jobs that were not popped are still queued, in
      order. */
  lemma JoinedPool(s: State)
    requires Reachable(s) && AllExited(s)
    ensures forall k :: 0 <= k < |s.popped| ==> s.popped[k].job in s.finished && HasResult(s, s.popped[k].job)
    ensures |s.popped| <= |s.pushed| && Reverse(s.store.queue) == s.pushed[|s.popped|..]
    ensures forall job: SubmissionJob :: HeldBy(s.workers, job) == 0
  {
    hide Inv;
    FirstInFirstOut(s);
    forall job: SubmissionJob ensures HeldBy(s.workers, job) == 0 {
      HeldByIdle(s.workers, job);
    }
    forall k | 0 <= k < |s.popped| ensures s.popped[k].job in s.finished && HasResult(s, s.popped[k].job) {
      PoppedNotQueued(s, k);
      FinishedHasResult(s, s.popped[k].job);
    }
  }

  predicate HasResult(s: State, job: SubmissionJob) {
    var id := job.submissionId;
    && id in s.store.results && s.store.results[id].value.submissionId == id
    && Terminal(s.store.results[id].value.verdict)
  }

  /** A popped job is in hand or finished. */
  lemma PoppedNotQueued(s: State, k: nat)
    requires Reachable(s) && k < |s.popped|
    ensures HeldBy(s.workers, s.popped[k].job) == 0 ==> s.popped[k].job in s.finished
  {
    hide LedgerOk, KeysOk;
    FirstInFirstOut(s);
    ReachableInv(s);
    var job := s.popped[k].job;
    ExactlyOnce(s, job);
    ReverseHas(s.store.queue, job);
    assert job == s.pushed[k];
    assert job !in s.pushed[|s.popped|..] by {
      assert forall j :: |s.popped| <= j < |s.pushed| ==> s.pushed[j].submissionId != s.pushed[k].submissionId;
    }
  }

  lemma FinishedHasResult(s: State, job: SubmissionJob)
    requires Reachable(s)
    ensures job in s.finished ==> HasResult(s, job)
    ensures job in s.finished ==> job.submissionId in s.ledger && s.ledger[job.submissionId].ruling.Some?
  {
    hide LedgerOk, KeysOk;
    ReachableInv(s);
    if job in s.finished {
      var k :| 0 <= k < |s.finished| && s.finished[k] == job;
      assert Known(s.ledger, s.finished[k], Settled);
      StatusWritesInOrder(s, job.submissionId);
      KeyOfRuling(s, job.submissionId);
    }
  }

  // ----- Progress -----

  /** Work that remains on a job in hand. */
  function WorkLeft(pc: WorkerPc): nat {
    match pc
    case Starting(_, at) => if at == 0 then 5 else 4
    case Evaluating(_) => 3
    case Reporting(_, _, at) => if at == 0 then 2 else 1
    case _ => 0
  }

  function AllWorkLeft(workers: seq<WorkerPc>): nat {
    Total(workers, WorkLeft)
  }

  function Work(s: State): nat {
    6 * |s.store.queue| + AllWorkLeft(s.workers)
  }

  /** A worker's step that is neither connecting, testing the flag nor an empty pop. */
  predicate IsWork(s: State, a: Action) {
    a.JudgeStep? || a.Evaluate? || (a.TryPop? && s.store.queue != [])
  }

  function WorkDone(s: State, actions: seq<Action>): nat
    requires IsRun(s, actions)
    decreases |actions|
  {
    if actions == [] then 0
    else (if IsWork(s, actions[0]) then 1 else 0) + WorkDone(Take(s, actions[0]), actions[1..])
  }

  /** No handler enqueues during the run. */
  predicate NoEnqueues(s: State, actions: seq<Action>)
    requires IsRun(s, actions)
    decreases |actions|
  {
    actions == [] || (!Enqueues(s, actions[0]) && NoEnqueues(Take(s, actions[0]), actions[1..]))
  }

  lemma WorkStep(s: State, a: Action)
    requires Inv(s) && Enabled(s, a) && s.started && !Enqueues(s, a)
    ensures Take(s, a).started && Work(Take(s, a)) + (if IsWork(s, a) then 1 else 0) <= Work(s)
  {
    hide Inv, Take;
    if IsWorkerAction(a) {
      WorkerEffect(s, a);
      TotalUpdate(s.workers, a.w, NextPc(s, a), WorkLeft);
    } else {
      OtherEffect(s, a);
    }
  }

  /** With no new submits, the pool does at most Work(s) working steps however the run goes on; idle
      polling of the queue never adds work. */
  lemma {:induction false} WorkRunsOut(s: State, actions: seq<Action>)
    requires Inv(s) && s.started && IsRun(s, actions) && NoEnqueues(s, actions)
    ensures WorkDone(s, actions) + Work(After(s, actions)) <= Work(s)
    decreases |actions|
  {
    hide Inv, Take, Enabled, Work, IsWork, Enqueues;
    if actions != [] {
      WorkStep(s, actions[0]);
      StepKeeps(s, actions[0]);
      WorkRunsOut(Take(s, actions[0]), actions[1..]);
    }
  }

  lemma NoWorkLeft(workers: seq<WorkerPc>, job: SubmissionJob)
    requires AllWorkLeft(workers) == 0 && forall pc <- workers :: PcOk(pc)
    ensures HeldBy(workers, job) == 0
  {
    TotalZero(workers, WorkLeft);
    HeldByIdle(workers, job);
  }

  /** Once the work has run out, every accepted job has a stored terminal result, and a reader that reads
      its result key before that expires shows its verdict. */
  lemma ExhaustedMeansJudged(s: State, k: nat, rd: Reader)
    requires Reachable(s) && Work(s) == 0 && k < |s.pushed|
    requires rd.phase.ReadingResult? && rd.todo != [] && rd.todo[0] == s.pushed[k].submissionId
    ensures s.pushed[k] in s.finished && HasResult(s, s.pushed[k])
    ensures var result := s.store.results[s.pushed[k].submissionId];
            s.now < result.deadline ==>
              NextRead(rd, s.store, s.now) == Showing(rd, s.now, Some(result.value.verdict))
  {
    hide LedgerOk, KeysOk, Showing;
    ReachableInv(s);
    var job := s.pushed[k];
    ExactlyOnce(s, job);
    assert forall w :: 0 <= w < |s.workers| ==> WorkerOk(w, s.workers[w], s.ledger);
    NoWorkLeft(s.workers, job);
    FinishedHasResult(s, job);
  }

  /** While the flag is set no thread has exited. */
  predicate AllAlive(s: State) {
    s.running ==> forall w :: 0 <= w < |s.workers| ==> s.workers[w] != Exited
  }

  lemma StepKeepsAlive(s: State, a: Action)
    requires Inv(s) && AllAlive(s) && Enabled(s, a)
    ensures AllAlive(Take(s, a))
  {
    hide Inv, Take;
    if IsWorkerAction(a) {
      WorkerEffect(s, a);
    } else if s.started {
      OtherEffect(s, a);
    } else {
      BeforeStart(s, a);
    }
  }

  lemma BeforeStart(s: State, a: Action)
    requires Inv(s) && !s.started && Enabled(s, a)
    ensures AllAlive(Take(s, a))
  {
    hide HandlerDoes, LedgerOk, KeysOk, NextRead;
    if a.HandlerStep? {
      var h := a.h;
      assert HandlerOk(h, s.handlers[h], s.ledger);
      if s.handlers[h].at == 0 {
        EnqueuedShape(s, h);
      } else if s.handlers[h].at == 1 {
        PendingShape(s, h);
      } else {
        AfterPendingShape(s, h);
      }
    }
  }

  lemma {:induction false} RunKeepsAlive(s: State, actions: seq<Action>)
    requires Inv(s) && AllAlive(s) && IsRun(s, actions)
    ensures AllAlive(After(s, actions))
    decreases |actions|
  {
    hide Inv, Take, Enabled, AllAlive;
    if actions != [] {
      StepKeepsAlive(s, actions[0]);
      StepKeeps(s, actions[0]);
      RunKeepsAlive(Take(s, actions[0]), actions[1..]);
    }
  }

  lemma ReachableAlive(s: State)
    requires Reachable(s)
    ensures AllAlive(s)
  {
    hide Inv;
    InitialInv();
    var actions :| IsRun(INITIAL, actions) && s == After(INITIAL, actions);
    RunKeepsAlive(INITIAL, actions);
  }

  lemma RunCons(s: State, a: Action, rest: seq<Action>)
    requires Enabled(s, a) && !Enqueues(s, a) && IsRun(Take(s, a), rest) && NoEnqueues(Take(s, a), rest)
    ensures IsRun(s, [a] + rest) && NoEnqueues(s, [a] + rest)
    ensures WorkDone(s, [a] + rest) == (if IsWork(s, a) then 1 else 0) + WorkDone(Take(s, a), rest)
  {
    hide Take, Enabled, Enqueues, IsWork;
    assert ([a] + rest)[1..] == rest;
  }

  lemma OneWorkStep(s: State, a: Action)
    requires Enabled(s, a) && IsWork(s, a)
    ensures IsRun(s, [a]) && NoEnqueues(s, [a]) && WorkDone(s, [a]) >= 1
  {
    hide Take;
    RunCons(s, a, []);
    assert [a] + [] == [a];
  }

  /** A thread that is not working reaches the queue on its own in at most three steps. */
  lemma ReachesQueue(s: State, w: nat) returns (actions: seq<Action>)
    requires s.running && s.store.queue != [] && w < |s.workers|
    requires s.workers[w] == Connecting || s.workers[w] == Checking || s.workers[w] == Popping
    ensures |actions| <= if s.workers[w] == Connecting then 3 else if s.workers[w] == Checking then 2 else 1
    ensures IsRun(s, actions) && NoEnqueues(s, actions) && WorkDone(s, actions) >= 1
    ensures forall a <- actions :: IsWorkerAction(a) && a.w == w
    decreases if s.workers[w] == Connecting then 2 else if s.workers[w] == Checking then 1 else 0
  {
    hide PopDoes, WorkDone, IsRun, NoEnqueues;
    if s.workers[w] == Popping {
      OneWorkStep(s, TryPop(w));
      actions := [TryPop(w)];
    } else {
      var a := if s.workers[w] == Checking then Check(w) else Connect(w, true);
      var rest := ReachesQueue(Take(s, a), w);
      RunCons(s, a, rest);
      actions := [a] + rest;
    }
  }

  predicate OnlyWorkers(actions: seq<Action>) {
    forall a <- actions :: IsWorkerAction(a)
  }

  /** While the pool runs and work is left, one worker can always bring it down on its own, in at most
      three steps. */
  lemma ProgressIsPossible(s: State)
    requires Reachable(s) && s.running && s.workers != [] && Work(s) > 0
    ensures exists actions :: |actions| <= 3 && OnlyWorkers(actions) && IsRun(s, actions) && Work(After(s, actions)) < Work(s)
  {
    hide LedgerOk, KeysOk, Take;
    ReachableInv(s);
    ReachableAlive(s);
    var actions: seq<Action>;
    if AllWorkLeft(s.workers) > 0 {
      var w := TotalPositive(s.workers, WorkLeft);
      assert WorkerOk(w, s.workers[w], s.ledger);
      var a := NextAction(w, s.workers[w]);
      OneWorkStep(s, a);
      actions := [a];
    } else {
      TotalZero(s.workers, WorkLeft);
      assert s.workers[0] in s.workers;
      actions := ReachesQueue(s, 0);
    }
    WorkRunsOut(s, actions);
  }

  lemma {:induction false} RunAppend(s: State, p: seq<Action>, q: seq<Action>)
    requires IsRun(s, p) && IsRun(After(s, p), q)
    ensures IsRun(s, p + q) && After(s, p + q) == After(After(s, p), q)
    decreases |p|
  {
    hide Take, Enabled;
    if p == [] {
      assert p + q == q;
    } else {
      RunAppend(Take(s, p[0]), p[1..], q);
      assert (p + q)[1..] == p[1..] + q;
    }
  }

  lemma ReachableRun(s: State, actions: seq<Action>)
    requires Reachable(s) && IsRun(s, actions)
    ensures Reachable(After(s, actions))
  {
    hide Take, Enabled, IsRun, After;
    var before :| IsRun(INITIAL, before) && s == After(INITIAL, before);
    RunAppend(INITIAL, before, actions);
  }

  /** Workers neither clear the flag nor change their number. */
  lemma {:induction false} WorkersKeepPool(s: State, actions: seq<Action>)
    requires Inv(s) && IsRun(s, actions) && OnlyWorkers(actions)
    ensures After(s, actions).running == s.running && |After(s, actions).workers| == |s.workers|
    decreases |actions|
  {
    hide Inv, Take, NextPc;
    if actions != [] {
      assert IsWorkerAction(actions[0]);
      StepKeeps(s, actions[0]);
      WorkerEffect(s, actions[0]);
      WorkersKeepPool(Take(s, actions[0]), actions[1..]);
    }
  }

  /** From every reachable state in which the pool runs, steps of the workers alone can exhaust the work, so
      that every accepted job has been judged. */
  lemma {:induction false} WorkersCanFinish(s: State)
    requires Reachable(s) && s.running && s.workers != []
    ensures exists actions :: OnlyWorkers(actions) && IsRun(s, actions) && Work(After(s, actions)) == 0
    decreases Work(s)
  {
    hide Reachable, Inv, Work, IsWorkerAction, Take, Enabled;
    if Work(s) == 0 {
      assert OnlyWorkers([]) && IsRun(s, []) && After(s, []) == s;
    } else {
      ProgressIsPossible(s);
      var first :| |first| <= 3 && OnlyWorkers(first) && IsRun(s, first) && Work(After(s, first)) < Work(s);
      ReachableInv(s);
      WorkersKeepPool(s, first);
      ReachableRun(s, first);
      WorkersCanFinish(After(s, first));
      var rest :| OnlyWorkers(rest) && IsRun(After(s, first), rest) && Work(After(After(s, first), rest)) == 0;
      RunAppend(s, first, rest);
      assert OnlyWorkers(first + rest);
    }
  }

  // ----- A schedule that ends with PENDING -----

  lemma ReachableStep(s: State, a: Action)
    requires Reachable(s) && Enabled(s, a)
    ensures Reachable(Take(s, a))
  {
    hide Take, Enabled;
    assert IsRun(s, [a]) && After(s, [a]) == Take(s, a) by {
      assert [a][1..] == [];
    }
    ReachableRun(s, [a]);
  }

  /** One handler, one worker, one job, at time 0. */
  predicate Scene(s: State, job: SubmissionJob, at: nat, pc: WorkerPc, queue: seq<SubmissionJob>, stage: Stage) {
    && s.now == 0 && s.started && s.running && |s.handlers| == 1 && s.handlers[0].job == job && s.handlers[0].at == at
    && s.workers == [pc] && s.store.queue == queue
    && job.submissionId in s.ledger && s.ledger[job.submissionId].handler == 0
    && s.ledger[job.submissionId].stage == stage
  }

  lemma SceneEnqueued(job: SubmissionJob) returns (s: State)
    ensures Reachable(s) && Scene(s, job, 1, Connecting, [job], Queued)
  {
    hide HandlerDoes, Reachable;
    InitialReachable();
    ReachableStep(INITIAL, BeginSubmit(job));
    var s1 := Take(INITIAL, BeginSubmit(job));
    ReachableStep(s1, StartPool(1));
    var s2 := Take(s1, StartPool(1));
    assert s2.workers == [Connecting];
    ReachableStep(s2, HandlerStep(0));
    EnqueuedShape(s2, 0);
    s := Take(s2, HandlerStep(0));
  }

  lemma InitialReachable()
    ensures Reachable(INITIAL)
  {
    assert IsRun(INITIAL, []) && INITIAL == After(INITIAL, []);
  }

  lemma ScenePopped(s0: State, job: SubmissionJob) returns (s: State)
    requires Reachable(s0) && Scene(s0, job, 1, Connecting, [job], Queued)
    ensures Reachable(s) && Scene(s, job, 1, Starting(job, 0), [], Held(0))
  {
    hide PopDoes, Reachable;
    ReachableStep(s0, Connect(0, true));
    var s1 := Take(s0, Connect(0, true));
    ReachableStep(s1, Check(0));
    var s2 := Take(s1, Check(0));
    assert s2.workers == [Popping];
    ReachableStep(s2, TryPop(0));
    PopShape(s2, 0);
    s := Take(s2, TryPop(0));
  }

  lemma SceneEvaluated(s0: State, job: SubmissionJob) returns (s: State, result: SubmissionResult)
    requires Reachable(s0) && Scene(s0, job, 1, Starting(job, 0), [], Held(0))
    ensures Reachable(s) && Scene(s, job, 1, Reporting(job, result, 0), [], Held(0))
  {
    hide JudgeDoes, Reachable, Evaluator.Evaluated;
    StartShape(s0, 0);
    ReachableStep(s0, JudgeStep(0));
    var s1 := Take(s0, JudgeStep(0));
    assert s1.workers == [Starting(job, 1)];
    StartShape(s1, 0);
    ReachableStep(s1, JudgeStep(0));
    var s2 := Take(s1, JudgeStep(0));
    assert s2.workers == [Evaluating(job)];
    ReachableStep(s2, Evaluate(0, FAILED_COMPILE));
    s := Take(s2, Evaluate(0, FAILED_COMPILE));
    result := Evaluator.Evaluated(job, FAILED_COMPILE);
  }

  lemma SceneSettled(s0: State, job: SubmissionJob, result: SubmissionResult) returns (s: State)
    requires Reachable(s0) && Scene(s0, job, 1, Reporting(job, result, 0), [], Held(0))
    ensures Reachable(s) && Scene(s, job, 1, Checking, [], Settled)
  {
    hide JudgeDoes, Reachable;
    RuleShape(s0, 0);
    ReachableStep(s0, JudgeStep(0));
    var s1 := Take(s0, JudgeStep(0));
    assert s1.workers == [Reporting(job, result, 1)];
    SettleShape(s1, 0);
    ReachableStep(s1, JudgeStep(0));
    s := Take(s1, JudgeStep(0));
  }

  /** The handler has enqueued its job, the worker does everything, and only then the handler goes on: the
      finished job's status key ends as PENDING, and its result key holds the verdict. */
  lemma StatusCanEndPending(job: SubmissionJob)
    ensures exists s :: Reachable(s) && EndsPending(s, job)
  {
    hide HandlerDoes, Reachable, Inv;
    var s1 := SceneEnqueued(job);
    var s2 := ScenePopped(s1, job);
    var s3, result := SceneEvaluated(s2, job);
    var s4 := SceneSettled(s3, job, result);
    LatePendingIsInvisible(s4, 0, job.submissionId);
    PendingShape(s4, 0);
    ReachableStep(s4, HandlerStep(0));
    var s := Take(s4, HandlerStep(0));
    SettledIsReadable(s, job.submissionId);
    assert EndsPending(s, job);
  }

  /** The job is finished; its status key says PENDING, its result key has a terminal verdict. */
  predicate EndsPending(s: State, job: SubmissionJob) {
    var id := job.submissionId;
    && id in s.ledger && s.ledger[id].job == job && s.ledger[id].stage == Settled
    && Live(s.store.statuses, id, s.now) == Some(Pending)
    && Live(s.store.results, id, s.now).Some? && Terminal(Live(s.store.results, id, s.now).value.verdict)
  }

  lemma SettledIsReadable(s: State, id: string)
    requires Reachable(s) && id in s.ledger && s.ledger[id].stage == Settled && s.now == 0
    requires |s.handlers| == 1 && s.handlers[0].job.submissionId == id
    ensures s.ledger[id].job == s.handlers[0].job
    ensures Live(s.store.results, id, s.now).Some? && Terminal(Live(s.store.results, id, s.now).value.verdict)
  {
    hide LedgerOk, KeysOk;
    ReachableInv(s);
    assert HandlerOk(0, s.handlers[0], s.ledger);
    StatusWritesInOrder(s, id);
    KeyOfRuling(s, id);
    ResultKeyIs(s, id);
  }
}
