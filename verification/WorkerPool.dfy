/** The worker pool (worker/src/worker.cpp): its flag and threads, and the loop that each thread runs over its
    own Redis client. */
module WorkerPool {
  import opened Evaluator
  import opened Languages
  import opened RedisClient
  import opened Store
  import opened Verdicts
  import Sandbox

  /** What an evaluation meets outside the program. */
  datatype Outside = Outside(
    problem: Option<ProblemInfo>, compile: CompileOutcome, cases: seq<Case>, launches: seq<Sandbox.Launch>)

  type Surroundings = SubmissionJob -> Outside

  ghost predicate EvaluationsEnd(surroundings: Surroundings) {
    forall job: SubmissionJob :: Ends(surroundings(job))
  }

  /** Every test has its run, and every run comes to an end. */
  predicate Ends(o: Outside) {
    |o.launches| == |o.cases| && (o.problem.Some? ==> AllEnd(o.launches, LimitsOf(o.problem.value)))
  }

  function ResultOf(o: Outside, job: SubmissionJob): SubmissionResult
    requires Ends(o)
  {
    Evaluated(job, SeenAs(o.problem, o.compile, o.cases, o.launches))
  }

  /** `env` has what an evaluation in `o` learns: the problem, the compiler's outcome, the cases, and what is
      observed of the run of each of them under the problem's limits. */
  ghost predicate Meets(o: Outside, env: Environment)
    requires Ends(o)
  {
    && env.problem == o.problem && env.compile == o.compile
    && (o.problem.Some? ==>
          var limits := Sandbox.SandboxLimits(o.problem.value.timeLimitMs, o.problem.value.memoryLimitMb);
          && env.cases == o.cases && |env.runs| == |o.cases|
          && forall i :: 0 <= i < |o.cases| ==> env.runs[i] == Sandbox.Observe(o.launches[i], limits))
  }

  /** The result says what it must of this job in these surroundings. */
  ghost predicate IsJudgement(o: Outside, job: SubmissionJob, r: SubmissionResult)
    requires Ends(o)
  {
    forall env :: Meets(o, env) ==> Decides(env, job, r)
  }

  lemma ResultIsJudgement(o: Outside, job: SubmissionJob)
    requires Ends(o)
    ensures IsJudgement(o, job, ResultOf(o, job))
  {
    hide Decides, Evaluated, Sandbox.Observe;
    var seen := SeenAs(o.problem, o.compile, o.cases, o.launches);
    EvaluationDecides(job, seen);
    forall env | Meets(o, env) ensures Decides(env, job, ResultOf(o, job)) {
      if o.problem.Some? {
        assert env.runs == seen.runs;
      } else {
        DecidesWithoutProblem(seen, env, job, ResultOf(o, job));
      }
    }
  }

  lemma DecidesWithoutProblem(seen: Environment, env: Environment, job: SubmissionJob, r: SubmissionResult)
    requires Decides(seen, job, r) && seen.problem == env.problem == None
    ensures Decides(env, job, r)
  {
  }

  /** What a judgement says of a submission that gets past its compiler: the verdict of each test is that of its
      own run, and the last one is the verdict of the whole. */
  lemma JudgementOfTests(o: Outside, job: SubmissionJob, r: SubmissionResult, limits: Sandbox.SandboxLimits)
    requires Ends(o) && IsJudgement(o, job, r)
    requires o.problem.Some? && limits == LimitsOf(o.problem.value) && IsSupported(job.language) && o.compile.success
    ensures r.total == |o.cases| == |r.testResults|
    ensures forall i :: 0 <= i < |o.cases| ==>
      r.testResults[i].verdict == Sandbox.VerdictOf(Sandbox.Observe(o.launches[i], limits), o.cases[i].1, limits)
    ensures r.verdict == if o.cases == [] then InternalError else r.testResults[|o.cases| - 1].verdict
  {
    hide Sandbox.Observe, Sandbox.VerdictOf, IsSupported, Sandbox.MessageOf, Sandbox.InRange;
    var runs := Observations(o.launches, limits);
    var env := Environment(o.problem, o.compile, o.cases, runs);
    assert Meets(o, env);
    assert Decides(env, job, r);
    assert forall i :: 0 <= i < |o.cases| ==> TellsOf(r.testResults[i], i, o.cases[i], runs[i], limits);
  }

  /** One turn of the loop: a pop, and the judging of the job if there was one. */
  function RoundOps(surroundings: Surroundings, round: Option<SubmissionJob>): seq<Op>
    requires round.Some? ==> Ends(surroundings(round.value))
  {
    [DequeueJob] + if round.None? then [] else JudgeOps(round.value, ResultOf(surroundings(round.value), round.value))
  }

  /** The calls of one turn: the pop, and the judging of the job that the pop's reply brought. */
  datatype Round = Round(pop: Exchange, judging: seq<Exchange>)

  /** Exactly the job that BRPOP returned is judged, and what is stored says what it must of it; without a job
      nothing more is called. */
  ghost predicate IsRound(surroundings: Surroundings, round: Round)
    requires EvaluationsEnd(surroundings)
  {
    && round.pop.op == DequeueJob
    && OpsOf([round.pop] + round.judging) == RoundOps(surroundings, JobHeard(round.pop))
    && (JobHeard(round.pop).Some? ==>
          var job := JobHeard(round.pop).value;
          Ends(surroundings(job)) && IsJudgement(surroundings(job), job, ResultOf(surroundings(job), job)))
  }

  ghost predicate AreRounds(surroundings: Surroundings, rounds: seq<Round>)
    requires EvaluationsEnd(surroundings)
  {
    forall round <- rounds :: IsRound(surroundings, round)
  }

  /** All calls of the rounds, in order. */
  function ScriptOf(rounds: seq<Round>): seq<Exchange> {
    if rounds == [] then []
    else ScriptOf(rounds[..|rounds| - 1]) + ([rounds[|rounds| - 1].pop] + rounds[|rounds| - 1].judging)
  }

  function JobsOf(rounds: seq<Round>): (jobs: seq<Option<SubmissionJob>>)
    ensures |jobs| == |rounds|
  {
    seq(|rounds|, i requires 0 <= i < |rounds| => JobHeard(rounds[i].pop))
  }

  ghost function RoundsOps(surroundings: Surroundings, jobs: seq<Option<SubmissionJob>>): seq<Op>
    requires EvaluationsEnd(surroundings)
  {
    if jobs == [] then []
    else RoundsOps(surroundings, jobs[..|jobs| - 1]) + RoundOps(surroundings, jobs[|jobs| - 1])
  }

  /** The operations of the rounds are determined by the jobs that were popped. */
  lemma {:induction false} OpsOfRounds(surroundings: Surroundings, rounds: seq<Round>)
    requires EvaluationsEnd(surroundings) && AreRounds(surroundings, rounds)
    ensures OpsOf(ScriptOf(rounds)) == RoundsOps(surroundings, JobsOf(rounds))
  {
    hide RoundOps;
    if rounds != [] {
      var n := |rounds| - 1;
      OpsOfRounds(surroundings, rounds[..n]);
      assert JobsOf(rounds)[..n] == JobsOf(rounds[..n]);
      assert IsRound(surroundings, rounds[n]);
      assert OpsOf(ScriptOf(rounds)) ==
             OpsOf(ScriptOf(rounds[..n])) + OpsOf([rounds[n].pop] + rounds[n].judging);
    }
  }

  /** Whoever else is active: the job of a round whose pop was answered was the oldest in the queue at the
      moment of the pop. */
  lemma RoundIsTruthful(surroundings: Surroundings, a: View, b: View, round: Round)
    requires EvaluationsEnd(surroundings) && IsRound(surroundings, round) && round.pop.heard.Some?
    requires Runs(a, b, [round.pop] + round.judging)
    ensures var k := round.pop.heard.value.at;
            |a.trace| <= k < |b.trace| && JobHeard(round.pop) == Oldest(WorldBefore(b, k).store.queue)
  {
    hide Mine, Now, AppliedTo, Applications, WorldBefore, InOrder, RoundOps, EvaluationsEnd;
    assert round.pop in [round.pop] + round.judging;
    assert Sound(a, b, round.pop);
  }

  function Oldest(queue: seq<SubmissionJob>): Option<SubmissionJob> {
    if queue == [] then None else Some(queue[|queue| - 1])
  }

  /** The turns of a worker that has the system to itself. */
  ghost function RoundsFrom(surroundings: Surroundings, w: World, n: nat): (rounds: seq<Option<SubmissionJob>>)
    requires EvaluationsEnd(surroundings)
    ensures |rounds| == n
  {
    if n == 0 then []
    else
      var before := RoundsFrom(surroundings, w, n - 1);
      before + [Oldest(AppliedTo(w, RoundsOps(surroundings, before)).store.queue)]
  }

  lemma FourSteps(w: World, a: Op, b: Op, c: Op, d: Op)
    ensures AppliedTo(w, [a, b, c, d]) == Step(Step(Step(Step(w, Do(a)), Do(b)), Do(c)), Do(d))
  {
    hide Step;
    AppliedLast(w, [], a);
    AppliedLast(w, [a], b);
    AppliedLast(w, [a, b], c);
    AppliedLast(w, [a, b, c], d);
    assert [] + [a] == [a] && [a] + [b] == [a, b] && [a, b] + [c] == [a, b, c] && [a, b, c] + [d] == [a, b, c, d];
  }

  function WithStatus(w: World, id: string, v: Verdict): World {
    w.(store := w.store.(statuses := w.store.statuses[id := Timed(v, w.now + RETENTION)]))
  }

  function WithResult(w: World, r: SubmissionResult): World {
    w.(store := w.store.(results := w.store.results[r.submissionId := Timed(r, w.now + RETENTION)]))
  }

  lemma LastStatusStays(w: World, id: string, v1: Verdict, v2: Verdict)
    ensures WithStatus(WithStatus(w, id, v1), id, v2) == WithStatus(w, id, v2)
  {
    var m := w.store.statuses;
    assert m[id := Timed(v1, w.now + RETENTION)][id := Timed(v2, w.now + RETENTION)] == m[id := Timed(v2, w.now + RETENTION)];
  }

  /** The whole effect of judging a job in a quiet system. */
  lemma JudgeEffect(w: World, job: SubmissionJob, r: SubmissionResult)
    ensures AppliedTo(w, JudgeOps(job, r)) == WithStatus(WithResult(w, r), job.submissionId, r.verdict)
  {
    hide AppliedTo;
    var id := job.submissionId;
    var a, b, c, d := SetStatus(id, Compiling), SetStatus(id, Running), SetResult(r), SetStatus(id, r.verdict);
    assert JudgeOps(job, r) == [a, b, c, d];
    FourSteps(w, a, b, c, d);
    LastStatusStays(w, id, Compiling, Running);
    assert WithResult(WithStatus(w, id, Running), r) == WithStatus(WithResult(w, r), id, Running);
    LastStatusStays(WithResult(w, r), id, Running, r.verdict);
  }

  /** One turn alone: the oldest job leaves the queue, its result and final status are there, and nothing
      else has changed. */
  ghost function TurnOn(surroundings: Surroundings, w: World): World
    requires EvaluationsEnd(surroundings)
  {
    if w.store.queue == [] then w
    else
      var n := |w.store.queue| - 1;
      var job := w.store.queue[n];
      assert Ends(surroundings(job));
      var r := ResultOf(surroundings(job), job);
      WithStatus(WithResult(w.(store := w.store.(queue := w.store.queue[..n])), r), job.submissionId, r.verdict)
  }

  lemma TurnEffect(surroundings: Surroundings, w: World)
    requires EvaluationsEnd(surroundings)
    ensures Oldest(w.store.queue).Some? ==> Ends(surroundings(Oldest(w.store.queue).value))
    ensures AppliedTo(w, RoundOps(surroundings, Oldest(w.store.queue))) == TurnOn(surroundings, w)
  {
    hide JudgeOps, ResultOf, WithStatus, WithResult, AppliedTo;
    AppliedLast(w, [], DequeueJob);
    AppliedNone(w);
    assert [] + [DequeueJob] == [DequeueJob];
    if w.store.queue == [] {
      assert [DequeueJob] + [] == [DequeueJob];
    } else {
      var job := w.store.queue[|w.store.queue| - 1];
      assert Ends(surroundings(job));
      var r := ResultOf(surroundings(job), job);
      AppliedInTurn(w, [DequeueJob], JudgeOps(job, r));
      JudgeEffect(AppliedTo(w, [DequeueJob]), job, r);
    }
  }

  function Min(a: nat, b: nat): nat {
    if a < b then a else b
  }

  predicate DistinctIds(jobs: seq<SubmissionJob>) {
    forall i, j :: 0 <= i < j < |jobs| ==> jobs[i].submissionId != jobs[j].submissionId
  }

  /** A poll finds a result that says what it must of this job, and the status key agrees. */
  ghost predicate JudgedIn(surroundings: Surroundings, w: World, job: SubmissionJob)
    requires EvaluationsEnd(surroundings)
  {
    assert Ends(surroundings(job));
    var r := ResultOf(surroundings(job), job);
    && IsJudgement(surroundings(job), job, r)
    && Live(w.store.results, job.submissionId, w.now) == Some(r)
    && Live(w.store.statuses, job.submissionId, w.now) == Some(r.verdict)
  }

  /** The n oldest jobs of w's queue are judged, and the others still wait in order. */
  ghost predicate DrainedBy(surroundings: Surroundings, w: World, last: World, n: nat)
    requires EvaluationsEnd(surroundings)
  {
    var queue, left := w.store.queue, |w.store.queue| - Min(n, |w.store.queue|);
    && last.now == w.now && last.store.queue == queue[..left]
    && forall i :: left <= i < |queue| ==> JudgedIn(surroundings, last, queue[i])
  }

  lemma TurnDrains(surroundings: Surroundings, w: World, before: World, n: nat)
    requires EvaluationsEnd(surroundings) && DistinctIds(w.store.queue) && DrainedBy(surroundings, w, before, n)
    ensures DrainedBy(surroundings, w, TurnOn(surroundings, before), n + 1)
  {
    hide ResultOf, Ends, IsJudgement;
    var queue := w.store.queue;
    var last := TurnOn(surroundings, before);
    if n < |queue| {
      var k := |queue| - n - 1;
      var job := queue[k];
      assert before.store.queue[k] == job && before.store.queue[..k] == queue[..k];
      assert Ends(surroundings(job));
      OwnResult(surroundings, job);
      forall i | k <= i < |queue| ensures JudgedIn(surroundings, last, queue[i]) {
        if i > k {
          assert queue[i].submissionId != job.submissionId;
          assert JudgedIn(surroundings, before, queue[i]);
        }
      }
    }
  }

  lemma OwnResult(surroundings: Surroundings, job: SubmissionJob)
    requires Ends(surroundings(job))
    ensures ResultOf(surroundings(job), job).submissionId == job.submissionId
    ensures IsJudgement(surroundings(job), job, ResultOf(surroundings(job), job))
  {
    hide IsJudgement;
    ResultIsJudgement(surroundings(job), job);
    var o := surroundings(job);
    EvaluationEndsTerminally(job, SeenAs(o.problem, o.compile, o.cases, o.launches));
  }

  ghost function WorldAfter(surroundings: Surroundings, w: World, n: nat): World
    requires EvaluationsEnd(surroundings)
  {
    AppliedTo(w, RoundsOps(surroundings, RoundsFrom(surroundings, w, n)))
  }

  lemma OneMoreRound(surroundings: Surroundings, w: World, n: nat)
    requires EvaluationsEnd(surroundings)
    ensures var round := Oldest(WorldAfter(surroundings, w, n).store.queue);
      RoundsFrom(surroundings, w, n + 1) == RoundsFrom(surroundings, w, n) + [round]
    ensures WorldAfter(surroundings, w, n + 1) == TurnOn(surroundings, WorldAfter(surroundings, w, n))
  {
    hide AppliedTo, TurnOn, RoundOps, Ends, Oldest;
    var past, before := RoundsFrom(surroundings, w, n), WorldAfter(surroundings, w, n);
    var round := Oldest(before.store.queue);
    assert (past + [round])[..n] == past;
    TurnEffect(surroundings, before);
    AppliedInTurn(w, RoundsOps(surroundings, past), RoundOps(surroundings, round));
  }

  lemma NoRoundsYet(surroundings: Surroundings, w: World)
    requires EvaluationsEnd(surroundings)
    ensures WorldAfter(surroundings, w, 0) == w
  {
    AppliedNone(w);
  }

  /** The rounds bring the oldest jobs in order, and then nothing. */
  predicate RoundsInOrder(queue: seq<SubmissionJob>, rounds: seq<Option<SubmissionJob>>) {
    forall k :: 0 <= k < |rounds| ==> rounds[k] == if k < |queue| then Some(queue[|queue| - 1 - k]) else None
  }

  lemma NextInOrder(surroundings: Surroundings, w: World, before: World, past: seq<Option<SubmissionJob>>)
    requires EvaluationsEnd(surroundings) && DrainedBy(surroundings, w, before, |past|)
    requires RoundsInOrder(w.store.queue, past)
    ensures RoundsInOrder(w.store.queue, past + [Oldest(before.store.queue)])
  {
    hide JudgedIn;
  }

  /** A worker with the system to itself takes the jobs in the order in which they were queued, and after n
      turns each job it has taken has its own result, and its verdict as status; the others still wait, in
      order. */
  lemma {:induction false} DrainsInOrder(surroundings: Surroundings, w: World, n: nat)
    requires EvaluationsEnd(surroundings) && DistinctIds(w.store.queue)
    ensures RoundsInOrder(w.store.queue, RoundsFrom(surroundings, w, n))
    ensures DrainedBy(surroundings, w, WorldAfter(surroundings, w, n), n)
  {
    if n == 0 {
      hide JudgedIn, WorldAfter;
      NoRoundsYet(surroundings, w);
      assert w.store.queue[..|w.store.queue|] == w.store.queue;
    } else {
      hide DrainedBy, RoundsInOrder, TurnOn, WorldAfter, RoundsFrom, Oldest, Ends, DistinctIds;
      DrainsInOrder(surroundings, w, n - 1);
      var past, before := RoundsFrom(surroundings, w, n - 1), WorldAfter(surroundings, w, n - 1);
      OneMoreRound(surroundings, w, n - 1);
      NextInOrder(surroundings, w, before, past);
      TurnDrains(surroundings, w, before, n - 1);
    }
  }

  /** Alone, the next round takes the job that the rounds before it have left oldest. */
  lemma {:induction false} NextRound(surroundings: Surroundings, ready: View, before: View, past: seq<Round>, round: Round)
    requires EvaluationsEnd(surroundings) && AreRounds(surroundings, past) && Runs(ready, before, ScriptOf(past))
    requires ready.Alone() ==> JobsOf(past) == RoundsFrom(surroundings, Now(ready), |past|)
    requires before.Alone() ==> JobHeard(round.pop) == Oldest(Now(before).store.queue)
    ensures ready.Alone() ==> JobsOf(past + [round]) == RoundsFrom(surroundings, Now(ready), |past| + 1)
  {
    hide Mine, Applications, AllSound, InOrder, Now, AppliedTo, IsRound, Oldest;
    if ready.Alone() {
      OpsOfRounds(surroundings, past);
      assert JobsOf(past + [round]) == JobsOf(past) + [JobHeard(round.pop)];
    }
  }

  lemma JudgeScript(job: SubmissionJob, result: SubmissionResult, a: Exchange, b: Exchange, c: Exchange, d: Exchange)
    requires a.op == SetStatus(job.submissionId, Compiling) && b.op == SetStatus(job.submissionId, Running)
    requires c.op == SetResult(result) && d.op == SetStatus(job.submissionId, result.verdict)
    ensures OpsOf([a, b, c, d]) == JudgeOps(job, result)
  {
  }

  datatype Thread = Thread(worker: nat, joinable: bool)

  class WorkerPool {
    const workerCount: nat
    const surroundings: Surroundings
    var running: bool
    var threads: seq<Thread>

    constructor (workerCount: nat, surroundings: Surroundings)
      ensures this.workerCount == workerCount && this.surroundings == surroundings && !running && threads == []
    {
      this.workerCount, this.surroundings, running, threads := workerCount, surroundings, false, [];
    }

    method Start()
      modifies this
      ensures running && |threads| == |old(threads)| + workerCount && old(threads) <= threads
      ensures forall i :: 0 <= i < workerCount ==> threads[|old(threads)| + i] == Thread(i, true)
    {
      running := true;
      var i := 0;
      while i < workerCount
        invariant 0 <= i <= workerCount && running && |threads| == |old(threads)| + i && old(threads) <= threads
        invariant forall k :: 0 <= k < i ==> threads[|old(threads)| + k] == Thread(k, true)
      {
        threads := threads + [Thread(i, true)];
        i := i + 1;
      }
    }

    method Stop()
      modifies this`running
      ensures !running
    {
      running := false;
    }

    /** Waits for every thread that has not been waited for. */
    method Join()
      modifies this`threads
      ensures |threads| == |old(threads)|
      ensures forall i :: 0 <= i < |threads| ==> threads[i] == Thread(old(threads)[i].worker, false)
    {
      var i := 0;
      while i < |threads|
        invariant 0 <= i <= |threads| == |old(threads)|
        invariant forall k :: 0 <= k < i ==> threads[k] == Thread(old(threads)[k].worker, false)
        invariant forall k :: i <= k < |threads| ==> threads[k] == old(threads)[k]
      {
        if threads[i].joinable {
          threads := threads[i := threads[i].(joinable := false)];
        }
        i := i + 1;
      }
    }

    /** Judging one job that is in hand. */
    method Judge(redis: Client, job: SubmissionJob) returns (ghost script: seq<Exchange>)
      requires redis.server.Valid() && EvaluationsEnd(surroundings)
      modifies redis, redis.server
      ensures redis.server.Valid() && Runs(old(redis.Look()), redis.Look(), script)
      ensures OpsOf(script) == JudgeOps(job, ResultOf(surroundings(job), job))
      ensures IsJudgement(surroundings(job), job, ResultOf(surroundings(job), job))
    {
      hide Runs, AnsweredAlone, Evaluated, SeenAs, JudgeOps, OpsOf, IsJudgement;
      assert Ends(surroundings(job));
      ResultIsJudgement(surroundings(job), job);
      ghost var start := redis.Look();
      var ok, compiling := redis.SetStatus(job.submissionId, Compiling);
      script := [compiling];
      ghost var before := redis.Look();
      ghost var running;
      ok, running := redis.SetStatus(job.submissionId, Running);
      RunsInTurn(start, before, redis.Look(), script, [running]);
      script, before := script + [running], redis.Look();
      var o := surroundings(job);
      var result := EvaluateSubmission(job, o.problem, o.compile, o.cases, o.launches);
      ghost var ruling;
      ok, ruling := redis.SetResult(result);
      RunsInTurn(start, before, redis.Look(), script, [ruling]);
      script, before := script + [ruling], redis.Look();
      ghost var last;
      ok, last := redis.SetStatus(job.submissionId, result.verdict);
      RunsInTurn(start, before, redis.Look(), script, [last]);
      script := script + [last];
      assert script == [compiling, running, ruling, last];
      JudgeScript(job, result, compiling, running, ruling, last);
    }

    /** One turn of the loop. */
    method Turn(redis: Client) returns (ghost round: Round)
      requires redis.server.Valid() && EvaluationsEnd(surroundings)
      modifies redis, redis.server
      ensures redis.server.Valid() && IsRound(surroundings, round)
      ensures Runs(old(redis.Look()), redis.Look(), [round.pop] + round.judging)
      ensures old(redis.Look()).Alone() ==> JobHeard(round.pop) == Oldest(Now(old(redis.Look())).store.queue)
    {
      hide Runs, Now, JudgeOps, ResultOf, IsJudgement;
      ghost var start := redis.Look();
      var job, pop := redis.DequeueJob();
      assert OpsOf([pop]) == [DequeueJob];
      if job.None? {
        assert [pop] + [] == [pop] && [DequeueJob] + [] == [DequeueJob];
        return Round(pop, []);
      }
      assert Ends(surroundings(job.value));
      ghost var popped := redis.Look();
      ghost var judging := Judge(redis, job.value);
      RunsInTurn(start, popped, redis.Look(), [pop], judging);
      assert OpsOf([pop] + judging) == OpsOf([pop]) + OpsOf(judging);
      round := Round(pop, judging);
    }

    /** The wait for a first connection; `left` counts the findings of the flag that remain. */
    method AwaitRedis(redis: Client, connects: seq<bool>, tests: nat) returns (served: bool, left: nat)
      modifies redis`connected
      ensures redis.connected == served
      ensures served ==> left <= tests && tests - left < |connects| && connects[tests - left] &&
                         forall j :: 0 <= j < tests - left ==> !connects[j]
      ensures !served ==> left == 0 && forall j :: 0 <= j < |connects| && j <= tests ==> !connects[j]
    {
      left := tests;
      var k := 0;
      while true
        invariant left + k == tests && 0 <= k && 0 <= left
        invariant forall j :: 0 <= j < k && j < |connects| ==> !connects[j]
        decreases left
      {
        var ok := redis.Connect(k < |connects| && connects[k]);
        if ok {
          return true, left;
        }
        if left == 0 {
          return false, 0;
        }
        left, k := left - 1, k + 1;
      }
    }

    /** worker_loop.  `connects` tells which attempts to connect succeed, none after its end; `tests` is how
        often the thread will still find the flag set: stop() clears it for good.  Every such finding pays
        for one failed attempt, or for one pop with the judging of what it brought. */
    method WorkerLoop(redis: Client, connects: seq<bool>, tests: nat)
      returns (served: bool, ghost ready: View, ghost rounds: seq<Round>)
      requires redis.server.Valid() && EvaluationsEnd(surroundings)
      modifies redis, redis.server
      ensures redis.server.Valid() && |rounds| <= tests
      ensures served ==> tests - |rounds| < |connects| && connects[tests - |rounds|] &&
                         forall j :: 0 <= j < tests - |rounds| ==> !connects[j]
      ensures served ==> ready == old(redis.Look()).(line := Line(true, old(redis.outcomes)))
      ensures served ==> AreRounds(surroundings, rounds) && Runs(ready, redis.Look(), ScriptOf(rounds))
      ensures served && ready.Alone() ==> JobsOf(rounds) == RoundsFrom(surroundings, Now(ready), |rounds|)
      ensures !served ==> forall j :: 0 <= j < |connects| && j <= tests ==> !connects[j]
      ensures !served ==> rounds == [] && redis.Look() == old(redis.Look()).(line := Line(false, old(redis.outcomes)))
    {
      hide Runs, Now, IsRound;
      rounds, ready := [], redis.Look();
      var left;
      served, left := AwaitRedis(redis, connects, tests);
      if !served {
        return;
      }
      ready := redis.Look();
      rounds := Serve(redis, left);
    }

    /** The loop proper. */
    method Serve(redis: Client, tests: nat) returns (ghost rounds: seq<Round>)
      requires redis.server.Valid() && EvaluationsEnd(surroundings)
      modifies redis, redis.server
      ensures redis.server.Valid() && |rounds| == tests && AreRounds(surroundings, rounds)
      ensures Runs(old(redis.Look()), redis.Look(), ScriptOf(rounds))
      ensures old(redis.Look()).Alone() ==> JobsOf(rounds) == RoundsFrom(surroundings, Now(old(redis.Look())), tests)
    {
      hide Runs, Now, IsRound, Oldest;
      ghost var ready := redis.Look();
      RunsNothing(ready);
      rounds := [];
      var left := tests;
      while left > 0
        invariant redis.server.Valid() && 0 <= left && |rounds| + left == tests && AreRounds(surroundings, rounds)
        invariant Runs(ready, redis.Look(), ScriptOf(rounds))
        invariant ready.Alone() ==> JobsOf(rounds) == RoundsFrom(surroundings, Now(ready), |rounds|)
      {
        left := left - 1;
        ghost var before, past := redis.Look(), rounds;
        ghost var round := Turn(redis);
        rounds := past + [round];
        assert rounds[..|past|] == past;
        RunsInTurn(ready, before, redis.Look(), ScriptOf(past), [round.pop] + round.judging);
        NextRound(surroundings, ready, before, past, round);
      }
    }
  }
}
