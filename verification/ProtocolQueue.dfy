/** Exactly once, first in first out: where every accepted job is, in every interleaving. */
module ProtocolQueue {
  import opened Protocol
  import opened ProtocolInvariant
  import opened Sequences
  import opened Store
  import opened Verdicts
  import Evaluator

  /** Pushes in order are the pops in order followed by the queue, oldest first. */
  predicate FifoOk(pushed: seq<SubmissionJob>, popped: seq<Pop>, queue: seq<SubmissionJob>) {
    pushed == PoppedJobs(popped) + Reverse(queue)
  }

  /** Every push is in the queue, in some worker's hands or finished. */
  ghost predicate ConservedOk(pushed: seq<SubmissionJob>, queue: seq<SubmissionJob>, workers: seq<WorkerPc>,
                              finished: seq<SubmissionJob>) {
    forall job: SubmissionJob ::
      multiset(pushed)[job] == multiset(queue)[job] + HeldBy(workers, job) + multiset(finished)[job]
  }

  ghost predicate QueueInv(s: State) {
    FifoOk(s.pushed, s.popped, s.store.queue) && ConservedOk(s.pushed, s.store.queue, s.workers, s.finished)
  }

  function One(pc: WorkerPc, job: SubmissionJob): nat {
    if JobOf(pc) == Some(job) then 1 else 0
  }

  lemma {:induction false} HeldByUpdate(workers: seq<WorkerPc>, w: nat, pc: WorkerPc, job: SubmissionJob)
    requires w < |workers|
    ensures HeldBy(workers[w := pc], job) + One(workers[w], job) == HeldBy(workers, job) + One(pc, job)
  {
    var n := |workers| - 1;
    if w == n {
      assert workers[w := pc][..n] == workers[..n];
    } else {
      assert workers[w := pc][..n] == workers[..n][w := pc];
      HeldByUpdate(workers[..n], w, pc, job);
    }
  }

  lemma {:induction false} HeldByIdle(workers: seq<WorkerPc>, job: SubmissionJob)
    requires forall pc <- workers :: JobOf(pc).None?
    ensures HeldBy(workers, job) == 0
  {
    if workers != [] {
      HeldByIdle(workers[..|workers| - 1], job);
    }
  }

  /** A worker that goes on with the same job, or with none, changes nothing here. */
  lemma MoveConserves(s: State, s': State, w: nat, pc: WorkerPc)
    requires QueueInv(s) && w < |s.workers| && JobOf(pc) == JobOf(s.workers[w])
    requires s'.workers == s.workers[w := pc] && s'.store.queue == s.store.queue
    requires s'.pushed == s.pushed && s'.popped == s.popped && s'.finished == s.finished
    ensures QueueInv(s')
  {
    forall job: SubmissionJob ensures HeldBy(s'.workers, job) == HeldBy(s.workers, job) {
      HeldByUpdate(s.workers, w, pc, job);
    }
  }

  lemma EnqueueConserves(s: State, h: nat)
    requires QueueInv(s) && h < |s.handlers| && s.handlers[h].at == 0 && s.handlers[h].job.submissionId in s.ledger
    ensures QueueInv(HandlerDoes(s, h))
  {
    hide HandlerDoes;
    EnqueuedShape(s, h);
    var s', job := HandlerDoes(s, h), s.handlers[h].job;
    assert FifoOk(s'.pushed, s'.popped, s'.store.queue) by {
      ReverseCons(s.store.queue, job);
    }
    assert multiset(s'.store.queue) == multiset{job} + multiset(s.store.queue);
    assert multiset(s'.pushed) == multiset(s.pushed) + multiset{job};
  }

  lemma PopInOrder(pushed: seq<SubmissionJob>, popped: seq<Pop>, queue: seq<SubmissionJob>, w: nat)
    requires FifoOk(pushed, popped, queue) && queue != []
    ensures FifoOk(pushed, popped + [Pop(w, queue[|queue| - 1])], queue[..|queue| - 1])
  {
    var job := queue[|queue| - 1];
    ReverseLast(queue);
    assert PoppedJobs(popped + [Pop(w, job)]) == PoppedJobs(popped) + [job];
  }

  lemma PopMoves(pushed: seq<SubmissionJob>, queue: seq<SubmissionJob>, workers: seq<WorkerPc>,
                 finished: seq<SubmissionJob>, w: nat, pc: WorkerPc)
    requires ConservedOk(pushed, queue, workers, finished) && queue != [] && w < |workers|
    requires JobOf(workers[w]).None? && JobOf(pc) == Some(queue[|queue| - 1])
    ensures ConservedOk(pushed, queue[..|queue| - 1], workers[w := pc], finished)
  {
    var rest, job := queue[..|queue| - 1], queue[|queue| - 1];
    assert queue == rest + [job];
    forall other: SubmissionJob
      ensures multiset(queue)[other] + HeldBy(workers, other) == multiset(rest)[other] + HeldBy(workers[w := pc], other)
    {
      HeldByUpdate(workers, w, pc, other);
      assert multiset(queue)[other] == multiset(rest)[other] + multiset{job}[other];
    }
  }

  lemma PopConserves(s: State, w: nat, job: SubmissionJob)
    requires QueueInv(s) && w < |s.workers| && JobOf(s.workers[w]).None? && s.store.queue != []
    requires job == s.store.queue[|s.store.queue| - 1] && job.submissionId in s.ledger
    ensures QueueInv(PoppedBy(s, w, job))
  {
    hide FifoOk, ConservedOk;
    PopInOrder(s.pushed, s.popped, s.store.queue, w);
    PopMoves(s.pushed, s.store.queue, s.workers, s.finished, w, Starting(job, 0));
  }

  lemma SettleConserves(s: State, w: nat)
    requires QueueInv(s) && w < |s.workers| && s.workers[w].Reporting? && s.workers[w].job.submissionId in s.ledger
    ensures QueueInv(SettledBy(s, w))
  {
    var s', job := SettledBy(s, w), s.workers[w].job;
    forall other: SubmissionJob
      ensures HeldBy(s.workers, other) + multiset(s.finished)[other] ==
              HeldBy(s'.workers, other) + multiset(s'.finished)[other]
    {
      HeldByUpdate(s.workers, w, Checking, other);
    }
  }

  lemma StartConserves(s: State, count: nat)
    requires QueueInv(s) && s.workers == []
    ensures QueueInv(PoolStarted(s, count))
  {
    var s' := PoolStarted(s, count);
    forall job: SubmissionJob ensures HeldBy(s'.workers, job) == HeldBy(s.workers, job) {
      HeldByIdle(s'.workers, job);
    }
  }

  lemma JudgeConserves(s: State, w: nat)
    requires Inv(s) && QueueInv(s) && Enabled(s, JudgeStep(w))
    ensures QueueInv(JudgeDoes(s, w))
  {
    hide JudgeDoes, QueueInv, LedgerOk, KeysOk;
    HeldRecord(s, w);
    if s.workers[w].Starting? {
      StartShape(s, w);
      MoveConserves(s, Started(s, w), w, NextStart(s.workers[w]));
    } else if s.workers[w].at == 0 {
      RuleShape(s, w);
      MoveConserves(s, Ruled(s, w), w, Reporting(s.workers[w].job, s.workers[w].result, 1));
    } else {
      SettleShape(s, w);
      SettleConserves(s, w);
    }
  }

  lemma TryPopConserves(s: State, w: nat)
    requires Inv(s) && QueueInv(s) && Enabled(s, TryPop(w))
    ensures QueueInv(PopDoes(s, w))
  {
    hide PopDoes, QueueInv, LedgerOk, KeysOk;
    PopShape(s, w);
    if s.store.queue == [] {
      MoveConserves(s, Goto(s, w, Checking), w, Checking);
    } else {
      var job := s.store.queue[|s.store.queue| - 1];
      assert Known(s.ledger, job, Queued);
      PopConserves(s, w, job);
    }
  }

  lemma HandlerConserves(s: State, h: nat)
    requires Inv(s) && QueueInv(s) && Enabled(s, HandlerStep(h))
    ensures QueueInv(HandlerDoes(s, h))
  {
    hide HandlerDoes, LedgerOk, KeysOk;
    assert HandlerOk(h, s.handlers[h], s.ledger);
    if s.handlers[h].at == 0 {
      EnqueueConserves(s, h);
    } else if s.handlers[h].at == 1 {
      PendingShape(s, h);
    } else {
      AfterPendingShape(s, h);
    }
  }

  lemma StepConserves(s: State, a: Action)
    requires Inv(s) && QueueInv(s) && Enabled(s, a)
    ensures QueueInv(Take(s, a))
  {
    hide Inv, HandlerDoes, JudgeDoes, PopDoes, PoolStarted, NextRead, FifoOk, ConservedOk;
    match a {
      case HandlerStep(h) => HandlerConserves(s, h);
      case StartPool(count) => NoWorkersYet(s); StartConserves(s, count);
      case TryPop(w) => TryPopConserves(s, w);
      case JudgeStep(w) => JudgeConserves(s, w);
      case Evaluate(w, env) =>
        MoveConserves(s, Take(s, a), w, Reporting(s.workers[w].job, Evaluator.Evaluated(s.workers[w].job, env), 0));
      case Connect(w, ok) =>
        MoveConserves(s, Goto(s, w, Checking), w, Checking);
        MoveConserves(s, Goto(s, w, Exited), w, Exited);
      case Check(w) =>
        MoveConserves(s, Goto(s, w, Popping), w, Popping);
        MoveConserves(s, Goto(s, w, Exited), w, Exited);
      case _ =>
    }
  }

  lemma {:induction false} RunConserves(s: State, actions: seq<Action>)
    requires Inv(s) && QueueInv(s) && IsRun(s, actions)
    ensures QueueInv(After(s, actions))
    decreases |actions|
  {
    hide Inv, QueueInv, Take, Enabled;
    if actions != [] {
      StepKeeps(s, actions[0]);
      StepConserves(s, actions[0]);
      RunConserves(Take(s, actions[0]), actions[1..]);
    }
  }

  lemma ReachableConserved(s: State)
    requires Reachable(s)
    ensures Inv(s) && QueueInv(s)
  {
    hide Inv;
    ReachableInv(s);
    InitialInv();
    var actions :| IsRun(INITIAL, actions) && s == After(INITIAL, actions);
    assert QueueInv(INITIAL);
    RunConserves(INITIAL, actions);
  }

  lemma {:induction false} OnlyOnce(jobs: seq<SubmissionJob>, k: nat)
    requires k < |jobs|
    requires forall i, j :: 0 <= i < j < |jobs| ==> jobs[i].submissionId != jobs[j].submissionId
    ensures multiset(jobs)[jobs[k]] == 1
  {
    var front, back := jobs[..k], jobs[k + 1..];
    assert jobs == front + [jobs[k]] + back;
    assert jobs[k] !in front && jobs[k] !in back;
  }

  /** In every reachable state each job that was pushed is in exactly one place, once: in the queue, in
      one worker's hands, or finished; and nothing else is anywhere. */
  lemma ExactlyOnce(s: State, job: SubmissionJob)
    requires Reachable(s)
    ensures multiset(s.store.queue)[job] + HeldBy(s.workers, job) + multiset(s.finished)[job] ==
            if job in s.pushed then 1 else 0
  {
    hide LedgerOk, KeysOk;
    ReachableConserved(s);
    if job in s.pushed {
      var k :| 0 <= k < |s.pushed| && s.pushed[k] == job;
      OnlyOnce(s.pushed, k);
    } else {
      assert multiset(s.pushed)[job] == 0;
    }
  }

  /** The k-th pop returns the k-th push, LLEN is pushes minus pops, and what is still queued are the
      later pushes in their order. */
  lemma FirstInFirstOut(s: State)
    requires Reachable(s)
    ensures |s.popped| <= |s.pushed|
    ensures forall k :: 0 <= k < |s.popped| ==> s.popped[k].job == s.pushed[k]
    ensures Answer(s.store, s.now, QueueLength) == Length(|s.pushed| - |s.popped|)
    ensures Reverse(s.store.queue) == s.pushed[|s.popped|..]
  {
    hide Inv;
    ReachableConserved(s);
    assert forall k :: 0 <= k < |s.popped| ==> s.popped[k].job == PoppedJobs(s.popped)[k];
  }
}
