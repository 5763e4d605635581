/** Where stored results come from: every ruling is the result of an evaluation, by some worker in this run, of
    the submission's own job. */
module ProtocolRulings {
  import opened Protocol
  import opened ProtocolInvariant
  import opened ProtocolLiveness
  import opened Store
  import opened Verdicts
  import Evaluator

  /** The run has evaluated this job, and its result says what it must in the environment of that evaluation. */
  ghost predicate Judged(actions: seq<Action>, job: SubmissionJob, result: SubmissionResult) {
    exists k :: 0 <= k < |actions| && JudgedBy(actions[k], job, result)
  }

  ghost predicate JudgedBy(a: Action, job: SubmissionJob, result: SubmissionResult) {
    a.Evaluate? && Evaluator.Decides(a.env, job, result)
  }

  ghost predicate ReportsJudged(workers: seq<WorkerPc>, actions: seq<Action>) {
    forall w :: 0 <= w < |workers| && workers[w].Reporting? ==> Judged(actions, workers[w].job, workers[w].result)
  }

  ghost predicate RulingsJudged(ledger: Ledger, actions: seq<Action>) {
    forall id :: id in ledger && ledger[id].ruling.Some? ==>
      Judged(actions, ledger[id].job, ledger[id].ruling.value.result)
  }

  lemma JudgedLater(actions: seq<Action>, a: Action, job: SubmissionJob, result: SubmissionResult)
    requires Judged(actions, job, result) || JudgedBy(a, job, result)
    ensures Judged(actions + [a], job, result)
  {
    hide JudgedBy;
    if Judged(actions, job, result) {
      var k :| 0 <= k < |actions| && JudgedBy(actions[k], job, result);
      assert (actions + [a])[k] == actions[k];
    } else {
      assert (actions + [a])[|actions|] == a;
    }
  }

  /** Steps that are not the workers' leave the threads as they are, or start them. */
  lemma OthersLeaveWorkers(s: State, a: Action)
    requires Inv(s) && Enabled(s, a) && !IsWorkerAction(a)
    ensures var workers' := Take(s, a).workers;
      workers' == s.workers || forall w :: 0 <= w < |workers'| ==> workers'[w] == Connecting
  {
    hide HandlerDoes, LedgerOk, KeysOk, NextRead;
    if a.HandlerStep? {
      var h := a.h;
      assert HandlerOk(h, s.handlers[h], s.ledger);
      if s.handlers[h].at == 0 {
        EnqueuedShape(s, h);
      } else if s.handlers[h].at == 1 {
        PendingShape(s, h);
      } else {
        AfterPendingShape(s, h);
      }
    }
  }

  lemma ReportsStayJudged(s: State, a: Action, actions: seq<Action>)
    requires Inv(s) && Enabled(s, a) && ReportsJudged(s.workers, actions)
    ensures ReportsJudged(Take(s, a).workers, actions + [a])
  {
    hide Inv, Take, Judged, Evaluator.Decides, Evaluator.Evaluated;
    if IsWorkerAction(a) {
      WorkerEffect(s, a);
      if a.Evaluate? {
        Evaluator.EvaluationDecides(s.workers[a.w].job, a.env);
      }
    } else {
      OthersLeaveWorkers(s, a);
    }
    forall w | 0 <= w < |Take(s, a).workers| && Take(s, a).workers[w].Reporting?
      ensures Judged(actions + [a], Take(s, a).workers[w].job, Take(s, a).workers[w].result)
    {
      var pc := Take(s, a).workers[w];
      if a.Evaluate? && a.w == w {
        assert pc == Reporting(s.workers[w].job, Evaluator.Evaluated(s.workers[w].job, a.env), 0);
      } else {
        assert s.workers[w].Reporting? && s.workers[w].job == pc.job && s.workers[w].result == pc.result;
      }
      JudgedLater(actions, a, pc.job, pc.result);
    }
  }

  /** A step gives a submission a ruling only as the result that a worker reports of its job. */
  predicate RulesWithReport(s: State, ledger': Ledger) {
    forall id :: id in ledger' && ledger'[id].ruling.Some? ==>
      || (id in s.ledger && s.ledger[id].ruling == ledger'[id].ruling && s.ledger[id].job == ledger'[id].job)
      || exists w :: 0 <= w < |s.workers| && Reports(s.workers[w], ledger'[id].job, ledger'[id].ruling.value.result)
  }

  predicate Reports(pc: WorkerPc, job: SubmissionJob, result: SubmissionResult) {
    pc.Reporting? && pc.job == job && pc.result == result
  }

  lemma JudgeRulesWithReport(s: State, w: nat)
    requires WorkersOk(s.workers, s.ledger) && LedgerOk(s.ledger, s.handlers, s.workers, s.now)
    requires w < |s.workers| && (s.workers[w].Starting? || s.workers[w].Reporting?) && s.workers[w].at < 2
    ensures RulesWithReport(s, JudgeDoes(s, w).ledger)
  {
    hide JudgeDoes, LedgerOk, RecordOk;
    HeldRecord(s, w);
    if s.workers[w].Starting? {
      StartShape(s, w);
    } else if s.workers[w].at == 0 {
      RuleShape(s, w);
      assert Reports(s.workers[w], s.workers[w].job, s.workers[w].result);
    } else {
      SettleShape(s, w);
    }
  }

  lemma PopRulesWithReport(s: State, w: nat)
    requires Inv(s) && w < |s.workers|
    ensures RulesWithReport(s, PopDoes(s, w).ledger)
  {
    hide PopDoes, LedgerOk, KeysOk, Reports;
    PopShape(s, w);
    if s.store.queue != [] {
      QueueHeadKnown(s);
    }
  }

  lemma HandlerRulesWithReport(s: State, h: nat)
    requires Inv(s) && h < |s.handlers| && s.handlers[h].at < 5
    ensures RulesWithReport(s, HandlerDoes(s, h).ledger)
  {
    hide HandlerDoes, LedgerOk, KeysOk, Reports;
    assert HandlerOk(h, s.handlers[h], s.ledger);
    if s.handlers[h].at == 0 {
      EnqueuedShape(s, h);
    } else if s.handlers[h].at == 1 {
      PendingShape(s, h);
    } else {
      AfterPendingShape(s, h);
    }
  }

  lemma StepRulesWithReport(s: State, a: Action)
    requires Inv(s) && Enabled(s, a)
    ensures RulesWithReport(s, Take(s, a).ledger)
  {
    hide HandlerDoes, PopDoes, JudgeDoes, LedgerOk, KeysOk, NextRead, Reports;
    match a {
      case HandlerStep(h) => HandlerRulesWithReport(s, h);
      case TryPop(w) => PopRulesWithReport(s, w);
      case JudgeStep(w) => JudgeRulesWithReport(s, w);
      case _ =>
    }
  }

  lemma RulingsStayJudged(s: State, a: Action, actions: seq<Action>)
    requires Inv(s) && Enabled(s, a) && ReportsJudged(s.workers, actions) && RulingsJudged(s.ledger, actions)
    ensures RulingsJudged(Take(s, a).ledger, actions + [a])
  {
    hide Inv, Take, Enabled, Judged;
    StepRulesWithReport(s, a);
    var ledger' := Take(s, a).ledger;
    forall id | id in ledger' && ledger'[id].ruling.Some?
      ensures Judged(actions + [a], ledger'[id].job, ledger'[id].ruling.value.result)
    {
      JudgedLater(actions, a, ledger'[id].job, ledger'[id].ruling.value.result);
    }
  }

  lemma {:induction false} RunIsJudged(s: State, past: seq<Action>, actions: seq<Action>)
    requires Inv(s) && IsRun(s, actions) && ReportsJudged(s.workers, past) && RulingsJudged(s.ledger, past)
    ensures RulingsJudged(After(s, actions).ledger, past + actions)
    decreases |actions|
  {
    hide Inv, Take, Enabled, ReportsJudged, RulingsJudged;
    if actions == [] {
      assert past + actions == past;
    } else {
      var a := actions[0];
      StepKeeps(s, a);
      ReportsStayJudged(s, a, past);
      RulingsStayJudged(s, a, past);
      RunIsJudged(Take(s, a), past + [a], actions[1..]);
      assert past + [a] + actions[1..] == past + actions;
    }
  }

  /** In every run, each stored result says of its own job what it must, in the environment of an evaluation that
      some worker made in this run. */
  lemma RulingsComeFromEvaluations(actions: seq<Action>, id: string)
    requires IsRun(INITIAL, actions)
    ensures var s := After(INITIAL, actions);
      id in s.ledger && s.ledger[id].ruling.Some? ==>
      && Judged(actions, s.ledger[id].job, s.ledger[id].ruling.value.result)
      && s.ledger[id].job.submissionId == id
      && id in s.store.results && s.store.results[id].value == s.ledger[id].ruling.value.result
  {
    hide Judged, KeysOk, LedgerOk;
    InitialInv();
    RunIsJudged(INITIAL, [], actions);
    assert [] + actions == actions;
    RunKeeps(INITIAL, actions);
    var s := After(INITIAL, actions);
    if id in s.ledger && s.ledger[id].ruling.Some? {
      StoredIsRuled(s, id);
    }
  }

  lemma StoredIsRuled(s: State, id: string)
    requires KeysOk(s.ledger, s.store.statuses, s.store.results) && LedgerOk(s.ledger, s.handlers, s.workers, s.now)
    requires id in s.ledger && s.ledger[id].ruling.Some?
    ensures id in s.store.results && s.store.results[id].value == s.ledger[id].ruling.value.result
    ensures s.ledger[id].job.submissionId == id
  {
    assert KeyOk(Find(s.store.statuses, id), Find(s.store.results, id), s.ledger[id]);
    assert EntryOk(id, s.ledger[id], s.handlers, s.workers, s.now);
  }
}
