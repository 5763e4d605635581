/** The bounded history of each user (shared/src/auth.cpp, record_submission and get_user_submissions)
    refines the unbounded one, whatever pushes and trims of many handlers interleave. */
module ProtocolHistory {
  import opened Protocol
  import opened ProtocolInvariant
  import opened Store
  import opened Verdicts
  import Evaluator

  /** The stored history is a prefix of the full one, short only by what may be trimmed. */
  predicate HistoryOk(kept: seq<string>, full: seq<string>, pending: nat) {
    && kept <= full
    && (|full| <= |kept| || 100 <= |kept|)
    && |kept| <= 100 + pending
  }

  ghost predicate HistoriesOk(s: State) {
    forall user: string :: HistoryOk(HistoryOf(s.store, user), ListOf(s.full, user), PendingTrims(s.handlers, user))
  }

  function One(hd: Handler, user: string): nat {
    if hd.at == 3 && hd.job.username == user then 1 else 0
  }

  lemma {:induction false} PendingTrimsUpdate(handlers: seq<Handler>, h: nat, hd: Handler, user: string)
    requires h < |handlers|
    ensures PendingTrims(handlers[h := hd], user) + One(handlers[h], user) == PendingTrims(handlers, user) + One(hd, user)
  {
    var n := |handlers| - 1;
    if h == n {
      assert handlers[h := hd][..n] == handlers[..n];
    } else {
      assert handlers[h := hd][..n] == handlers[..n][h := hd];
      PendingTrimsUpdate(handlers[..n], h, hd, user);
    }
  }

  lemma OtherOpsLeaveHistories(s: Store, now: nat, op: Op)
    requires !op.PushHistory? && !op.TrimHistory?
    ensures Perform(s, now, op).histories == s.histories
  {
  }

  lemma PushHistoryEffect(s: Store, now: nat, u: string, id: string, user: string)
    ensures HistoryOf(Perform(s, now, PushHistory(u, id)), user) ==
            if u == user then [id] + HistoryOf(s, user) else HistoryOf(s, user)
  {
  }

  lemma TrimHistoryEffect(s: Store, now: nat, u: string, user: string)
    ensures HistoryOf(Perform(s, now, TrimHistory(u)), user) ==
            if u == user then Slice(HistoryOf(s, user), 0, HISTORY_LIMIT - 1) else HistoryOf(s, user)
  {
  }

  lemma HandlerFields(s: State, h: nat)
    requires h < |s.handlers| && s.handlers[h].at < 5
    ensures var s', hd := HandlerDoes(s, h), s.handlers[h];
            && s'.store == Perform(s.store, s.now, SubmitOps(hd.job)[hd.at])
            && s'.full == (if hd.at == 2 then s.full[hd.job.username := [hd.job.submissionId] + ListOf(s.full, hd.job.username)]
                           else s.full)
            && s'.handlers[h].job == hd.job && s'.handlers[h].at == hd.at + 1
            && s'.handlers == s.handlers[h := s'.handlers[h]]
  {
    hide Perform, Answer, SubmitOps;
  }

  /** What one handler step does to one user's history. */
  lemma HistoryEffect(s: State, h: nat, user: string)
    requires h < |s.handlers| && s.handlers[h].at < 5
    ensures var s', hd := HandlerDoes(s, h), s.handlers[h];
            var mine := hd.job.username == user;
            && HistoryOf(s'.store, user) ==
               (if mine && hd.at == 2 then [hd.job.submissionId] + HistoryOf(s.store, user)
                else if mine && hd.at == 3 then Slice(HistoryOf(s.store, user), 0, HISTORY_LIMIT - 1)
                else HistoryOf(s.store, user))
            && ListOf(s'.full, user) ==
               (if mine && hd.at == 2 then [hd.job.submissionId] + ListOf(s.full, user) else ListOf(s.full, user))
            && s'.handlers[h].job == hd.job && s'.handlers[h].at == hd.at + 1
            && s'.handlers == s.handlers[h := s'.handlers[h]]
  {
    hide HandlerDoes, Perform, Slice;
    HandlerFields(s, h);
    var hd := s.handlers[h];
    if hd.at == 2 {
      PushHistoryEffect(s.store, s.now, hd.job.username, hd.job.submissionId, user);
    } else if hd.at == 3 {
      TrimHistoryEffect(s.store, s.now, hd.job.username, user);
    } else {
      OtherOpsLeaveHistories(s.store, s.now, SubmitOps(hd.job)[hd.at]);
    }
  }

  lemma HandlerKeepsHistories(s: State, h: nat)
    requires HistoriesOk(s) && h < |s.handlers| && s.handlers[h].at < 5
    ensures HistoriesOk(HandlerDoes(s, h))
  {
    hide HandlerDoes;
    var s' := HandlerDoes(s, h);
    forall user: string
      ensures HistoryOk(HistoryOf(s'.store, user), ListOf(s'.full, user), PendingTrims(s'.handlers, user))
    {
      HistoryEffect(s, h, user);
      PendingTrimsUpdate(s.handlers, h, s'.handlers[h], user);
      assert HistoryOk(HistoryOf(s.store, user), ListOf(s.full, user), PendingTrims(s.handlers, user));
    }
  }

  lemma SubmittedKeepsHistories(s: State, job: SubmissionJob)
    requires HistoriesOk(s)
    ensures HistoriesOk(Submitted(s, job))
  {
    var s' := Submitted(s, job);
    assert s'.handlers[..|s.handlers|] == s.handlers;
    assert forall user: string :: HistoryOk(HistoryOf(s.store, user), ListOf(s.full, user), PendingTrims(s.handlers, user));
  }

  /** No other step touches a history or the handlers. */
  lemma OthersLeaveHistories(s: State, a: Action)
    requires Enabled(s, a) && !a.HandlerStep? && !a.BeginSubmit?
    ensures Take(s, a).store.histories == s.store.histories && Take(s, a).full == s.full
    ensures Take(s, a).handlers == s.handlers
  {
    hide Perform, JudgeDoes, PopDoes, NextRead;
    match a {
      case JudgeStep(w) => JudgeLeavesHistories(s, w);
      case TryPop(w) => PopLeavesHistories(s, w);
      case AuthTraffic(op) => OtherOpsLeaveHistories(s.store, s.now, op);
      case _ =>
    }
  }

  lemma PopLeavesHistories(s: State, w: nat)
    requires w < |s.workers|
    ensures var s' := PopDoes(s, w);
            s'.store.histories == s.store.histories && s'.full == s.full && s'.handlers == s.handlers
  {
    hide Perform, Answer;
    OtherOpsLeaveHistories(s.store, s.now, DequeueJob);
  }

  lemma JudgeLeavesHistories(s: State, w: nat)
    requires w < |s.workers| && (s.workers[w].Starting? || s.workers[w].Reporting?) && s.workers[w].at < 2
    ensures var s' := JudgeDoes(s, w);
            s'.store.histories == s.store.histories && s'.full == s.full && s'.handlers == s.handlers
  {
    hide Perform, Writing;
    var pc := s.workers[w];
    if pc.Starting? {
      OtherOpsLeaveHistories(s.store, s.now, StartOps(pc.job)[pc.at]);
    } else {
      OtherOpsLeaveHistories(s.store, s.now, ReportOps(pc.job, pc.result)[pc.at]);
    }
  }

  lemma {:induction false} RunKeepsHistories(s: State, actions: seq<Action>)
    requires HistoriesOk(s) && IsRun(s, actions)
    ensures HistoriesOk(After(s, actions))
    decreases |actions|
  {
    hide HandlerDoes, JudgeDoes, PopDoes, Submitted, HistoryOk;
    if actions != [] {
      var a := actions[0];
      if a.HandlerStep? {
        HandlerKeepsHistories(s, a.h);
      } else if a.BeginSubmit? {
        SubmittedKeepsHistories(s, a.job);
      } else {
        OthersLeaveHistories(s, a);
        assert forall user: string :: HistoryOf(Take(s, a).store, user) == HistoryOf(s.store, user);
      }
      RunKeepsHistories(Take(s, a), actions[1..]);
    }
  }

  /** In every reachable state the stored history of every user is a prefix of all that user's accepted
      submissions, newest first; it holds at least 100 of them or all, and at most 100 plus one for each
      handler that has still to trim. */
  lemma BoundedHistoryRefines(s: State, user: string)
    requires Reachable(s)
    ensures HistoryOk(HistoryOf(s.store, user), ListOf(s.full, user), PendingTrims(s.handlers, user))
  {
    var actions :| IsRun(INITIAL, actions) && s == After(INITIAL, actions);
    assert HistoriesOk(INITIAL);
    RunKeepsHistories(INITIAL, actions);
  }

  /** So the page a user sees is the page of the untrimmed history, at every moment. */
  lemma PageIsUnaffectedByTrimming(s: State, user: string)
    requires Reachable(s)
    ensures var full := ListOf(s.full, user);
            Answer(s.store, s.now, RangeHistory(user, HISTORY_PAGE)) ==
            Ids(if |full| <= 50 then full else full[..50])
  {
    BoundedHistoryRefines(s, user);
    var kept, full := HistoryOf(s.store, user), ListOf(s.full, user);
    assert kept == full[..|kept|];
  }

  // ----- What the full history lists -----

  /** Handler hd has pushed this submission to this user's history. */
  predicate HasPushed(hd: Handler, user: string, id: string) {
    hd.at >= 3 && hd.job.username == user && hd.job.submissionId == id
  }

  predicate IsListed(handlers: seq<Handler>, user: string, id: string) {
    exists h :: 0 <= h < |handlers| && HasPushed(handlers[h], user, id)
  }

  ghost predicate FullOk(s: State) {
    forall user: string, id: string :: id in ListOf(s.full, user) <==> IsListed(s.handlers, user, id)
  }

  lemma ListedNext(handlers: seq<Handler>, h: nat, hd: Handler, user: string, id: string)
    requires h < |handlers| && hd.job == handlers[h].job && hd.at == handlers[h].at + 1
    ensures IsListed(handlers[h := hd], user, id) <==> IsListed(handlers, user, id) || (hd.at == 3 && HasPushed(hd, user, id))
  {
    var handlers' := handlers[h := hd];
    if IsListed(handlers, user, id) {
      var k :| 0 <= k < |handlers| && HasPushed(handlers[k], user, id);
      assert HasPushed(handlers'[k], user, id);
    }
    if HasPushed(hd, user, id) {
      assert handlers'[h] == hd;
    }
    if IsListed(handlers', user, id) && !(hd.at == 3 && HasPushed(hd, user, id)) {
      var k :| 0 <= k < |handlers| && HasPushed(handlers'[k], user, id);
      assert HasPushed(handlers[k], user, id);
    }
  }

  lemma HandlerKeepsFull(s: State, h: nat)
    requires FullOk(s) && h < |s.handlers| && s.handlers[h].at < 5
    ensures FullOk(HandlerDoes(s, h))
  {
    hide HandlerDoes, IsListed;
    var s' := HandlerDoes(s, h);
    forall user: string, id: string ensures id in ListOf(s'.full, user) <==> IsListed(s'.handlers, user, id) {
      HistoryEffect(s, h, user);
      ListedNext(s.handlers, h, s'.handlers[h], user, id);
    }
  }

  lemma SubmittedKeepsFull(s: State, job: SubmissionJob)
    requires FullOk(s)
    ensures FullOk(Submitted(s, job))
  {
    var s' := Submitted(s, job);
    forall user: string, id: string ensures IsListed(s'.handlers, user, id) <==> IsListed(s.handlers, user, id) {
      assert forall h :: 0 <= h < |s.handlers| ==> s'.handlers[h] == s.handlers[h];
      if IsListed(s.handlers, user, id) {
        var h :| 0 <= h < |s.handlers| && HasPushed(s.handlers[h], user, id);
        assert HasPushed(s'.handlers[h], user, id);
      }
    }
  }

  lemma {:induction false} RunKeepsFull(s: State, actions: seq<Action>)
    requires FullOk(s) && IsRun(s, actions)
    ensures FullOk(After(s, actions))
    decreases |actions|
  {
    hide HandlerDoes, JudgeDoes, PopDoes, Submitted, IsListed, NextRead;
    if actions != [] {
      var a := actions[0];
      if a.HandlerStep? {
        HandlerKeepsFull(s, a.h);
      } else if a.BeginSubmit? {
        SubmittedKeepsFull(s, a.job);
      } else {
        OthersLeaveHistories(s, a);
      }
      RunKeepsFull(Take(s, a), actions[1..]);
    }
  }

  /** The full history of a user lists exactly the submissions that this user's handlers have recorded. */
  lemma FullHistoryIsSubmissions(s: State, user: string, id: string)
    requires Reachable(s)
    ensures id in ListOf(s.full, user) <==> IsListed(s.handlers, user, id)
  {
    hide IsListed;
    var actions :| IsRun(INITIAL, actions) && s == After(INITIAL, actions);
    assert FullOk(INITIAL) by { NothingListed(); }
    RunKeepsFull(INITIAL, actions);
  }

  lemma NothingListed()
    ensures FullOk(INITIAL)
  {
  }
}
