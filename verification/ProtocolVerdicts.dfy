/** What clients see: stable verdicts, the status key, and expiry. */
module ProtocolVerdicts {
  import opened Protocol
  import opened ProtocolInvariant
  import opened Store
  import opened Verdicts
  import Evaluator

  /** The ruling of a submission, once made, is never changed, and a new one is made now. */
  predicate RulingsKept(ledger: Ledger, ledger': Ledger, now: nat) {
    && (forall id :: id in ledger && ledger[id].ruling.Some? ==>
          id in ledger' && ledger'[id].ruling == ledger[id].ruling)
    && (forall id :: id in ledger' && ledger'[id].ruling.Some? ==>
          ledger'[id].ruling.value.at == now || (id in ledger && ledger[id].ruling == ledger'[id].ruling))
  }

  lemma HandlerKeepsRulings(s: State, h: nat)
    requires h < |s.handlers| && s.handlers[h].at < 5
    ensures RulingsKept(s.ledger, HandlerDoes(s, h).ledger, s.now)
  {
    hide Perform, Answer, SubmitOps;
  }

  lemma PopKeepsRulings(s: State, w: nat)
    requires w < |s.workers|
    ensures RulingsKept(s.ledger, PopDoes(s, w).ledger, s.now)
  {
    hide Perform, Answer, Staged;
    var reply := Answer(s.store, s.now, DequeueJob);
    if reply.Job? && reply.job.Some? {
      StagedKeepsRulings(Goto(Run(s, DequeueJob), w, Starting(reply.job.value, 0)), reply.job.value.submissionId, Held(w));
    }
  }

  lemma StagedKeepsRulings(s: State, id: string, stage: Stage)
    ensures RulingsKept(s.ledger, Staged(s, id, stage).ledger, s.now)
  {
  }

  lemma JudgeKeepsRulings(s: State, w: nat)
    requires WorkersOk(s.workers, s.ledger) && LedgerOk(s.ledger, s.handlers, s.workers, s.now)
    requires w < |s.workers| && (s.workers[w].Starting? || s.workers[w].Reporting?) && s.workers[w].at < 2
    ensures RulingsKept(s.ledger, JudgeDoes(s, w).ledger, s.now)
  {
    hide JudgeDoes, LedgerOk, RecordOk;
    HeldRecord(s, w);
    if s.workers[w].Starting? {
      StartShape(s, w);
    } else if s.workers[w].at == 0 {
      RuleShape(s, w);
      RuleEntry(s, w, Ruled(s, w).ledger[s.workers[w].job.submissionId]);
    } else {
      SettleShape(s, w);
    }
  }

  lemma StepKeepsRulings(s: State, a: Action)
    requires Inv(s) && Enabled(s, a)
    ensures RulingsKept(s.ledger, Take(s, a).ledger, s.now)
  {
    hide HandlerDoes, PopDoes, JudgeDoes, LedgerOk, KeysOk, NextRead;
    match a {
      case HandlerStep(h) => HandlerKeepsRulings(s, h);
      case TryPop(w) => PopKeepsRulings(s, w);
      case JudgeStep(w) => JudgeKeepsRulings(s, w);
      case _ =>
    }
  }

  // ----- Stability -----

  /** This reader shows v for `id` whenever it reads the result key before the deadline. */
  predicate Faithful(rd: Reader, id: string, v: Verdict, deadline: nat, now: nat) {
    && (forall i :: 0 <= i < |rd.shown| ==> FaithfulShown(rd.shown[i], id, v, deadline, now))
    && (rd.phase.ReadingStatus? ==>
          rd.phase.readAt <= now && (rd.todo != [] && rd.todo[0] == id ==> deadline <= rd.phase.readAt))
  }

  predicate FaithfulShown(shown: Shown, id: string, v: Verdict, deadline: nat, now: nat) {
    shown.readAt <= now && (shown.id == id && shown.readAt < deadline ==> shown.verdict == Some(v))
  }

  /** All readers from number n on are faithful. */
  predicate AllFaithful(readers: seq<Reader>, n: nat, id: string, v: Verdict, deadline: nat, now: nat) {
    forall r :: n <= r < |readers| ==> Faithful(readers[r], id, v, deadline, now)
  }

  predicate RuledUntil(ledger: Ledger, id: string, v: Verdict, deadline: nat) {
    RuledAs(ledger, id, v) && ledger[id].ruling.value.at + RETENTION == deadline
  }

  lemma NextReadIsFaithful(rd: Reader, s: State, id: string, v: Verdict, deadline: nat)
    requires KeysOk(s.ledger, s.store.statuses, s.store.results) && RuledUntil(s.ledger, id, v, deadline)
    requires Faithful(rd, id, v, deadline, s.now) && (rd.phase.Listing? || rd.todo != [])
    ensures Faithful(NextRead(rd, s.store, s.now), id, v, deadline, s.now)
  {
    hide KeysOk;
    if rd.phase.ReadingResult? {
      ResultKeyIs(s, rd.todo[0]);
    }
  }

  lemma StepIsFaithful(s: State, a: Action, n: nat, id: string, v: Verdict, deadline: nat)
    requires Inv(s) && Enabled(s, a) && n <= |s.readers| && RuledUntil(s.ledger, id, v, deadline)
    requires AllFaithful(s.readers, n, id, v, deadline, s.now)
    ensures var s' := Take(s, a);
            n <= |s'.readers| && RuledUntil(s'.ledger, id, v, deadline) &&
            AllFaithful(s'.readers, n, id, v, deadline, s'.now)
  {
    hide Inv, Take, Enabled, NextRead, Faithful, KeysOk;
    StepKeepsRulings(s, a);
    ReadersAfter(s, a);
    KeysOfInv(s);
    var s' := Take(s, a);
    forall r | n <= r < |s'.readers| ensures Faithful(s'.readers[r], id, v, deadline, s'.now) {
      if r < |s.readers| {
        if a.ReaderStep? && a.r == r {
          NextReadIsFaithful(s.readers[r], s, id, v, deadline);
        } else {
          FaithfulLater(s.readers[r], id, v, deadline, s.now, s'.now);
        }
      } else {
        NewReaderIsFaithful(s'.readers[r], id, v, deadline, s'.now);
      }
    }
  }

  lemma FaithfulLater(rd: Reader, id: string, v: Verdict, deadline: nat, now: nat, now': nat)
    requires Faithful(rd, id, v, deadline, now) && now <= now'
    ensures Faithful(rd, id, v, deadline, now')
  {
    assert forall i :: 0 <= i < |rd.shown| ==> FaithfulShown(rd.shown[i], id, v, deadline, now);
  }

  lemma NewReaderIsFaithful(rd: Reader, id: string, v: Verdict, deadline: nat, now: nat)
    requires rd.shown == [] && !rd.phase.ReadingStatus?
    ensures Faithful(rd, id, v, deadline, now)
  {
  }

  lemma KeysOfInv(s: State)
    requires Inv(s)
    ensures KeysOk(s.ledger, s.store.statuses, s.store.results) && LedgerOk(s.ledger, s.handlers, s.workers, s.now)
  {
    hide KeysOk, LedgerOk;
  }

  /** Only a reader's own step moves it, and time does not run backwards. */
  lemma ReadersAfter(s: State, a: Action)
    requires Enabled(s, a)
    ensures var s' := Take(s, a);
            && s.now <= s'.now && |s.readers| <= |s'.readers|
            && (forall r :: 0 <= r < |s.readers| && !(a.ReaderStep? && a.r == r) ==> s'.readers[r] == s.readers[r])
            && (a.ReaderStep? ==>
                  (s.readers[a.r].phase.Listing? || s.readers[a.r].todo != []) &&
                  s'.readers[a.r] == NextRead(s.readers[a.r], s.store, s.now) && s'.now == s.now)
            && (forall r :: |s.readers| <= r < |s'.readers| ==>
                  s'.readers[r].shown == [] && !s'.readers[r].phase.ReadingStatus?)
  {
    hide NextRead, Perform, HandlerDoes, JudgeDoes, PopDoes;
    match a {
      case HandlerStep(h) => HandlerLeavesReaders(s, h);
      case TryPop(w) => PopLeavesReaders(s, w);
      case JudgeStep(w) => JudgeLeavesReaders(s, w);
      case _ =>
    }
  }

  lemma HandlerLeavesReaders(s: State, h: nat)
    requires h < |s.handlers| && s.handlers[h].at < 5
    ensures HandlerDoes(s, h).readers == s.readers && HandlerDoes(s, h).now == s.now
  {
    hide Perform, Answer, SubmitOps;
  }

  lemma PopLeavesReaders(s: State, w: nat)
    requires w < |s.workers|
    ensures PopDoes(s, w).readers == s.readers && PopDoes(s, w).now == s.now
  {
    hide Perform, Answer, Staged;
    var reply := Answer(s.store, s.now, DequeueJob);
    if reply.Job? && reply.job.Some? {
      var s1 := Goto(Run(s, DequeueJob), w, Starting(reply.job.value, 0));
      StagedLeavesReaders(s1, reply.job.value.submissionId, Held(w));
    }
  }

  lemma StagedLeavesReaders(s: State, id: string, stage: Stage)
    ensures Staged(s, id, stage).readers == s.readers && Staged(s, id, stage).now == s.now
  {
  }

  lemma JudgeLeavesReaders(s: State, w: nat)
    requires w < |s.workers| && (s.workers[w].Starting? || s.workers[w].Reporting?) && s.workers[w].at < 2
    ensures JudgeDoes(s, w).readers == s.readers && JudgeDoes(s, w).now == s.now
  {
    hide Perform, ReportOps, StartOps, Writing;
    match s.workers[w] {
      case Starting(job, at) =>
      case Reporting(job, result, at) =>
    }
  }

  lemma {:induction false} RunIsFaithful(s: State, actions: seq<Action>, n: nat, id: string, v: Verdict, deadline: nat)
    requires Inv(s) && IsRun(s, actions) && n <= |s.readers| && RuledUntil(s.ledger, id, v, deadline)
    requires AllFaithful(s.readers, n, id, v, deadline, s.now)
    ensures var s' := After(s, actions);
            RuledUntil(s'.ledger, id, v, deadline) && AllFaithful(s'.readers, n, id, v, deadline, s'.now)
    decreases |actions|
  {
    hide Inv, Take, Enabled, AllFaithful, RuledUntil;
    if actions != [] {
      StepKeeps(s, actions[0]);
      StepIsFaithful(s, actions[0], n, id, v, deadline);
      RunIsFaithful(Take(s, actions[0]), actions[1..], n, id, v, deadline);
    }
  }

  /** Terminal stability, with expiry.  If some reader has shown a terminal verdict of a submission, the
      submission has a ruling; and whatever happens next, every reader that starts later and reads the
      result key within 86400 s of that ruling shows the same verdict, even where the status key has
      moved back to PENDING. */
  lemma TerminalVerdictsAreStable(s: State, actions: seq<Action>, first: Shown, later: Shown)
    requires Reachable(s) && IsRun(s, actions)
    requires exists r, i :: 0 <= r < |s.readers| && 0 <= i < |s.readers[r].shown| && s.readers[r].shown[i] == first
    requires var s' := After(s, actions);
             exists r, i :: |s.readers| <= r < |s'.readers| && 0 <= i < |s'.readers[r].shown| &&
               s'.readers[r].shown[i] == later
    requires first.verdict.Some? && Terminal(first.verdict.value) && later.id == first.id
    ensures RuledAs(s.ledger, first.id, first.verdict.value)
    ensures later.readAt < s.ledger[first.id].ruling.value.at + RETENTION ==> later.verdict == first.verdict
    ensures After(s, actions).now < s.ledger[first.id].ruling.value.at + RETENTION ==> later.verdict == first.verdict
  {
    hide LedgerOk, KeysOk;
    ReachableInv(s);
    assert OneShownOk(first, s.ledger);
    var id, v := first.id, first.verdict.value;
    var deadline := s.ledger[id].ruling.value.at + RETENTION;
    RunIsFaithful(s, actions, |s.readers|, id, v, deadline);
    var s' := After(s, actions);
    var r, i :| |s.readers| <= r < |s'.readers| && 0 <= i < |s'.readers[r].shown| && s'.readers[r].shown[i] == later;
    assert Faithful(s'.readers[r], id, v, deadline, s'.now);
    assert FaithfulShown(later, id, v, deadline, s'.now);
  }

  // ----- Reads after the ruling -----

  /** A read at time t comes after the ruling of this submission and before its result expires. */
  predicate InTime(ledger: Ledger, id: string, t: nat) {
    && id in ledger && ledger[id].ruling.Some?
    && ledger[id].ruling.value.at < t < ledger[id].ruling.value.at + 86400
  }

  predicate PunctualShown(shown: Shown, ledger: Ledger, now: nat) {
    && shown.readAt <= now
    && (InTime(ledger, shown.id, shown.readAt) ==>
          shown.verdict == Some(ledger[shown.id].ruling.value.result.verdict))
  }

  /** Every line shown after a read in time has the ruled verdict, and a reader that has gone on to the status
      key did not read in time. */
  predicate Punctual(rd: Reader, ledger: Ledger, now: nat) {
    && (forall i :: 0 <= i < |rd.shown| ==> PunctualShown(rd.shown[i], ledger, now))
    && (rd.phase.ReadingStatus? ==>
          rd.phase.readAt <= now && (rd.todo != [] ==> !InTime(ledger, rd.todo[0], rd.phase.readAt)))
  }

  predicate AllPunctual(readers: seq<Reader>, ledger: Ledger, now: nat) {
    forall r :: 0 <= r < |readers| ==> Punctual(readers[r], ledger, now)
  }

  lemma NoLaterRuling(ledger: Ledger, ledger': Ledger, now: nat, id: string, t: nat)
    requires RulingsKept(ledger, ledger', now) && t <= now && InTime(ledger', id, t)
    ensures InTime(ledger, id, t) && ledger[id].ruling == ledger'[id].ruling
  {
  }

  lemma PunctualLater(rd: Reader, ledger: Ledger, ledger': Ledger, now: nat, now': nat)
    requires Punctual(rd, ledger, now) && RulingsKept(ledger, ledger', now) && now <= now'
    ensures Punctual(rd, ledger', now')
  {
    hide RulingsKept, InTime;
    forall i | 0 <= i < |rd.shown| ensures PunctualShown(rd.shown[i], ledger', now') {
      var shown := rd.shown[i];
      assert PunctualShown(shown, ledger, now);
      if InTime(ledger', shown.id, shown.readAt) {
        NoLaterRuling(ledger, ledger', now, shown.id, shown.readAt);
      }
    }
    if rd.phase.ReadingStatus? && rd.todo != [] && InTime(ledger', rd.todo[0], rd.phase.readAt) {
      NoLaterRuling(ledger, ledger', now, rd.todo[0], rd.phase.readAt);
    }
  }

  lemma NextReadIsPunctual(rd: Reader, s: State)
    requires KeysOk(s.ledger, s.store.statuses, s.store.results)
    requires Punctual(rd, s.ledger, s.now) && (rd.phase.Listing? || rd.todo != [])
    ensures Punctual(NextRead(rd, s.store, s.now), s.ledger, s.now)
  {
    hide KeysOk, Live;
    if rd.phase.ReadingResult? {
      ResultKeyIs(s, rd.todo[0]);
    }
    var next := NextRead(rd, s.store, s.now);
    forall i | 0 <= i < |next.shown| ensures PunctualShown(next.shown[i], s.ledger, s.now) {
      if i < |rd.shown| {
        assert PunctualShown(rd.shown[i], s.ledger, s.now);
      }
    }
  }

  lemma StepIsPunctual(s: State, a: Action)
    requires Inv(s) && Enabled(s, a) && AllPunctual(s.readers, s.ledger, s.now)
    ensures AllPunctual(Take(s, a).readers, Take(s, a).ledger, Take(s, a).now)
  {
    hide Inv, Take, Enabled, NextRead, Punctual, KeysOk, RulingsKept;
    StepKeepsRulings(s, a);
    ReadersAfter(s, a);
    KeysOfInv(s);
    var s' := Take(s, a);
    forall r | 0 <= r < |s'.readers| ensures Punctual(s'.readers[r], s'.ledger, s'.now) {
      if r < |s.readers| {
        if a.ReaderStep? && a.r == r {
          NextReadIsPunctual(s.readers[r], s);
          PunctualLater(s'.readers[r], s.ledger, s'.ledger, s.now, s'.now);
        } else {
          PunctualLater(s.readers[r], s.ledger, s'.ledger, s.now, s'.now);
        }
      } else {
        NewReaderIsPunctual(s'.readers[r], s'.ledger, s'.now);
      }
    }
  }

  lemma NewReaderIsPunctual(rd: Reader, ledger: Ledger, now: nat)
    requires rd.shown == [] && !rd.phase.ReadingStatus?
    ensures Punctual(rd, ledger, now)
  {
  }

  lemma {:induction false} RunIsPunctual(s: State, actions: seq<Action>)
    requires Inv(s) && IsRun(s, actions) && AllPunctual(s.readers, s.ledger, s.now)
    ensures var s' := After(s, actions); AllPunctual(s'.readers, s'.ledger, s'.now)
    decreases |actions|
  {
    hide Inv, Take, Enabled, AllPunctual;
    if actions != [] {
      StepKeeps(s, actions[0]);
      StepIsPunctual(s, actions[0]);
      RunIsPunctual(Take(s, actions[0]), actions[1..]);
    }
  }

  /** In every reachable state, every line that any reader has shown after a read of the result key later than
      the ruling and within 86400 s of it has the ruled verdict: whoever read first, whenever the reader
      began, and whatever the status key says. */
  lemma ReadsInTimeShowTheVerdict(s: State, r: nat, i: nat)
    requires Reachable(s) && r < |s.readers| && i < |s.readers[r].shown|
    ensures var shown := s.readers[r].shown[i];
            InTime(s.ledger, shown.id, shown.readAt) ==>
            shown.verdict == Some(s.ledger[shown.id].ruling.value.result.verdict)
  {
    hide Inv;
    var actions :| IsRun(INITIAL, actions) && s == After(INITIAL, actions);
    InitialInv();
    RunIsPunctual(INITIAL, actions);
    assert Punctual(s.readers[r], s.ledger, s.now);
    assert PunctualShown(s.readers[r].shown[i], s.ledger, s.now);
  }

  /** The same for the read itself, in the order of events and so also within the second of the ruling: once
      there is a ruling, a read of the result key shows its verdict until 86400 s have passed, and from then
      on finds nothing. */
  lemma ReadAfterRuling(s: State, rd: Reader)
    requires Reachable(s) && rd.phase.ReadingResult? && rd.todo != []
    requires rd.todo[0] in s.ledger && s.ledger[rd.todo[0]].ruling.Some?
    ensures var ruling := s.ledger[rd.todo[0]].ruling.value;
            NextRead(rd, s.store, s.now) ==
            if s.now < ruling.at + 86400 then Showing(rd, s.now, Some(ruling.result.verdict))
            else rd.(phase := ReadingStatus(s.now))
  {
    hide KeysOk, LedgerOk, Showing, Live;
    ReachableInv(s);
    ResultKeyIs(s, rd.todo[0]);
  }

  // ----- The status key -----

  /** Over the whole life of a submission its worker writes COMPILING, RUNNING and the ruled verdict, in
      that order and no more; the API writes PENDING once, at any time after the enqueue. */
  lemma StatusWritesInOrder(s: State, id: string)
    requires Reachable(s) && id in s.ledger
    ensures var r := s.ledger[id];
            && (r.stage == Settled ==>
                  r.ruling.Some? &&
                  WrittenBy(Judge, r.trail) == [Compiling, Running, r.ruling.value.result.verdict])
            && (r.stage != Settled ==> WrittenBy(Judge, r.trail) <= [Compiling, Running])
            && (r.stage == Drafted || r.stage == Queued ==> WrittenBy(Judge, r.trail) == [])
            && r.handler < |s.handlers| && s.handlers[r.handler].job == r.job
            && WrittenBy(Api, r.trail) == (if s.handlers[r.handler].at <= 1 then [] else [Pending])
  {
    hide KeysOk;
    ReachableInv(s);
    var r := s.ledger[id];
    assert EntryOk(id, r, s.handlers, s.workers, s.now);
    TrailByStage(id, r, s.handlers[r.handler], Holder(s.workers, r), s.now);
  }

  lemma TrailByStage(id: string, r: Record, hd: Handler, pc: WorkerPc, now: nat)
    requires RecordOk(id, r, hd, pc, now)
    ensures r.stage == Settled ==>
              r.ruling.Some? && WrittenBy(Judge, r.trail) == [Compiling, Running, r.ruling.value.result.verdict]
    ensures r.stage != Settled ==> WrittenBy(Judge, r.trail) <= [Compiling, Running]
    ensures r.stage == Drafted || r.stage == Queued ==> WrittenBy(Judge, r.trail) == []
  {
  }

  /** A terminal status is the verdict of a result that is already stored. */
  lemma TerminalStatusImpliesResult(s: State, id: string, v: Verdict)
    requires Reachable(s) && Live(s.store.statuses, id, s.now) == Some(v) && Terminal(v)
    ensures id in s.store.results && s.store.results[id].value.verdict == v
    ensures s.store.results[id].value.submissionId == id
  {
    hide KeysOk, LedgerOk;
    ReachableInv(s);
    LiveStatus(s, id);
    KeyOfRuling(s, id);
  }

  lemma KeyOfRuling(s: State, id: string)
    requires KeysOk(s.ledger, s.store.statuses, s.store.results) && LedgerOk(s.ledger, s.handlers, s.workers, s.now)
    requires id in s.ledger && s.ledger[id].ruling.Some?
    ensures var ruling := s.ledger[id].ruling.value;
            && id in s.store.results && s.store.results[id] == Timed(ruling.result, ruling.at + RETENTION)
            && ruling.result.submissionId == id && Terminal(ruling.result.verdict) && ruling.at <= s.now
  {
    assert KeyOk(Find(s.store.statuses, id), Find(s.store.results, id), s.ledger[id]);
    assert EntryOk(id, s.ledger[id], s.handlers, s.workers, s.now);
  }

  lemma {:induction false} LastOf(trail: seq<Write>)
    requires trail != []
    ensures var last := trail[|trail| - 1];
            WrittenBy(last.writer, trail) != [] &&
            WrittenBy(last.writer, trail)[|WrittenBy(last.writer, trail)| - 1] == last.verdict
  {
  }

  /** When both sides are done with a submission, its status key was last written with the ruled verdict,
      or with PENDING exactly when the API's write came last. */
  lemma StatusAtQuiescence(s: State, id: string)
    requires Reachable(s) && id in s.ledger && s.ledger[id].stage == Settled
    ensures var r := s.ledger[id];
            && r.trail != [] && r.ruling.Some? && id in s.store.statuses
            && s.store.statuses[id].value ==
               (if r.trail[|r.trail| - 1].writer == Api then Pending else r.ruling.value.result.verdict)
            && (s.store.statuses[id].value == Pending <==> r.trail[|r.trail| - 1].writer == Api)
  {
    hide KeysOk, LedgerOk, RecordOk;
    ReachableInv(s);
    StatusWritesInOrder(s, id);
    var r := s.ledger[id];
    LastOf(r.trail);
    KeyOfRuling(s, id);
    StatusKeyValue(s, id);
  }

  lemma StatusKeyValue(s: State, id: string)
    requires KeysOk(s.ledger, s.store.statuses, s.store.results) && id in s.ledger && s.ledger[id].trail != []
    ensures var last := s.ledger[id].trail[|s.ledger[id].trail| - 1];
            id in s.store.statuses && s.store.statuses[id] == Timed(last.verdict, last.at + RETENTION)
  {
    assert KeyOk(Find(s.store.statuses, id), Find(s.store.results, id), s.ledger[id]);
  }

  // ----- Expiry -----

  /** After the API's status write, and so after every 202, a reader finds neither key only once 86400 s
      have passed since the last status write. */
  lemma NotFoundOnlyAfterExpiry(s: State, r: nat)
    requires Reachable(s) && r < |s.readers| && s.readers[r].phase.ReadingStatus? && s.readers[r].todo != []
    requires s.readers[r].todo[0] in s.ledger
    requires var rec := s.ledger[s.readers[r].todo[0]]; rec.handler < |s.handlers| && s.handlers[rec.handler].at >= 2
    ensures var trail := s.ledger[s.readers[r].todo[0]].trail;
            var shown := NextRead(s.readers[r], s.store, s.now).shown;
            && trail != [] && shown != []
            && (shown[|shown| - 1].verdict == None <==> s.now >= trail[|trail| - 1].at + 86400)
  {
    hide KeysOk, LedgerOk;
    ReachableInv(s);
    var id := s.readers[r].todo[0];
    StatusWritesInOrder(s, id);
    StatusKeyIs(s, id);
  }

  /** If the worker's verdict was the last write, the status key keeps it readable for 86400 s from that
      write, so it never expires before the result. */
  lemma StatusOutlivesResult(s: State, id: string)
    requires Reachable(s) && id in s.ledger && s.ledger[id].stage == Settled && s.ledger[id].trail != []
    requires s.ledger[id].trail[|s.ledger[id].trail| - 1].writer == Judge
    ensures var r, last := s.ledger[id], s.ledger[id].trail[|s.ledger[id].trail| - 1];
            && r.ruling.Some? && last.verdict == r.ruling.value.result.verdict
            && Live(s.store.statuses, id, s.now) == (if s.now < last.at + 86400 then Some(last.verdict) else None)
            && r.ruling.value.at + RETENTION <= last.at + RETENTION
            && (Live(s.store.results, id, s.now).Some? ==>
                  Live(s.store.statuses, id, s.now) == Some(r.ruling.value.result.verdict))
  {
    hide KeysOk, LedgerOk;
    ReachableInv(s);
    StatusWritesInOrder(s, id);
    LastOf(s.ledger[id].trail);
    KeyOfRuling(s, id);
    StatusKeyIs(s, id);
    ResultKeyIs(s, id);
    LastWriteOk(s, id);
  }

  /** A late PENDING write moves the status key back after the verdict, and the result key still shows
      the verdict: exactly the situation in which readers rely on reading the result first. */
  lemma LatePendingIsInvisible(s: State, h: nat, id: string)
    requires Reachable(s) && h < |s.handlers| && s.handlers[h].at == 1 && id == s.handlers[h].job.submissionId
    requires id in s.ledger && s.ledger[id].stage == Settled
    ensures var s' := Take(s, HandlerStep(h));
            && Live(s'.store.statuses, id, s'.now) == Some(Pending)
            && Live(s'.store.results, id, s'.now) == Live(s.store.results, id, s.now)
  {
    hide Inv, HandlerDoes;
    PendingShape(s, h);
  }
}
