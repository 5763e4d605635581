/** What every step of the judging protocol keeps. */
module ProtocolInvariant {
  import opened Protocol
  import opened Store
  import opened Verdicts
  import Evaluator

  /** The verdicts a worker has written to the status key of its job, by where it stands. */
  function WrittenAt(pc: WorkerPc): seq<Verdict> {
    match pc
    case Starting(_, at) => if at == 0 then [] else [Compiling]
    case Evaluating(_) => [Compiling, Running]
    case Reporting(_, _, _) => [Compiling, Running]
    case _ => []
  }

  type Ledger = map<string, Record>

  /** The worker that holds a submission, if one does. */
  function Holder(workers: seq<WorkerPc>, r: Record): WorkerPc {
    if r.stage.Held? && r.stage.worker < |workers| then workers[r.stage.worker] else Exited
  }

  predicate PcOk(pc: WorkerPc) {
    match pc
    case Starting(_, at) => at < 2
    case Reporting(job, result, at) => at < 2 && result.submissionId == job.submissionId && Terminal(result.verdict)
    case _ => true
  }

  /** The ledger knows the job, in this stage. */
  predicate Known(ledger: Ledger, job: SubmissionJob, stage: Stage) {
    job.submissionId in ledger && ledger[job.submissionId].job == job && ledger[job.submissionId].stage == stage
  }

  predicate HandlersOk(handlers: seq<Handler>, ledger: Ledger) {
    forall h :: 0 <= h < |handlers| ==> HandlerOk(h, handlers[h], ledger)
  }

  predicate HandlerOk(h: nat, hd: Handler, ledger: Ledger) {
    var id := hd.job.submissionId;
    hd.at <= 5 && id in ledger && ledger[id].handler == h && ledger[id].job == hd.job
  }

  predicate WorkersOk(workers: seq<WorkerPc>, ledger: Ledger) {
    forall w :: 0 <= w < |workers| ==> WorkerOk(w, workers[w], ledger)
  }

  predicate WorkerOk(w: nat, pc: WorkerPc, ledger: Ledger) {
    PcOk(pc) && (JobOf(pc).Some? ==> Known(ledger, JobOf(pc).value, Held(w)))
  }

  predicate QueueOk(queue: seq<SubmissionJob>, ledger: Ledger) {
    && (forall k :: 0 <= k < |queue| ==> Known(ledger, queue[k], Queued))
    && (forall j, k :: 0 <= j < k < |queue| ==> queue[j].submissionId != queue[k].submissionId)
  }

  predicate LedgerOk(ledger: Ledger, handlers: seq<Handler>, workers: seq<WorkerPc>, now: nat) {
    forall id :: id in ledger ==> EntryOk(id, ledger[id], handlers, workers, now)
  }

  predicate EntryOk(id: string, r: Record, handlers: seq<Handler>, workers: seq<WorkerPc>, now: nat) {
    r.handler < |handlers| && RecordOk(id, r, handlers[r.handler], Holder(workers, r), now)
  }

  /** The keys of the store hold the last status write and the ruling of each submission. */
  predicate KeysOk(ledger: Ledger, statuses: map<string, Timed<Verdict>>, results: map<string, Timed<SubmissionResult>>) {
    && (forall id :: id in ledger ==> KeyOk(Find(statuses, id), Find(results, id), ledger[id]))
    && statuses.Keys <= ledger.Keys && results.Keys <= ledger.Keys
  }

  predicate KeyOk(status: Option<Timed<Verdict>>, result: Option<Timed<SubmissionResult>>, r: Record) {
    status == StatusImage(r.trail) && result == ResultImage(r.ruling)
  }

  function StatusImage(trail: seq<Write>): Option<Timed<Verdict>> {
    if trail == [] then None
    else Some(Timed(trail[|trail| - 1].verdict, trail[|trail| - 1].at + RETENTION))
  }

  function ResultImage(ruling: Option<Ruling>): Option<Timed<SubmissionResult>> {
    if ruling.None? then None else Some(Timed(ruling.value.result, ruling.value.at + RETENTION))
  }

  /** One submission, its handler and the worker that holds it agree. */
  predicate RecordOk(id: string, r: Record, hd: Handler, pc: WorkerPc, now: nat) {
    && r.job.submissionId == id && hd.job == r.job
    && (hd.at == 0 <==> r.stage == Drafted)
    && (r.stage.Held? ==> JobOf(pc) == Some(r.job))
    && RulingOk(id, r, pc, now)
    && TrailOk(r, hd, pc, now)
  }

  /** The result is stored when the worker has only its last write to do, and stays. */
  predicate RulingOk(id: string, r: Record, pc: WorkerPc, now: nat) {
    && (r.ruling.Some? <==> r.stage == Settled || (r.stage.Held? && pc.Reporting? && pc.at == 1))
    && (r.ruling.Some? ==>
          r.ruling.value.at <= now && Terminal(r.ruling.value.result.verdict) &&
          r.ruling.value.result.submissionId == id)
    && (r.ruling.Some? && r.stage.Held? && pc.Reporting? ==> r.ruling.value.result == pc.result)
  }

  predicate TrailOk(r: Record, hd: Handler, pc: WorkerPc, now: nat) {
    && WrittenBy(Api, r.trail) == (if hd.at <= 1 then [] else [Pending])
    && WrittenBy(Judge, r.trail) ==
       (if r.stage == Settled && r.ruling.Some? then [Compiling, Running, r.ruling.value.result.verdict]
        else if r.stage.Held? then WrittenAt(pc) else [])
    && (forall i :: 0 <= i < |r.trail| ==> WriteOk(r.trail[i], r.ruling, now))
  }

  /** Writes lie in the past, the API writes only PENDING, and a terminal status repeats an earlier ruling. */
  predicate WriteOk(w: Write, ruling: Option<Ruling>, now: nat) {
    && w.at <= now
    && (w.writer == Api ==> w.verdict == Pending)
    && (Terminal(w.verdict) ==>
          ruling.Some? && ruling.value.result.verdict == w.verdict && ruling.value.at <= w.at)
  }

  predicate PushedOk(pushed: seq<SubmissionJob>, ledger: Ledger) {
    && (forall k :: 0 <= k < |pushed| ==> PushedJobOk(pushed[k], ledger))
    && (forall j, k :: 0 <= j < k < |pushed| ==> pushed[j].submissionId != pushed[k].submissionId)
  }

  predicate PushedJobOk(job: SubmissionJob, ledger: Ledger) {
    job.submissionId in ledger && ledger[job.submissionId].stage != Drafted && ledger[job.submissionId].job == job
  }

  predicate FinishedOk(finished: seq<SubmissionJob>, ledger: Ledger) {
    forall k :: 0 <= k < |finished| ==> Known(ledger, finished[k], Settled)
  }

  /** A terminal verdict that was shown is the verdict of a stored result. */
  predicate ShownOk(readers: seq<Reader>, ledger: Ledger) {
    forall r, i :: 0 <= r < |readers| && 0 <= i < |readers[r].shown| ==> OneShownOk(readers[r].shown[i], ledger)
  }

  predicate OneShownOk(shown: Shown, ledger: Ledger) {
    shown.verdict.Some? && Terminal(shown.verdict.value) ==> RuledAs(ledger, shown.id, shown.verdict.value)
  }

  predicate RuledAs(ledger: Ledger, id: string, v: Verdict) {
    id in ledger && ledger[id].ruling.Some? && ledger[id].ruling.value.result.verdict == v
  }

  ghost predicate Inv(s: State) {
    && HandlersOk(s.handlers, s.ledger)
    && WorkersOk(s.workers, s.ledger)
    && QueueOk(s.store.queue, s.ledger)
    && LedgerOk(s.ledger, s.handlers, s.workers, s.now)
    && KeysOk(s.ledger, s.store.statuses, s.store.results)
    && PushedOk(s.pushed, s.ledger)
    && FinishedOk(s.finished, s.ledger)
    && ShownOk(s.readers, s.ledger)
    && (s.workers != [] ==> s.started) && (s.running ==> s.started)
  }

  lemma InitialInv()
    ensures Inv(INITIAL)
  {
  }

  lemma {:induction false} WrittenByAppend(writer: Writer, trail: seq<Write>, w: Write)
    ensures WrittenBy(writer, trail + [w]) == WrittenBy(writer, trail) + if w.writer == writer then [w.verdict] else []
  {
    assert (trail + [w])[..|trail|] == trail;
  }

  // ----- Steps of the pool and of the environment -----

  lemma RecordLater(id: string, r: Record, hd: Handler, pc: WorkerPc, now: nat, now': nat)
    requires RecordOk(id, r, hd, pc, now) && now <= now'
    ensures RecordOk(id, r, hd, pc, now')
  {
    assert TrailOk(r, hd, pc, now') by {
      assert forall i :: 0 <= i < |r.trail| ==> WriteOk(r.trail[i], r.ruling, now);
    }
  }

  /** Time passes and workers that hold nothing move: the records stay right. */
  lemma LedgerFrame(ledger: Ledger, handlers: seq<Handler>, workers: seq<WorkerPc>, now: nat,
                    workers': seq<WorkerPc>, now': nat)
    requires LedgerOk(ledger, handlers, workers, now) && now <= now'
    requires forall id :: id in ledger && ledger[id].stage.Held? ==> Holder(workers', ledger[id]) == Holder(workers, ledger[id])
    ensures LedgerOk(ledger, handlers, workers', now')
  {
    forall id | id in ledger ensures EntryOk(id, ledger[id], handlers, workers', now') {
      var r := ledger[id];
      RecordLater(id, r, handlers[r.handler], Holder(workers, r), now, now');
    }
  }

  lemma NoWorkersYet(s: State)
    requires Inv(s)
    ensures !s.started ==> s.workers == [] && !s.running
  {
  }

  lemma StartPoolKeeps(s: State, count: nat)
    requires Inv(s) && !s.started
    ensures Inv(PoolStarted(s, count))
  {
    hide KeysOk, QueueOk, PushedOk, FinishedOk, ShownOk;
    assert s.workers == [];
    LedgerFrame(s.ledger, s.handlers, s.workers, s.now, PoolStarted(s, count).workers, s.now);
  }

  /** Moving a worker that holds no job to another place where it holds none. */
  lemma IdleMoveKeeps(s: State, w: nat, pc: WorkerPc)
    requires Inv(s) && w < |s.workers| && JobOf(s.workers[w]).None? && JobOf(pc).None?
    ensures Inv(Goto(s, w, pc))
  {
    forall id | id in s.ledger && s.ledger[id].stage.Held?
      ensures Holder(s.workers[w := pc], s.ledger[id]) == Holder(s.workers, s.ledger[id])
    {
      var r := s.ledger[id];
      OtherRecord(id, r, s.handlers[r.handler], Holder(s.workers, r), s.now);
    }
    LedgerFrame(s.ledger, s.handlers, s.workers, s.now, s.workers[w := pc], s.now);
  }

  lemma ElapseKeeps(s: State, seconds: nat)
    requires Inv(s)
    ensures Inv(s.(now := s.now + seconds))
  {
    hide KeysOk, QueueOk;
    LedgerFrame(s.ledger, s.handlers, s.workers, s.now, s.workers, s.now + seconds);
  }

  lemma AuthTrafficKeeps(s: State, op: Op)
    requires Inv(s) && IsAuthOp(op)
    ensures Inv(Take(s, AuthTraffic(op)))
  {
  }

  // ----- Readers -----

  lemma BeginReaderKeeps(s: State, rd: Reader)
    requires Inv(s) && rd.shown == []
    ensures Inv(s.(readers := s.readers + [rd]))
  {
  }

  lemma LastWriteOk(s: State, id: string)
    requires LedgerOk(s.ledger, s.handlers, s.workers, s.now) && id in s.ledger && s.ledger[id].trail != []
    ensures var r := s.ledger[id]; WriteOk(r.trail[|r.trail| - 1], r.ruling, s.now)
  {
    var r := s.ledger[id];
    RecordWriteOk(id, r, s.handlers[r.handler], Holder(s.workers, r), s.now, |r.trail| - 1);
  }

  lemma RecordWriteOk(id: string, r: Record, hd: Handler, pc: WorkerPc, now: nat, i: nat)
    requires RecordOk(id, r, hd, pc, now) && i < |r.trail|
    ensures WriteOk(r.trail[i], r.ruling, now)
  {
  }

  /** A terminal status key repeats the verdict of a ruling. */
  lemma LiveStatus(s: State, id: string)
    requires LedgerOk(s.ledger, s.handlers, s.workers, s.now) && KeysOk(s.ledger, s.store.statuses, s.store.results)
    ensures var v := Live(s.store.statuses, id, s.now);
            v.Some? && Terminal(v.value) ==> RuledAs(s.ledger, id, v.value)
  {
    if id in s.ledger {
      StatusKeyIs(s, id);
      if s.ledger[id].trail != [] {
        LastWriteOk(s, id);
      }
    }
  }

  lemma StatusKeyIs(s: State, id: string)
    requires KeysOk(s.ledger, s.store.statuses, s.store.results) && id in s.ledger
    ensures var trail := s.ledger[id].trail;
            Live(s.store.statuses, id, s.now) ==
            if trail != [] && s.now < trail[|trail| - 1].at + RETENTION then Some(trail[|trail| - 1].verdict) else None
  {
    assert KeyOk(Find(s.store.statuses, id), Find(s.store.results, id), s.ledger[id]);
  }

  lemma ShowingOk(rd: Reader, readAt: nat, verdict: Option<Verdict>, ledger: Ledger)
    requires rd.todo != [] && OneShownOk(Shown(rd.todo[0], readAt, verdict), ledger)
    requires forall i :: 0 <= i < |rd.shown| ==> OneShownOk(rd.shown[i], ledger)
    ensures var shown := Showing(rd, readAt, verdict).shown;
            forall i :: 0 <= i < |shown| ==> OneShownOk(shown[i], ledger)
  {
  }

  lemma ResultKeyIs(s: State, id: string)
    requires KeysOk(s.ledger, s.store.statuses, s.store.results)
    ensures var v := Live(s.store.results, id, s.now);
            if id !in s.ledger || s.ledger[id].ruling.None? then v == None
            else v == if s.now < s.ledger[id].ruling.value.at + RETENTION
                      then Some(s.ledger[id].ruling.value.result) else None
  {
    if id in s.ledger {
      assert KeyOk(Find(s.store.statuses, id), Find(s.store.results, id), s.ledger[id]);
    }
  }

  /** What a reader shows is what the store holds: a ruling's verdict, or the last status write. */
  lemma NextReadOk(rd: Reader, s: State)
    requires LedgerOk(s.ledger, s.handlers, s.workers, s.now) && KeysOk(s.ledger, s.store.statuses, s.store.results)
    requires (rd.phase.Listing? || rd.todo != [])
    requires forall i :: 0 <= i < |rd.shown| ==> OneShownOk(rd.shown[i], s.ledger)
    ensures var shown := NextRead(rd, s.store, s.now).shown;
            forall i :: 0 <= i < |shown| ==> OneShownOk(shown[i], s.ledger)
  {
    hide LedgerOk, KeysOk, Live, RuledAs;
    match rd.phase {
      case Listing(_) =>
      case ReadingResult =>
        ResultKeyIs(s, rd.todo[0]);
        var v := Live(s.store.results, rd.todo[0], s.now);
        if v.Some? {
          ShowingOk(rd, s.now, Some(v.value.verdict), s.ledger);
        }
      case ReadingStatus(readAt) =>
        LiveStatus(s, rd.todo[0]);
        ShowingOk(rd, readAt, Live(s.store.statuses, rd.todo[0], s.now), s.ledger);
    }
  }

  lemma ReaderStepKeeps(s: State, r: nat)
    requires Inv(s) && Enabled(s, ReaderStep(r))
    ensures Inv(Take(s, ReaderStep(r)))
  {
    NextReadOk(s.readers[r], s);
  }

  // ----- One record changes -----

  /** The step from `ledger` to `ledger'` concerns submission `id` only, and no ruling is ever changed. */
  predicate Follows(ledger: Ledger, ledger': Ledger, id: string) {
    && ledger'.Keys == ledger.Keys + {id}
    && (forall x :: x in ledger && x != id ==> ledger'[x] == ledger[x])
    && (id in ledger ==> ledger'[id].job == ledger[id].job && ledger'[id].handler == ledger[id].handler)
    && (id in ledger && ledger[id].ruling.Some? ==> ledger'[id].ruling == ledger[id].ruling)
  }

  /** The stage of `id` stays, or was not `stage` before. */
  predicate Unstaged(ledger: Ledger, ledger': Ledger, id: string, stage: Stage) {
    id in ledger && id in ledger' ==> ledger'[id].stage == ledger[id].stage || ledger[id].stage != stage
  }

  lemma HandlersFrame(handlers: seq<Handler>, ledger: Ledger, ledger': Ledger, id: string)
    requires HandlersOk(handlers, ledger) && Follows(ledger, ledger', id)
    ensures HandlersOk(handlers, ledger')
  {
  }

  lemma WorkersFrame(workers: seq<WorkerPc>, ledger: Ledger, ledger': Ledger, id: string)
    requires WorkersOk(workers, ledger) && Follows(ledger, ledger', id)
    requires id in ledger && ledger[id].stage.Held? ==> ledger'[id].stage == ledger[id].stage
    ensures WorkersOk(workers, ledger')
  {
    forall w | 0 <= w < |workers| ensures WorkerOk(w, workers[w], ledger') {
      assert WorkerOk(w, workers[w], ledger);
    }
  }

  lemma QueueFrame(queue: seq<SubmissionJob>, ledger: Ledger, ledger': Ledger, id: string)
    requires QueueOk(queue, ledger) && Follows(ledger, ledger', id) && Unstaged(ledger, ledger', id, Queued)
    ensures QueueOk(queue, ledger')
  {
  }

  lemma PushedFrame(pushed: seq<SubmissionJob>, ledger: Ledger, ledger': Ledger, id: string)
    requires PushedOk(pushed, ledger) && Follows(ledger, ledger', id)
    requires id in ledger && ledger[id].stage != Drafted ==> ledger'[id].stage != Drafted
    ensures PushedOk(pushed, ledger')
  {
  }

  lemma FinishedFrame(finished: seq<SubmissionJob>, ledger: Ledger, ledger': Ledger, id: string)
    requires FinishedOk(finished, ledger) && Follows(ledger, ledger', id) && Unstaged(ledger, ledger', id, Settled)
    ensures FinishedOk(finished, ledger')
  {
  }

  lemma ShownFrame(readers: seq<Reader>, ledger: Ledger, ledger': Ledger, id: string)
    requires ShownOk(readers, ledger) && Follows(ledger, ledger', id)
    ensures ShownOk(readers, ledger')
  {
    forall r, i | 0 <= r < |readers| && 0 <= i < |readers[r].shown| ensures OneShownOk(readers[r].shown[i], ledger') {
      assert OneShownOk(readers[r].shown[i], ledger);
    }
  }

  predicate HoldsOther(pc: WorkerPc, id: string) {
    JobOf(pc).Some? && JobOf(pc).value.submissionId != id
  }

  /** The handlers of other submissions stay. */
  predicate SameHandlers(handlers: seq<Handler>, handlers': seq<Handler>, id: string) {
    |handlers| <= |handlers'| &&
    forall h :: 0 <= h < |handlers| && handlers[h].job.submissionId != id ==> handlers'[h] == handlers[h]
  }

  /** The workers that hold other submissions stay. */
  predicate SameWorkers(workers: seq<WorkerPc>, workers': seq<WorkerPc>, id: string) {
    |workers'| == |workers| &&
    forall w :: 0 <= w < |workers| && HoldsOther(workers[w], id) ==> workers'[w] == workers[w]
  }

  /** Only record `id` is touched: its handler, its worker and itself agree again, and the others still do. */
  lemma LedgerStep(ledger: Ledger, ledger': Ledger, id: string, handlers: seq<Handler>, handlers': seq<Handler>,
                   workers: seq<WorkerPc>, workers': seq<WorkerPc>, now: nat)
    requires LedgerOk(ledger, handlers, workers, now) && Follows(ledger, ledger', id)
    requires SameHandlers(handlers, handlers', id) && SameWorkers(workers, workers', id)
    requires EntryOk(id, ledger'[id], handlers', workers', now)
    ensures LedgerOk(ledger', handlers', workers', now)
  {
    forall x | x in ledger' && x != id ensures EntryOk(x, ledger'[x], handlers', workers', now) {
      EntryStep(x, ledger[x], id, handlers, handlers', workers, workers', now);
    }
  }

  lemma EntryStep(x: string, r: Record, id: string, handlers: seq<Handler>, handlers': seq<Handler>,
                  workers: seq<WorkerPc>, workers': seq<WorkerPc>, now: nat)
    requires EntryOk(x, r, handlers, workers, now) && x != id
    requires SameHandlers(handlers, handlers', id) && SameWorkers(workers, workers', id)
    ensures EntryOk(x, r, handlers', workers', now)
  {
    OtherRecord(x, r, handlers[r.handler], Holder(workers, r), now);
    assert handlers'[r.handler] == handlers[r.handler];
    assert Holder(workers', r) == Holder(workers, r);
  }

  lemma OtherRecord(x: string, r: Record, hd: Handler, pc: WorkerPc, now: nat)
    requires RecordOk(x, r, hd, pc, now)
    ensures hd.job.submissionId == x
    ensures r.stage.Held? ==> JobOf(pc).Some? && JobOf(pc).value.submissionId == x
  {
  }

  /** The store's keys of the other submissions are untouched. */
  lemma KeysStep(ledger: Ledger, ledger': Ledger, id: string,
                 statuses: map<string, Timed<Verdict>>, statuses': map<string, Timed<Verdict>>,
                 results: map<string, Timed<SubmissionResult>>, results': map<string, Timed<SubmissionResult>>)
    requires KeysOk(ledger, statuses, results) && Follows(ledger, ledger', id)
    requires statuses'.Keys <= statuses.Keys + {id} && results'.Keys <= results.Keys + {id}
    requires forall x :: x in ledger && x != id ==>
               Find(statuses', x) == Find(statuses, x) && Find(results', x) == Find(results, x)
    requires KeyOk(Find(statuses', id), Find(results', id), ledger'[id])
    ensures KeysOk(ledger', statuses', results')
  {
  }

  // ----- Submit handlers -----

  lemma FreshRecordOk(job: SubmissionJob, h: nat, now: nat)
    ensures RecordOk(job.submissionId, Record(job, h, Drafted, [], None), Handler(job, 0, 0), Exited, now)
  {
  }

  lemma SubmittedEntry(s: State, job: SubmissionJob)
    requires KeysOk(s.ledger, s.store.statuses, s.store.results) && job.submissionId !in s.ledger
    ensures var s', id := Submitted(s, job), job.submissionId;
            Follows(s.ledger, s'.ledger, id) && EntryOk(id, s'.ledger[id], s'.handlers, s'.workers, s'.now) &&
            KeyOk(Find(s'.store.statuses, id), Find(s'.store.results, id), s'.ledger[id]) &&
            SameHandlers(s.handlers, s'.handlers, id) && SameWorkers(s.workers, s.workers, id) &&
            HandlerOk(|s.handlers|, s'.handlers[|s.handlers|], s'.ledger)
  {
    FreshRecordOk(job, |s.handlers|, s.now);
  }

  lemma BeginSubmitKeeps(s: State, job: SubmissionJob)
    requires Inv(s) && job.submissionId !in s.ledger
    ensures Inv(Submitted(s, job))
  {
    hide EntryOk, KeysOk;
    var s', id := Submitted(s, job), job.submissionId;
    SubmittedEntry(s, job);
    HandlersFrame(s.handlers, s.ledger, s'.ledger, id);
    WorkersFrame(s.workers, s.ledger, s'.ledger, id);
    QueueFrame(s.store.queue, s.ledger, s'.ledger, id);
    PushedFrame(s.pushed, s.ledger, s'.ledger, id);
    FinishedFrame(s.finished, s.ledger, s'.ledger, id);
    ShownFrame(s.readers, s.ledger, s'.ledger, id);
    LedgerStep(s.ledger, s'.ledger, id, s.handlers, s'.handlers, s.workers, s'.workers, s.now);
    KeysStep(s.ledger, s'.ledger, id, s.store.statuses, s'.store.statuses, s.store.results, s'.store.results);
  }

  lemma RecordEnqueued(id: string, r: Record, hd: Handler, now: nat)
    requires RecordOk(id, r, hd, Exited, now) && hd.at == 0
    ensures RecordOk(id, r.(stage := Queued), hd.(at := 1), Exited, now)
  {
    assert TrailOk(r.(stage := Queued), hd.(at := 1), Exited, now);
  }

  lemma RecordPending(id: string, r: Record, hd: Handler, pc: WorkerPc, now: nat)
    requires RecordOk(id, r, hd, pc, now) && hd.at == 1
    ensures RecordOk(id, Writing(r, Write(Api, Pending, now)), hd.(at := 2), pc, now)
  {
    WrittenByAppend(Api, r.trail, Write(Api, Pending, now));
    WrittenByAppend(Judge, r.trail, Write(Api, Pending, now));
    assert TrailOk(Writing(r, Write(Api, Pending, now)), hd.(at := 2), pc, now);
  }

  lemma RecordAdvanced(id: string, r: Record, hd: Handler, pc: WorkerPc, now: nat, position: int)
    requires RecordOk(id, r, hd, pc, now) && hd.at >= 2
    ensures RecordOk(id, r, hd.(at := hd.at + 1, position := position), pc, now)
  {
    assert TrailOk(r, hd.(at := hd.at + 1, position := position), pc, now);
  }

  /** Facts about a handler's own record. */
  lemma OwnRecord(s: State, h: nat)
    requires HandlersOk(s.handlers, s.ledger) && LedgerOk(s.ledger, s.handlers, s.workers, s.now) && h < |s.handlers|
    ensures var hd := s.handlers[h]; var id := hd.job.submissionId;
            id in s.ledger && s.ledger[id].handler == h && s.ledger[id].job == hd.job && hd.at <= 5 &&
            RecordOk(id, s.ledger[id], hd, Holder(s.workers, s.ledger[id]), s.now)
  {
    assert HandlerOk(h, s.handlers[h], s.ledger);
    var id := s.handlers[h].job.submissionId;
    assert EntryOk(id, s.ledger[id], s.handlers, s.workers, s.now);
  }

  lemma HandlersStep(handlers: seq<Handler>, ledger: Ledger, h: nat, hd: Handler)
    requires HandlersOk(handlers, ledger) && h < |handlers| && hd.job == handlers[h].job && hd.at <= 5
    ensures HandlersOk(handlers[h := hd], ledger) && SameHandlers(handlers, handlers[h := hd], hd.job.submissionId)
  {
    var handlers' := handlers[h := hd];
    forall g | 0 <= g < |handlers| ensures HandlerOk(g, handlers'[g], ledger) {
      assert HandlerOk(g, handlers[g], ledger);
    }
  }

  lemma NewlyQueued(queue: seq<SubmissionJob>, pushed: seq<SubmissionJob>, ledger: Ledger, ledger': Ledger, job: SubmissionJob)
    requires QueueOk(queue, ledger) && PushedOk(pushed, ledger) && Follows(ledger, ledger', job.submissionId)
    requires Known(ledger, job, Drafted) && Known(ledger', job, Queued)
    ensures QueueOk([job] + queue, ledger') && PushedOk(pushed + [job], ledger')
  {
    QueueFrame(queue, ledger, ledger', job.submissionId);
    PushedFrame(pushed, ledger, ledger', job.submissionId);
    assert forall k :: 0 <= k < |queue| ==> Known(ledger, queue[k], Queued);
    assert forall k :: 0 <= k < |pushed| ==> PushedJobOk(pushed[k], ledger);
  }

  lemma EnqueuedShape(s: State, h: nat)
    requires h < |s.handlers| && s.handlers[h].at == 0 && s.handlers[h].job.submissionId in s.ledger
    ensures var s', hd, id := HandlerDoes(s, h), s.handlers[h], s.handlers[h].job.submissionId;
            && s'.ledger == s.ledger[id := s.ledger[id].(stage := Queued)]
            && s' == s.(store := s.store.(queue := [hd.job] + s.store.queue), handlers := s.handlers[h := hd.(at := 1)],
                        pushed := s.pushed + [hd.job], ledger := s'.ledger)
  {
  }

  lemma EnqueuedEntry(s: State, h: nat, ledger': Ledger)
    requires HandlersOk(s.handlers, s.ledger) && LedgerOk(s.ledger, s.handlers, s.workers, s.now)
    requires KeysOk(s.ledger, s.store.statuses, s.store.results) && h < |s.handlers| && s.handlers[h].at == 0
    requires var id := s.handlers[h].job.submissionId;
             id in s.ledger && ledger' == s.ledger[id := s.ledger[id].(stage := Queued)]
    ensures var hd, id := s.handlers[h], s.handlers[h].job.submissionId;
            && Follows(s.ledger, ledger', id)
            && EntryOk(id, ledger'[id], s.handlers[h := hd.(at := 1)], s.workers, s.now)
            && KeyOk(Find(s.store.statuses, id), Find(s.store.results, id), ledger'[id])
            && Known(s.ledger, hd.job, Drafted) && Known(ledger', hd.job, Queued)
            && SameWorkers(s.workers, s.workers, id)
  {
    OwnRecord(s, h);
    var id := s.handlers[h].job.submissionId;
    RecordEnqueued(id, s.ledger[id], s.handlers[h], s.now);
    assert KeyOk(Find(s.store.statuses, id), Find(s.store.results, id), s.ledger[id]);
  }

  /** The handler's LPUSH moves its submission from drafted to queued. */
  lemma EnqueueKeeps(s: State, h: nat)
    requires Inv(s) && h < |s.handlers| && s.handlers[h].at == 0
    ensures Inv(HandlerDoes(s, h))
  {
    hide EntryOk, KeysOk;
    var s', hd, id := HandlerDoes(s, h), s.handlers[h], s.handlers[h].job.submissionId;
    assert HandlerOk(h, hd, s.ledger);
    EnqueuedShape(s, h);
    EnqueuedEntry(s, h, s'.ledger);
    HandlersStep(s.handlers, s.ledger, h, hd.(at := 1));
    HandlersFrame(s'.handlers, s.ledger, s'.ledger, id);
    WorkersFrame(s.workers, s.ledger, s'.ledger, id);
    NewlyQueued(s.store.queue, s.pushed, s.ledger, s'.ledger, hd.job);
    FinishedFrame(s.finished, s.ledger, s'.ledger, id);
    ShownFrame(s.readers, s.ledger, s'.ledger, id);
    LedgerStep(s.ledger, s'.ledger, id, s.handlers, s'.handlers, s.workers, s.workers, s.now);
    KeysStep(s.ledger, s'.ledger, id, s.store.statuses, s.store.statuses, s.store.results, s.store.results);
  }

  /** A step that amends one record without moving it to another stage. */
  lemma AmendKeeps(s: State, s': State, id: string)
    requires Inv(s) && id in s.ledger && Follows(s.ledger, s'.ledger, id)
    requires s'.ledger[id].stage == s.ledger[id].stage
    requires s'.store.queue == s.store.queue && s'.pushed == s.pushed && s'.finished == s.finished
    requires s'.readers == s.readers && s'.started == s.started && s'.running == s.running && s'.now == s.now
    requires HandlersOk(s'.handlers, s.ledger) && WorkersOk(s'.workers, s.ledger)
    requires SameHandlers(s.handlers, s'.handlers, id) && SameWorkers(s.workers, s'.workers, id)
    requires EntryOk(id, s'.ledger[id], s'.handlers, s'.workers, s.now)
    requires KeysOk(s'.ledger, s'.store.statuses, s'.store.results)
    ensures Inv(s')
  {
    hide EntryOk, KeysOk, Known;
    HandlersFrame(s'.handlers, s.ledger, s'.ledger, id);
    WorkersFrame(s'.workers, s.ledger, s'.ledger, id);
    QueueFrame(s.store.queue, s.ledger, s'.ledger, id);
    PushedFrame(s.pushed, s.ledger, s'.ledger, id);
    FinishedFrame(s.finished, s.ledger, s'.ledger, id);
    ShownFrame(s.readers, s.ledger, s'.ledger, id);
    LedgerStep(s.ledger, s'.ledger, id, s.handlers, s'.handlers, s.workers, s'.workers, s.now);
  }

  /** A status write and its note in the trail. */
  lemma StatusWriteKeys(ledger: Ledger, ledger': Ledger, id: string, w: Write,
                        statuses: map<string, Timed<Verdict>>, statuses': map<string, Timed<Verdict>>,
                        results: map<string, Timed<SubmissionResult>>)
    requires KeysOk(ledger, statuses, results) && id in ledger
    requires statuses' == statuses[id := Timed(w.verdict, w.at + RETENTION)]
    requires ledger' == ledger[id := Writing(ledger[id], w)]
    ensures Follows(ledger, ledger', id) && KeysOk(ledger', statuses', results)
  {
    assert KeyOk(Find(statuses, id), Find(results, id), ledger[id]);
    assert KeyOk(Find(statuses', id), Find(results, id), ledger'[id]);
    KeysStep(ledger, ledger', id, statuses, statuses', results, results);
  }

  lemma EntryFrom(id: string, r: Record, handlers: seq<Handler>, hd: Handler, workers: seq<WorkerPc>, now: nat)
    requires r.handler < |handlers| && RecordOk(id, r, hd, Holder(workers, r), now)
    ensures EntryOk(id, r, handlers[r.handler := hd], workers, now)
  {
  }

  lemma PendingShape(s: State, h: nat)
    requires h < |s.handlers| && s.handlers[h].at == 1 && s.handlers[h].job.submissionId in s.ledger
    ensures var s', hd, id := HandlerDoes(s, h), s.handlers[h], s.handlers[h].job.submissionId;
            && s'.ledger == s.ledger[id := Writing(s.ledger[id], Write(Api, Pending, s.now))]
            && s' == s.(store := s.store.(statuses := s.store.statuses[id := Timed(Pending, s.now + RETENTION)]),
                        handlers := s.handlers[h := hd.(at := 2)], ledger := s'.ledger)
  {
  }

  lemma PendingEntry(s: State, h: nat, r': Record)
    requires HandlersOk(s.handlers, s.ledger) && LedgerOk(s.ledger, s.handlers, s.workers, s.now)
    requires h < |s.handlers| && s.handlers[h].at == 1
    requires var id := s.handlers[h].job.submissionId;
             id in s.ledger && r' == Writing(s.ledger[id], Write(Api, Pending, s.now))
    ensures EntryOk(s.handlers[h].job.submissionId, r', s.handlers[h := s.handlers[h].(at := 2)], s.workers, s.now)
  {
    OwnRecord(s, h);
    var id := s.handlers[h].job.submissionId;
    RecordPending(id, s.ledger[id], s.handlers[h], Holder(s.workers, s.ledger[id]), s.now);
    EntryFrom(id, r', s.handlers, s.handlers[h].(at := 2), s.workers, s.now);
  }

  /** The handler's SET of PENDING, whenever it comes. */
  lemma PendingKeeps(s: State, h: nat)
    requires Inv(s) && h < |s.handlers| && s.handlers[h].at == 1
    ensures Inv(HandlerDoes(s, h))
  {
    hide EntryOk, KeysOk;
    var s', hd, id := HandlerDoes(s, h), s.handlers[h], s.handlers[h].job.submissionId;
    assert HandlerOk(h, hd, s.ledger);
    PendingShape(s, h);
    PendingEntry(s, h, s'.ledger[id]);
    StatusWriteKeys(s.ledger, s'.ledger, id, Write(Api, Pending, s.now), s.store.statuses, s'.store.statuses, s.store.results);
    HandlersStep(s.handlers, s.ledger, h, hd.(at := 2));
    AmendKeeps(s, s', id);
  }

  lemma AfterPendingShape(s: State, h: nat)
    requires h < |s.handlers| && 2 <= s.handlers[h].at < 5
    ensures var s', hd := HandlerDoes(s, h), s.handlers[h];
            && s'.store == s.store.(histories := s'.store.histories)
            && s' == s.(store := s'.store, full := s'.full,
                        handlers := s.handlers[h := hd.(at := hd.at + 1, position := s'.handlers[h].position)])
  {
    var hd := s.handlers[h];
    if hd.at == 2 {
      assert SubmitOps(hd.job)[2] == PushHistory(hd.job.username, hd.job.submissionId);
    } else if hd.at == 3 {
      assert SubmitOps(hd.job)[3] == TrimHistory(hd.job.username);
    } else {
      assert SubmitOps(hd.job)[4] == QueueLength;
    }
  }

  lemma AfterPendingEntry(s: State, h: nat, hd': Handler)
    requires HandlersOk(s.handlers, s.ledger) && LedgerOk(s.ledger, s.handlers, s.workers, s.now)
    requires h < |s.handlers| && s.handlers[h].at >= 2
    requires hd' == s.handlers[h].(at := s.handlers[h].at + 1, position := hd'.position)
    ensures var id := s.handlers[h].job.submissionId;
            && id in s.ledger && Follows(s.ledger, s.ledger, id)
            && EntryOk(id, s.ledger[id], s.handlers[h := hd'], s.workers, s.now)
            && SameWorkers(s.workers, s.workers, id)
  {
    OwnRecord(s, h);
    var id := s.handlers[h].job.submissionId;
    RecordAdvanced(id, s.ledger[id], s.handlers[h], Holder(s.workers, s.ledger[id]), s.now, hd'.position);
  }

  /** The handler's history commands and its LLEN. */
  lemma AfterPendingKeeps(s: State, h: nat)
    requires Inv(s) && h < |s.handlers| && 2 <= s.handlers[h].at < 5
    ensures Inv(HandlerDoes(s, h))
  {
    hide EntryOk, KeysOk;
    var s' := HandlerDoes(s, h);
    AfterPendingShape(s, h);
    AfterPendingEntry(s, h, s'.handlers[h]);
    HandlersStep(s.handlers, s.ledger, h, s'.handlers[h]);
    AmendKeeps(s, s', s.handlers[h].job.submissionId);
  }

  // ----- Workers -----

  /** Facts about the record of the job that a worker holds. */
  lemma HeldRecord(s: State, w: nat)
    requires WorkersOk(s.workers, s.ledger) && LedgerOk(s.ledger, s.handlers, s.workers, s.now)
    requires w < |s.workers| && JobOf(s.workers[w]).Some?
    ensures var job := JobOf(s.workers[w]).value; var id := job.submissionId;
            PcOk(s.workers[w]) && Known(s.ledger, job, Held(w)) && s.ledger[id].handler < |s.handlers| &&
            RecordOk(id, s.ledger[id], s.handlers[s.ledger[id].handler], s.workers[w], s.now)
  {
    assert WorkerOk(w, s.workers[w], s.ledger);
    var id := JobOf(s.workers[w]).value.submissionId;
    assert EntryOk(id, s.ledger[id], s.handlers, s.workers, s.now);
  }

  lemma HeldEntry(id: string, r: Record, handlers: seq<Handler>, workers: seq<WorkerPc>, w: nat, pc: WorkerPc, now: nat)
    requires w < |workers| && r.handler < |handlers| && r.stage == Held(w)
    requires RecordOk(id, r, handlers[r.handler], pc, now)
    ensures EntryOk(id, r, handlers, workers[w := pc], now)
  {
  }

  lemma WorkersStep(workers: seq<WorkerPc>, ledger: Ledger, w: nat, pc: WorkerPc, id: string)
    requires WorkersOk(workers, ledger) && w < |workers| && WorkerOk(w, pc, ledger)
    requires JobOf(workers[w]).None? || Holds(workers[w], id)
    ensures WorkersOk(workers[w := pc], ledger) && SameWorkers(workers, workers[w := pc], id)
  {
    var workers' := workers[w := pc];
    forall v | 0 <= v < |workers| ensures WorkerOk(v, workers'[v], ledger) {
      assert WorkerOk(v, workers[v], ledger);
    }
  }

  lemma SameHandlersRefl(handlers: seq<Handler>, id: string)
    ensures SameHandlers(handlers, handlers, id)
  {
  }

  /** The worker's first two writes. */
  function StartVerdict(pc: WorkerPc): Verdict {
    if pc.Starting? && pc.at == 0 then Compiling else Running
  }

  function NextStart(pc: WorkerPc): WorkerPc {
    if pc.Starting? then (if pc.at == 0 then Starting(pc.job, 1) else Evaluating(pc.job)) else pc
  }

  lemma RecordStarted(id: string, r: Record, hd: Handler, pc: WorkerPc, now: nat)
    requires RecordOk(id, r, hd, pc, now) && pc.Starting? && pc.at < 2 && r.stage.Held?
    ensures RecordOk(id, Writing(r, Write(Judge, StartVerdict(pc), now)), hd, NextStart(pc), now)
  {
    hide WrittenBy;
    var w := Write(Judge, StartVerdict(pc), now);
    WrittenByAppend(Api, r.trail, w);
    WrittenByAppend(Judge, r.trail, w);
    assert WrittenAt(NextStart(pc)) == WrittenAt(pc) + [StartVerdict(pc)];
    assert TrailOk(Writing(r, w), hd, NextStart(pc), now);
  }

  lemma RecordEvaluated(id: string, r: Record, hd: Handler, pc: WorkerPc, now: nat, result: SubmissionResult)
    requires RecordOk(id, r, hd, pc, now) && pc.Evaluating? && r.stage.Held?
    ensures RecordOk(id, r, hd, Reporting(pc.job, result, 0), now)
  {
    assert TrailOk(r, hd, Reporting(pc.job, result, 0), now);
  }

  lemma RecordRuled(id: string, r: Record, hd: Handler, pc: WorkerPc, now: nat)
    requires RecordOk(id, r, hd, pc, now) && pc.Reporting? && pc.at == 0 && PcOk(pc) && r.stage.Held?
    ensures RecordOk(id, r.(ruling := Some(Ruling(pc.result, now))), hd, Reporting(pc.job, pc.result, 1), now)
    ensures r.ruling.None?
  {
    var r' := r.(ruling := Some(Ruling(pc.result, now)));
    assert TrailOk(r', hd, Reporting(pc.job, pc.result, 1), now) by {
      assert forall i :: 0 <= i < |r.trail| ==> WriteOk(r.trail[i], r.ruling, now);
    }
  }

  lemma RecordSettled(id: string, r: Record, hd: Handler, pc: WorkerPc, now: nat)
    requires RecordOk(id, r, hd, pc, now) && pc.Reporting? && pc.at == 1 && PcOk(pc) && r.stage.Held?
    ensures RecordOk(id, Writing(r, Write(Judge, pc.result.verdict, now)).(stage := Settled), hd, Exited, now)
  {
    var w := Write(Judge, pc.result.verdict, now);
    WrittenByAppend(Api, r.trail, w);
    WrittenByAppend(Judge, r.trail, w);
    assert TrailOk(Writing(r, w).(stage := Settled), hd, Exited, now);
  }

  lemma RecordPopped(id: string, r: Record, hd: Handler, now: nat, w: nat)
    requires RecordOk(id, r, hd, Exited, now) && r.stage == Queued
    ensures RecordOk(id, r.(stage := Held(w)), hd, Starting(r.job, 0), now)
  {
    assert TrailOk(r.(stage := Held(w)), hd, Starting(r.job, 0), now);
  }

  predicate Holds(pc: WorkerPc, id: string) {
    JobOf(pc).Some? && JobOf(pc).value.submissionId == id
  }

  /** A worker amends the record of the job it holds, and moves on with it. */
  lemma WorkerAmendKeeps(s: State, s': State, w: nat, pc': WorkerPc, id: string)
    requires Inv(s) && id in s.ledger && Follows(s.ledger, s'.ledger, id)
    requires s'.ledger[id].stage == s.ledger[id].stage
    requires s'.store.queue == s.store.queue && s'.pushed == s.pushed && s'.finished == s.finished
    requires s'.readers == s.readers && s'.started == s.started && s'.running == s.running && s'.now == s.now
    requires w < |s.workers| && Holds(s.workers[w], id) && WorkerOk(w, pc', s.ledger)
    requires s'.handlers == s.handlers && s'.workers == s.workers[w := pc']
    requires EntryOk(id, s'.ledger[id], s.handlers, s.workers[w := pc'], s.now)
    requires KeysOk(s'.ledger, s'.store.statuses, s'.store.results)
    ensures Inv(s')
  {
    hide EntryOk, KeysOk;
    WorkersStep(s.workers, s.ledger, w, pc', id);
    SameHandlersRefl(s.handlers, id);
    AmendKeeps(s, s', id);
  }

  lemma StartShape(s: State, w: nat)
    requires w < |s.workers| && s.workers[w].Starting? && s.workers[w].at < 2
    requires s.workers[w].job.submissionId in s.ledger
    ensures JudgeDoes(s, w) == Started(s, w)
  {
  }

  /** The state after one of the worker's first two writes. */
  function Started(s: State, w: nat): State
    requires w < |s.workers| && s.workers[w].Starting? && s.workers[w].job.submissionId in s.ledger
  {
    var pc, id := s.workers[w], s.workers[w].job.submissionId;
    s.(store := s.store.(statuses := s.store.statuses[id := Timed(StartVerdict(pc), s.now + RETENTION)]),
       workers := s.workers[w := NextStart(pc)],
       ledger := s.ledger[id := Writing(s.ledger[id], Write(Judge, StartVerdict(pc), s.now))])
  }

  lemma StartEntry(s: State, w: nat, r': Record)
    requires WorkersOk(s.workers, s.ledger) && LedgerOk(s.ledger, s.handlers, s.workers, s.now)
    requires w < |s.workers| && s.workers[w].Starting?
    requires var id := s.workers[w].job.submissionId;
             id in s.ledger && r' == Writing(s.ledger[id], Write(Judge, StartVerdict(s.workers[w]), s.now))
    ensures var id := s.workers[w].job.submissionId;
            && EntryOk(id, r', s.handlers, s.workers[w := NextStart(s.workers[w])], s.now)
            && WorkerOk(w, NextStart(s.workers[w]), s.ledger)
  {
    HeldRecord(s, w);
    var id, pc := s.workers[w].job.submissionId, s.workers[w];
    var r := s.ledger[id];
    RecordStarted(id, r, s.handlers[r.handler], pc, s.now);
    HeldEntry(id, r', s.handlers, s.workers, w, NextStart(pc), s.now);
  }

  lemma StartedKeeps(s: State, w: nat, id: string, pc': WorkerPc)
    requires Inv(s) && w < |s.workers| && s.workers[w].Starting? && id == s.workers[w].job.submissionId
    requires id in s.ledger && pc' == NextStart(s.workers[w]) && WorkerOk(w, pc', s.ledger)
    requires var s' := Started(s, w);
             && EntryOk(id, s'.ledger[id], s.handlers, s.workers[w := pc'], s.now)
             && Follows(s.ledger, s'.ledger, id) && KeysOk(s'.ledger, s'.store.statuses, s.store.results)
    ensures Inv(Started(s, w))
  {
    hide EntryOk, KeysOk;
    WorkerAmendKeeps(s, Started(s, w), w, pc', id);
  }

  /** The worker's COMPILING and RUNNING. */
  lemma StartKeeps(s: State, w: nat)
    requires Inv(s) && w < |s.workers| && s.workers[w].Starting? && s.workers[w].job.submissionId in s.ledger
    ensures Inv(Started(s, w))
  {
    hide EntryOk, KeysOk;
    var s', pc, id := Started(s, w), s.workers[w], s.workers[w].job.submissionId;
    assert Follows(s.ledger, s'.ledger, id) && KeysOk(s'.ledger, s'.store.statuses, s.store.results) by {
      StatusWriteKeys(s.ledger, s'.ledger, id, Write(Judge, StartVerdict(pc), s.now),
                      s.store.statuses, s'.store.statuses, s.store.results);
    }
    StartEntry(s, w, s'.ledger[id]);
    StartedKeeps(s, w, id, NextStart(pc));
  }

  lemma EvaluateEntry(s: State, w: nat, result: SubmissionResult)
    requires WorkersOk(s.workers, s.ledger) && LedgerOk(s.ledger, s.handlers, s.workers, s.now)
    requires w < |s.workers| && s.workers[w].Evaluating?
    requires result.submissionId == s.workers[w].job.submissionId && Terminal(result.verdict)
    ensures var id, pc' := result.submissionId, Reporting(s.workers[w].job, result, 0);
            && id in s.ledger && EntryOk(id, s.ledger[id], s.handlers, s.workers[w := pc'], s.now)
            && WorkerOk(w, pc', s.ledger)
  {
    HeldRecord(s, w);
    var id := result.submissionId;
    var r := s.ledger[id];
    RecordEvaluated(id, r, s.handlers[r.handler], s.workers[w], s.now, result);
    HeldEntry(id, r, s.handlers, s.workers, w, Reporting(s.workers[w].job, result, 0), s.now);
  }

  lemma EvaluatedKeeps(s: State, w: nat, result: SubmissionResult)
    requires Inv(s) && w < |s.workers| && s.workers[w].Evaluating?
    requires result.submissionId == s.workers[w].job.submissionId && Terminal(result.verdict)
    ensures Inv(Goto(s, w, Reporting(s.workers[w].job, result, 0)))
  {
    hide EntryOk, KeysOk;
    EvaluateEntry(s, w, result);
    var pc' := Reporting(s.workers[w].job, result, 0);
    WorkerAmendKeeps(s, Goto(s, w, pc'), w, pc', result.submissionId);
  }

  /** Evaluation returns a terminal verdict for the job's own submission. */
  lemma EvaluateKeeps(s: State, w: nat, env: Evaluator.Environment)
    requires Inv(s) && Enabled(s, Evaluate(w, env))
    ensures Inv(Take(s, Evaluate(w, env)))
  {
    var job := s.workers[w].job;
    var result := Evaluator.Evaluated(job, env);
    Evaluator.EvaluationEndsTerminally(job, env);
    EvaluatedKeeps(s, w, result);
  }

  lemma RuleShape(s: State, w: nat)
    requires w < |s.workers| && s.workers[w].Reporting? && s.workers[w].at == 0
    requires s.workers[w].job.submissionId in s.ledger
    ensures JudgeDoes(s, w) == Ruled(s, w)
  {
  }

  /** The state after the worker has stored its result. */
  function Ruled(s: State, w: nat): State
    requires w < |s.workers| && s.workers[w].Reporting? && s.workers[w].job.submissionId in s.ledger
  {
    var pc, id := s.workers[w], s.workers[w].job.submissionId;
    s.(store := s.store.(results := s.store.results[pc.result.submissionId := Timed(pc.result, s.now + RETENTION)]),
       workers := s.workers[w := Reporting(pc.job, pc.result, 1)],
       ledger := s.ledger[id := s.ledger[id].(ruling := Some(Ruling(pc.result, s.now)))])
  }

  lemma RuleKeys(ledger: Ledger, ledger': Ledger, id: string, ruling: Ruling, statuses: map<string, Timed<Verdict>>,
                 results: map<string, Timed<SubmissionResult>>, results': map<string, Timed<SubmissionResult>>)
    requires KeysOk(ledger, statuses, results) && id in ledger && ledger[id].ruling.None?
    requires results' == results[id := Timed(ruling.result, ruling.at + RETENTION)]
    requires ledger' == ledger[id := ledger[id].(ruling := Some(ruling))]
    ensures Follows(ledger, ledger', id) && KeysOk(ledger', statuses, results')
  {
    assert KeyOk(Find(statuses, id), Find(results, id), ledger[id]);
    assert KeyOk(Find(statuses, id), Find(results', id), ledger'[id]);
    KeysStep(ledger, ledger', id, statuses, statuses, results, results');
  }

  lemma RuleEntry(s: State, w: nat, r': Record)
    requires WorkersOk(s.workers, s.ledger) && LedgerOk(s.ledger, s.handlers, s.workers, s.now)
    requires w < |s.workers| && s.workers[w].Reporting? && s.workers[w].at == 0
    requires var id := s.workers[w].job.submissionId;
             id in s.ledger && r' == s.ledger[id].(ruling := Some(Ruling(s.workers[w].result, s.now)))
    ensures var id, pc := s.workers[w].job.submissionId, s.workers[w];
            && EntryOk(id, r', s.handlers, s.workers[w := Reporting(pc.job, pc.result, 1)], s.now)
            && WorkerOk(w, Reporting(pc.job, pc.result, 1), s.ledger) && s.ledger[id].ruling.None?
            && pc.result.submissionId == id
  {
    HeldRecord(s, w);
    var id, pc := s.workers[w].job.submissionId, s.workers[w];
    var r := s.ledger[id];
    RecordRuled(id, r, s.handlers[r.handler], pc, s.now);
    HeldEntry(id, r', s.handlers, s.workers, w, Reporting(pc.job, pc.result, 1), s.now);
  }

  lemma RuledKeeps(s: State, w: nat, id: string, pc': WorkerPc)
    requires Inv(s) && w < |s.workers| && s.workers[w].Reporting? && id == s.workers[w].job.submissionId
    requires id in s.ledger && pc' == Reporting(s.workers[w].job, s.workers[w].result, 1)
    requires WorkerOk(w, pc', s.ledger)
    requires var s' := Ruled(s, w);
             && EntryOk(id, s'.ledger[id], s.handlers, s.workers[w := pc'], s.now)
             && Follows(s.ledger, s'.ledger, id) && KeysOk(s'.ledger, s.store.statuses, s'.store.results)
    ensures Inv(Ruled(s, w))
  {
    hide EntryOk, KeysOk;
    WorkerAmendKeeps(s, Ruled(s, w), w, pc', id);
  }

  /** The worker stores its result. */
  lemma RuleKeeps(s: State, w: nat)
    requires Inv(s) && w < |s.workers| && s.workers[w].Reporting? && s.workers[w].at == 0
    requires s.workers[w].job.submissionId in s.ledger
    ensures Inv(Ruled(s, w))
  {
    hide EntryOk, KeysOk;
    var s', pc, id := Ruled(s, w), s.workers[w], s.workers[w].job.submissionId;
    RuleEntry(s, w, s'.ledger[id]);
    assert Follows(s.ledger, s'.ledger, id) && KeysOk(s'.ledger, s.store.statuses, s'.store.results) by {
      RuleKeys(s.ledger, s'.ledger, id, Ruling(pc.result, s.now), s.store.statuses, s.store.results, s'.store.results);
    }
    RuledKeeps(s, w, id, Reporting(pc.job, pc.result, 1));
  }

  /** The state after the worker's last write for a job. */
  function SettledBy(s: State, w: nat): State
    requires w < |s.workers| && s.workers[w].Reporting? && s.workers[w].job.submissionId in s.ledger
  {
    var pc, id := s.workers[w], s.workers[w].job.submissionId;
    s.(store := s.store.(statuses := s.store.statuses[id := Timed(pc.result.verdict, s.now + RETENTION)]),
       workers := s.workers[w := Checking], finished := s.finished + [pc.job],
       ledger := s.ledger[id := Writing(s.ledger[id], Write(Judge, pc.result.verdict, s.now)).(stage := Settled)])
  }

  lemma SettleShape(s: State, w: nat)
    requires w < |s.workers| && s.workers[w].Reporting? && s.workers[w].at == 1
    requires s.workers[w].job.submissionId in s.ledger
    ensures JudgeDoes(s, w) == SettledBy(s, w)
  {
    var pc, id := s.workers[w], s.workers[w].job.submissionId;
    assert ReportOps(pc.job, pc.result)[1] == SetStatus(id, pc.result.verdict);
  }

  lemma SettledEntry(s: State, w: nat, r': Record)
    requires WorkersOk(s.workers, s.ledger) && LedgerOk(s.ledger, s.handlers, s.workers, s.now)
    requires w < |s.workers| && s.workers[w].Reporting? && s.workers[w].at == 1
    requires var id := s.workers[w].job.submissionId;
             id in s.ledger &&
             r' == Writing(s.ledger[id], Write(Judge, s.workers[w].result.verdict, s.now)).(stage := Settled)
    ensures var id := s.workers[w].job.submissionId;
            && EntryOk(id, r', s.handlers, s.workers[w := Checking], s.now)
            && Known(s.ledger, s.workers[w].job, Held(w))
  {
    HeldRecord(s, w);
    var id := s.workers[w].job.submissionId;
    var r := s.ledger[id];
    RecordSettled(id, r, s.handlers[r.handler], s.workers[w], s.now);
  }

  lemma SettledKeys(ledger: Ledger, ledger': Ledger, id: string, w: Write,
                    statuses: map<string, Timed<Verdict>>, statuses': map<string, Timed<Verdict>>,
                    results: map<string, Timed<SubmissionResult>>)
    requires KeysOk(ledger, statuses, results) && id in ledger
    requires statuses' == statuses[id := Timed(w.verdict, w.at + RETENTION)]
    requires ledger' == ledger[id := Writing(ledger[id], w).(stage := Settled)]
    ensures Follows(ledger, ledger', id) && KeysOk(ledger', statuses', results)
  {
    assert KeyOk(Find(statuses, id), Find(results, id), ledger[id]);
    assert KeyOk(Find(statuses', id), Find(results, id), ledger'[id]);
    KeysStep(ledger, ledger', id, statuses, statuses', results, results);
  }

  /** A worker that lets go of its job. */
  lemma WorkersRelease(workers: seq<WorkerPc>, ledger: Ledger, ledger': Ledger, w: nat, pc: WorkerPc, id: string)
    requires WorkersOk(workers, ledger) && Follows(ledger, ledger', id) && w < |workers|
    requires Holds(workers[w], id) && JobOf(pc).None? && PcOk(pc)
    ensures WorkersOk(workers[w := pc], ledger') && SameWorkers(workers, workers[w := pc], id)
  {
    var workers' := workers[w := pc];
    assert WorkerOk(w, workers[w], ledger);
    forall v | 0 <= v < |workers| ensures WorkerOk(v, workers'[v], ledger') {
      assert WorkerOk(v, workers[v], ledger);
    }
  }

  lemma NewlyFinished(finished: seq<SubmissionJob>, ledger: Ledger, ledger': Ledger, job: SubmissionJob)
    requires FinishedOk(finished, ledger) && Follows(ledger, ledger', job.submissionId)
    requires Known(ledger', job, Settled) && job.submissionId in ledger && ledger[job.submissionId].stage != Settled
    ensures FinishedOk(finished + [job], ledger')
  {
    FinishedFrame(finished, ledger, ledger', job.submissionId);
  }

  /** The worker's last write settles its submission. */
  lemma SettleKeeps(s: State, w: nat)
    requires Inv(s) && w < |s.workers| && s.workers[w].Reporting? && s.workers[w].at == 1
    requires s.workers[w].job.submissionId in s.ledger
    ensures Inv(SettledBy(s, w))
  {
    hide EntryOk, KeysOk;
    var s', pc, id := SettledBy(s, w), s.workers[w], s.workers[w].job.submissionId;
    SettledEntry(s, w, s'.ledger[id]);
    SettledKeys(s.ledger, s'.ledger, id, Write(Judge, pc.result.verdict, s.now),
                s.store.statuses, s'.store.statuses, s.store.results);
    HandlersFrame(s.handlers, s.ledger, s'.ledger, id);
    WorkersRelease(s.workers, s.ledger, s'.ledger, w, Checking, id);
    QueueFrame(s.store.queue, s.ledger, s'.ledger, id);
    PushedFrame(s.pushed, s.ledger, s'.ledger, id);
    NewlyFinished(s.finished, s.ledger, s'.ledger, pc.job);
    ShownFrame(s.readers, s.ledger, s'.ledger, id);
    SameHandlersRefl(s.handlers, id);
    LedgerStep(s.ledger, s'.ledger, id, s.handlers, s.handlers, s.workers, s'.workers, s.now);
  }

  /** The state after a BRPOP that returns a job. */
  function PoppedBy(s: State, w: nat, job: SubmissionJob): State
    requires w < |s.workers| && s.store.queue != [] && job.submissionId in s.ledger
  {
    s.(store := s.store.(queue := s.store.queue[..|s.store.queue| - 1]),
       workers := s.workers[w := Starting(job, 0)], popped := s.popped + [Pop(w, job)],
       ledger := s.ledger[job.submissionId := s.ledger[job.submissionId].(stage := Held(w))])
  }

  lemma PopShape(s: State, w: nat)
    requires w < |s.workers|
    ensures s.store.queue == [] ==> PopDoes(s, w) == Goto(s, w, Checking)
    ensures s.store.queue != [] && s.store.queue[|s.store.queue| - 1].submissionId in s.ledger ==>
              PopDoes(s, w) == PoppedBy(s, w, s.store.queue[|s.store.queue| - 1])
  {
  }

  lemma PoppedEntry(s: State, w: nat, job: SubmissionJob, r': Record)
    requires QueueOk(s.store.queue, s.ledger) && LedgerOk(s.ledger, s.handlers, s.workers, s.now)
    requires w < |s.workers| && s.store.queue != [] && job == s.store.queue[|s.store.queue| - 1]
    requires job.submissionId in s.ledger && r' == s.ledger[job.submissionId].(stage := Held(w))
    ensures EntryOk(job.submissionId, r', s.handlers, s.workers[w := Starting(job, 0)], s.now)
    ensures Known(s.ledger, job, Queued)
  {
    var id := job.submissionId;
    var r := s.ledger[id];
    assert Known(s.ledger, job, Queued);
    assert EntryOk(id, r, s.handlers, s.workers, s.now);
    RecordPopped(id, r, s.handlers[r.handler], s.now, w);
    HeldEntry(id, r', s.handlers, s.workers, w, Starting(job, 0), s.now);
  }

  lemma PoppedKeys(ledger: Ledger, ledger': Ledger, id: string, stage: Stage,
                   statuses: map<string, Timed<Verdict>>, results: map<string, Timed<SubmissionResult>>)
    requires KeysOk(ledger, statuses, results) && id in ledger && ledger' == ledger[id := ledger[id].(stage := stage)]
    ensures Follows(ledger, ledger', id) && KeysOk(ledger', statuses, results)
  {
    assert KeyOk(Find(statuses, id), Find(results, id), ledger[id]);
    KeysStep(ledger, ledger', id, statuses, statuses, results, results);
  }

  /** A worker that takes a queued job in its hands. */
  lemma WorkersTake(workers: seq<WorkerPc>, ledger: Ledger, ledger': Ledger, w: nat, job: SubmissionJob)
    requires WorkersOk(workers, ledger) && Follows(ledger, ledger', job.submissionId) && w < |workers|
    requires JobOf(workers[w]).None? && Known(ledger, job, Queued) && Known(ledger', job, Held(w))
    ensures WorkersOk(workers[w := Starting(job, 0)], ledger')
    ensures SameWorkers(workers, workers[w := Starting(job, 0)], job.submissionId)
  {
    var workers' := workers[w := Starting(job, 0)];
    forall v | 0 <= v < |workers| ensures WorkerOk(v, workers'[v], ledger') {
      assert WorkerOk(v, workers[v], ledger);
    }
  }

  lemma QueueTake(queue: seq<SubmissionJob>, ledger: Ledger, ledger': Ledger, id: string)
    requires QueueOk(queue, ledger) && Follows(ledger, ledger', id)
    requires queue != [] && queue[|queue| - 1].submissionId == id
    ensures QueueOk(queue[..|queue| - 1], ledger')
  {
    assert forall k :: 0 <= k < |queue| ==> Known(ledger, queue[k], Queued);
  }

  /** BRPOP moves the oldest queued job into one worker's hands. */
  lemma PopKeeps(s: State, w: nat, job: SubmissionJob)
    requires Inv(s) && w < |s.workers| && s.workers[w] == Popping && s.store.queue != []
    requires job == s.store.queue[|s.store.queue| - 1] && job.submissionId in s.ledger
    ensures Inv(PoppedBy(s, w, job))
  {
    hide EntryOk, KeysOk;
    var s', id := PoppedBy(s, w, job), job.submissionId;
    PoppedEntry(s, w, job, s'.ledger[id]);
    PoppedKeys(s.ledger, s'.ledger, id, Held(w), s.store.statuses, s.store.results);
    HandlersFrame(s.handlers, s.ledger, s'.ledger, id);
    WorkersTake(s.workers, s.ledger, s'.ledger, w, job);
    QueueTake(s.store.queue, s.ledger, s'.ledger, id);
    PushedFrame(s.pushed, s.ledger, s'.ledger, id);
    FinishedFrame(s.finished, s.ledger, s'.ledger, id);
    ShownFrame(s.readers, s.ledger, s'.ledger, id);
    SameHandlersRefl(s.handlers, id);
    LedgerStep(s.ledger, s'.ledger, id, s.handlers, s.handlers, s.workers, s'.workers, s.now);
  }

  // ----- All steps -----

  lemma HandlerStepKeeps(s: State, h: nat)
    requires Inv(s) && h < |s.handlers| && s.handlers[h].at < 5
    ensures Inv(HandlerDoes(s, h))
  {
    hide *;
    if s.handlers[h].at == 0 {
      EnqueueKeeps(s, h);
    } else if s.handlers[h].at == 1 {
      PendingKeeps(s, h);
    } else {
      AfterPendingKeeps(s, h);
    }
  }

  lemma JudgeStepKeeps(s: State, w: nat)
    requires Inv(s) && w < |s.workers| && (s.workers[w].Starting? || s.workers[w].Reporting?) && s.workers[w].at < 2
    ensures Inv(JudgeDoes(s, w))
  {
    hide JudgeDoes, Started, Ruled, SettledBy, LedgerOk, KeysOk;
    HeldRecord(s, w);
    if s.workers[w].Starting? {
      StartShape(s, w);
      StartKeeps(s, w);
    } else if s.workers[w].at == 0 {
      RuleShape(s, w);
      RuleKeeps(s, w);
    } else {
      SettleShape(s, w);
      SettleKeeps(s, w);
    }
  }

  lemma PopStepKeeps(s: State, w: nat)
    requires Inv(s) && w < |s.workers| && s.workers[w] == Popping
    ensures Inv(PopDoes(s, w))
  {
    hide PopDoes, LedgerOk, KeysOk;
    PopShape(s, w);
    if s.store.queue == [] {
      IdleMoveKeeps(s, w, Checking);
    } else {
      var job := s.store.queue[|s.store.queue| - 1];
      assert Known(s.ledger, job, Queued);
      PopKeeps(s, w, job);
    }
  }

  /** Every step of every interleaving keeps the invariant. */
  lemma StepKeeps(s: State, a: Action)
    requires Inv(s) && Enabled(s, a)
    ensures Inv(Take(s, a))
  {
    hide Inv, HandlerDoes, JudgeDoes, PopDoes, Submitted, PoolStarted, NextRead, Perform;
    match a {
      case BeginSubmit(job) => BeginSubmitKeeps(s, job);
      case HandlerStep(h) => HandlerStepKeeps(s, h);
      case StartPool(count) => StartPoolKeeps(s, count);
      case StopPool => StopKeeps(s);
      case Connect(w, ok) =>
        if ok { IdleMoveKeeps(s, w, Checking); } else if !s.running { IdleMoveKeeps(s, w, Exited); }
      case Check(w) => IdleMoveKeeps(s, w, if s.running then Popping else Exited);
      case TryPop(w) => PopStepKeeps(s, w);
      case JudgeStep(w) => JudgeStepKeeps(s, w);
      case Evaluate(w, env) => EvaluateKeeps(s, w, env);
      case BeginPoll(id) => BeginReaderKeeps(s, Reader(ReadingResult, [id], []));
      case BeginHistory(user) => BeginReaderKeeps(s, Reader(Listing(user), [], []));
      case ReaderStep(r) => ReaderStepKeeps(s, r);
      case AuthTraffic(op) => AuthTrafficKeeps(s, op);
      case Elapse(seconds) => ElapseKeeps(s, seconds);
    }
  }

  lemma StopKeeps(s: State)
    requires Inv(s)
    ensures Inv(s.(running := false))
  {
  }

  lemma {:induction false} RunKeeps(s: State, actions: seq<Action>)
    requires Inv(s) && IsRun(s, actions)
    ensures Inv(After(s, actions))
    decreases |actions|
  {
    hide Inv, Take, Enabled;
    if actions != [] {
      StepKeeps(s, actions[0]);
      RunKeeps(Take(s, actions[0]), actions[1..]);
    }
  }

  lemma ReachableInv(s: State)
    requires Reachable(s)
    ensures Inv(s)
  {
    hide Inv;
    var actions :| IsRun(INITIAL, actions) && s == After(INITIAL, actions);
    InitialInv();
    RunKeeps(INITIAL, actions);
  }
}
