/** The Redis client (shared/src/redis_client.cpp) over a server that other clients use at the same time
    and a connection that may lose requests and replies. */
module RedisClient {
  import opened Codec
  import opened Keyspace
  import opened Store
  import opened Verdicts

  /** One event in the server's life; `mine` marks what the client under study has sent. */
  datatype Note = Note(mine: bool, event: Event)

  function EventsOf(trace: seq<Note>): seq<Event> {
    seq(|trace|, i requires 0 <= i < |trace| => trace[i].event)
  }

  /** The operations that the client under study has had applied, in order. */
  function Mine(trace: seq<Note>): seq<Op> {
    if trace == [] then []
    else
      var last := trace[|trace| - 1];
      Mine(trace[..|trace| - 1]) + if last.mine && last.event.Do? then [last.event.op] else []
  }

  /** What others do, as notes. */
  function OthersNotes(events: seq<Event>): (notes: seq<Note>)
    ensures |notes| == |events|
  {
    seq(|events|, i requires 0 <= i < |events| => Note(false, events[i]))
  }

  function Copies(op: Op, times: nat): seq<Op> {
    seq(times, _ => op)
  }

  lemma TraceAppend(trace: seq<Note>, n: Note, start: World)
    ensures EventsOf(trace + [n]) == EventsOf(trace) + [n.event]
    ensures Replay(start, EventsOf(trace + [n])) == Step(Replay(start, EventsOf(trace)), n.event)
    ensures Mine(trace + [n]) == Mine(trace) + if n.mine && n.event.Do? then [n.event.op] else []
  {
    assert (trace + [n])[..|trace|] == trace;
    var events := EventsOf(trace + [n]);
    assert events[..|trace|] == EventsOf(trace) && events[|trace|] == n.event;
  }

  /** The shared server.  `schedule` lists what the other clients and the clock do before each of the next
      transmissions of the client under study. */
  class RedisServer {
    var db: Database
    var now: nat
    var schedule: seq<seq<Event>>
    ghost var start: World
    ghost var trace: seq<Note>

    /** The typed store and the time, after everything that has happened. */
    ghost function Current(): World
      reads this
    {
      Replay(start, EventsOf(trace))
    }

    ghost predicate Valid()
      reads this
    {
      Refines(db, Current().store) && now == Current().now
    }

    constructor (schedule: seq<seq<Event>>)
      ensures Valid() && Current() == World(EMPTY, 0) && trace == [] && this.schedule == schedule
    {
      db, now := map[], 0;
      this.schedule := schedule;
      start, trace := World(EMPTY, 0), [];
    }

    /** What a reply tells: it answers the client's own last command, on the store as it was just then. */
    ghost predicate Answers(op: Op, reply: RawReply)
      reads this
    {
      trace != [] && trace[|trace| - 1] == Note(true, Do(op)) && Decoded(op, reply) == Some(LastAnswer())
    }

    /** The typed answer to the last command of the trace. */
    ghost function LastAnswer(): Reply
      requires trace != [] && trace[|trace| - 1].event.Do?
      reads this
    {
      var before := Replay(start, EventsOf(trace[..|trace| - 1]));
      Answer(before.store, before.now, trace[|trace| - 1].event.op)
    }

    /** One atomic command. */
    method Serve(c: Command, ghost op: Op, ghost mine: bool) returns (reply: RawReply)
      requires Valid() && c == CommandFor(op)
      modifies this`db, this`trace
      ensures Valid() && trace == old(trace) + [Note(mine, Do(op))]
      ensures mine ==> Answers(op, reply)
      ensures Mine(trace) == Mine(old(trace)) + if mine then [op] else []
    {
      CommandSimulates(db, Current().store, now, op);
      TraceAppend(trace, Note(mine, Do(op)), start);
      reply := ReplyTo(db, now, c);
      db := Execute(db, now, c);
      ghost var before := trace;
      trace := trace + [Note(mine, Do(op))];
      assert trace[..|trace| - 1] == before;
    }

    method Tick(seconds: nat)
      requires Valid()
      modifies this`now, this`trace
      ensures Valid() && trace == old(trace) + [Note(false, Wait(seconds))] && Mine(trace) == Mine(old(trace))
    {
      TraceAppend(trace, Note(false, Wait(seconds)), start);
      now := now + seconds;
      trace := trace + [Note(false, Wait(seconds))];
    }

    /** Others run, and time passes: the next entry of the schedule happens, all of it and in order. */
    method Interfere()
      requires Valid()
      modifies this`db, this`now, this`trace, this`schedule
      ensures Valid() && Mine(trace) == Mine(old(trace)) && old(trace) <= trace
      ensures old(schedule) == [] ==> trace == old(trace) && schedule == []
      ensures old(schedule) != [] ==>
        schedule == old(schedule)[1..] && trace == old(trace) + OthersNotes(old(schedule)[0])
    {
      if schedule == [] {
        return;
      }
      var batch := schedule[0];
      schedule := schedule[1..];
      Play(batch);
    }

    method Play(batch: seq<Event>)
      requires Valid()
      modifies this`db, this`now, this`trace
      ensures Valid() && Mine(trace) == Mine(old(trace)) && trace == old(trace) + OthersNotes(batch)
    {
      hide Mine, Replay, EventsOf, Refines, CommandFor;
      var i := 0;
      while i < |batch|
        invariant 0 <= i <= |batch| && Valid()
        invariant Mine(trace) == Mine(old(trace)) && trace == old(trace) + OthersNotes(batch[..i])
      {
        match batch[i] {
          case Do(op) => var _ := Serve(CommandFor(op), op, false);
          case Wait(seconds) => Tick(seconds);
        }
        assert OthersNotes(batch[..i + 1]) == OthersNotes(batch[..i]) + [Note(false, batch[i])];
        i := i + 1;
      }
      assert batch[..|batch|] == batch;
    }
  }

  /** How one transmission goes: answered; lost to an I/O error on the way there or back (`back` tells
      whether the reconnect that follows succeeds); or given up for another error, such as a connection
      closed by the server, before or after the command ran. */
  datatype Outcome = Answered | RequestLost(back: bool) | ReplyLost(back: bool) | GivenUp(ran: bool)

  /** Whether the command ran. */
  function Ran(o: Outcome): nat {
    if o.Answered? || o.ReplyLost? || (o.GivenUp? && o.ran) then 1 else 0
  }

  /** What a client has of its connection: whether there is one, and how its next transmissions will go (they
      are answered after the end of the list). */
  datatype Line = Line(connected: bool, outcomes: seq<Outcome>)

  function OutcomeAt(outcomes: seq<Outcome>, k: nat): Outcome {
    if k < |outcomes| then outcomes[k] else Answered
  }

  function Dropped(outcomes: seq<Outcome>, n: nat): seq<Outcome> {
    if n <= |outcomes| then outcomes[n..] else []
  }

  /** An I/O loss after which the reconnect succeeds. */
  predicate Again(o: Outcome) {
    (o.RequestLost? || o.ReplyLost?) && o.back
  }

  /** How often one call on this line applies its command. */
  function TimesOn(l: Line): nat {
    if !l.connected then 0
    else Ran(OutcomeAt(l.outcomes, 0)) + if Again(OutcomeAt(l.outcomes, 0)) then Ran(OutcomeAt(l.outcomes, 1)) else 0
  }

  /** One call on this line brings a reply: from its first transmission, or from the one after a reconnect. */
  predicate AnswersOn(l: Line) {
    var first, second := OutcomeAt(l.outcomes, 0), OutcomeAt(l.outcomes, 1);
    l.connected && (first.Answered? || (Again(first) && second.Answered?))
  }

  /** The line after one call. */
  function LineAfter(l: Line): Line {
    if !l.connected then l
    else
      var first := OutcomeAt(l.outcomes, 0);
      Line(first.Answered? || first.GivenUp? || first.back, Dropped(l.outcomes, if Again(first) then 2 else 1))
  }

  function LineAfterCalls(l: Line, n: nat): Line {
    if n == 0 then l else LineAfter(LineAfterCalls(l, n - 1))
  }

  /** Every call of the script went as the line before it has it, and `last` is the line after them. */
  predicate Plays(first: Line, script: seq<Exchange>, last: Line) {
    && last == LineAfterCalls(first, |script|)
    && forall i :: 0 <= i < |script| ==>
         script[i].times == TimesOn(LineAfterCalls(first, i)) &&
         (script[i].heard.Some? <==> AnswersOn(LineAfterCalls(first, i)))
  }

  lemma {:induction false} CallsInTurn(l: Line, m: nat, n: nat)
    ensures LineAfterCalls(l, m + n) == LineAfterCalls(LineAfterCalls(l, m), n)
  {
    if n > 0 {
      CallsInTurn(l, m, n - 1);
    }
  }

  lemma PlaysInTurn(a: Line, b: Line, c: Line, p: seq<Exchange>, q: seq<Exchange>)
    requires Plays(a, p, b) && Plays(b, q, c)
    ensures Plays(a, p + q, c)
  {
    hide LineAfter, TimesOn, AnswersOn;
    CallsInTurn(a, |p|, |q|);
    forall i | 0 <= i < |p + q|
      ensures (p + q)[i].times == TimesOn(LineAfterCalls(a, i)) &&
              ((p + q)[i].heard.Some? <==> AnswersOn(LineAfterCalls(a, i)))
    {
      if i >= |p| {
        CallsInTurn(a, |p|, i - |p|);
      }
    }
  }

  /** A reply that came back: it answers the application noted at position `at` of the trace. */
  datatype Heard = Heard(at: nat, reply: Reply)

  /** One call of the client: its operation, how often that was applied, and the reply, if one came back. */
  datatype Exchange = Exchange(op: Op, times: nat, heard: Option<Heard>)

  function OpsOf(script: seq<Exchange>): (ops: seq<Op>)
    ensures |ops| == |script|
  {
    seq(|script|, i requires 0 <= i < |script| => script[i].op)
  }

  /** All applications behind a script, in order. */
  function Applications(script: seq<Exchange>): seq<Op> {
    if script == [] then []
    else
      var last := script[|script| - 1];
      Applications(script[..|script| - 1]) + Copies(last.op, last.times)
  }

  /** What a caller reads from the reply of each kind of call; nothing if none came. */
  function ReplyIn(e: Exchange): Option<Reply> {
    if e.heard.Some? then Some(e.heard.value.reply) else None
  }

  function JobHeard(e: Exchange): Option<SubmissionJob> {
    if ReplyIn(e).Some? && ReplyIn(e).value.Job? then ReplyIn(e).value.job else None
  }

  function StatusHeard(e: Exchange): Option<Verdict> {
    if ReplyIn(e).Some? && ReplyIn(e).value.Status? then ReplyIn(e).value.verdict else None
  }

  function ResultHeard(e: Exchange): Option<SubmissionResult> {
    if ReplyIn(e).Some? && ReplyIn(e).value.Result? then ReplyIn(e).value.result else None
  }

  function TextHeard(e: Exchange): Option<string> {
    if ReplyIn(e).Some? && ReplyIn(e).value.Text? then ReplyIn(e).value.text else None
  }

  function IdsHeard(e: Exchange): seq<string> {
    if ReplyIn(e).Some? && ReplyIn(e).value.Ids? then ReplyIn(e).value.ids else []
  }

  function LengthHeard(e: Exchange): int {
    if ReplyIn(e).Some? && ReplyIn(e).value.Length? then ReplyIn(e).value.n else -1
  }

  /** What a client and its server have been through. */
  datatype View = View(
    log: seq<Exchange>, trace: seq<Note>, start: World, line: Line, quiet: bool)
  {
    const connected := line.connected
    const steady := line.connected && line.outcomes == []

    predicate Alone() {
      steady && quiet
    }
  }

  ghost function Now(v: View): World {
    Replay(v.start, EventsOf(v.trace))
  }

  /** The world just before note k of the trace. */
  ghost function WorldBefore(v: View, k: nat): World
    requires k <= |v.trace|
  {
    Replay(v.start, EventsOf(v.trace[..k]))
  }

  /** A reply that was heard is the typed answer to this operation, on the store as it was at a moment
      between the two views. */
  ghost predicate Truthful(a: View, b: View, e: Exchange) {
    e.heard.Some? ==>
      var h := e.heard.value;
      && |a.trace| <= h.at < |b.trace| && b.trace[h.at] == Note(true, Do(e.op))
      && h.reply == Answer(WorldBefore(b, h.at).store, WorldBefore(b, h.at).now, e.op)
  }

  /** An operation is applied at most twice, at least once if a reply came back, exactly once and with a
      reply without trouble, and never without a connection. */
  ghost predicate Sound(a: View, b: View, e: Exchange) {
    && e.times <= 2 && (e.heard.Some? ==> e.times >= 1) && Truthful(a, b, e)
    && (a.steady ==> e.times == 1 && e.heard.Some?)
    && (!a.connected ==> e.times == 0 && e.heard.None?)
  }

  /** The replies were given in the order of the calls. */
  predicate InOrder(script: seq<Exchange>) {
    forall i, j :: 0 <= i < j < |script| && script[i].heard.Some? && script[j].heard.Some? ==>
      script[i].heard.value.at < script[j].heard.value.at
  }

  function AppliedTo(w: World, ops: seq<Op>): World {
    if ops == [] then w else Step(AppliedTo(w, ops[..|ops| - 1]), Do(ops[|ops| - 1]))
  }

  /** Between two views exactly the calls of `script` were made, in this order, each of them sound; their
      applications are all that was applied for this client.  With no one else active and no trouble the
      world went through exactly their operations; without a connection nothing was sent. */
  ghost predicate Runs(a: View, b: View, script: seq<Exchange>) {
    && b.log == a.log + script && b.start == a.start && a.trace <= b.trace
    && Mine(b.trace) == Mine(a.trace) + Applications(script)
    && AllSound(a, b, script) && InOrder(script) && Plays(a.line, script, b.line)
    && (!a.connected ==> !b.connected && b.trace == a.trace)
    && (a.steady ==> b.steady) && (a.quiet ==> b.quiet)
    && (a.Alone() ==> Now(b) == AppliedTo(Now(a), OpsOf(script)))
  }

  ghost predicate AllSound(a: View, b: View, script: seq<Exchange>) {
    forall e <- script :: Sound(a, b, e)
  }

  /** Alone, the reply to the next call is the typed answer on the world before it. */
  ghost predicate AnsweredAlone(a: View, e: Exchange) {
    a.Alone() ==> ReplyIn(e) == Some(Answer(Now(a).store, Now(a).now, e.op))
  }

  lemma AppliedNone(w: World)
    ensures AppliedTo(w, []) == w
  {
  }

  lemma AppliedLast(w: World, ops: seq<Op>, last: Op)
    ensures AppliedTo(w, ops + [last]) == Step(AppliedTo(w, ops), Do(last))
  {
    assert (ops + [last])[..|ops|] == ops;
  }

  lemma {:induction false} AppliedInTurn(w: World, p: seq<Op>, q: seq<Op>)
    ensures AppliedTo(w, p + q) == AppliedTo(AppliedTo(w, p), q)
  {
    if q == [] {
      assert p + q == p;
    } else {
      assert (p + q)[..|p + q| - 1] == p + q[..|q| - 1];
      AppliedInTurn(w, p, q[..|q| - 1]);
    }
  }

  lemma {:induction false} ApplicationsInTurn(p: seq<Exchange>, q: seq<Exchange>)
    ensures Applications(p + q) == Applications(p) + Applications(q)
  {
    if q == [] {
      assert p + q == p;
    } else {
      assert (p + q)[..|p + q| - 1] == p + q[..|q| - 1];
      ApplicationsInTurn(p, q[..|q| - 1]);
    }
  }

  /** What is sound stays so when the trace goes on, or is looked at from an earlier view. */
  lemma SoundStays(a: View, b: View, c: View, d: View, e: Exchange)
    requires Sound(b, c, e) && a.trace <= b.trace && c.trace <= d.trace && c.start == d.start
    requires (a.steady ==> b.steady) && (!a.connected ==> !b.connected)
    ensures Sound(a, d, e)
  {
    hide Answer, Replay;
    if e.heard.Some? {
      assert d.trace[..e.heard.value.at] == c.trace[..e.heard.value.at];
    }
  }

  lemma SoundInTurn(a: View, b: View, c: View, p: seq<Exchange>, q: seq<Exchange>)
    requires Runs(a, b, p) && Runs(b, c, q)
    ensures AllSound(a, c, p + q) && InOrder(p + q)
  {
    hide Mine, Now, AppliedTo, Applications, OpsOf, WorldBefore;
    forall e | e in p + q ensures Sound(a, c, e) {
      if e in p {
        SoundStays(a, a, b, c, e);
      } else {
        SoundStays(a, b, c, c, e);
      }
    }
    forall i, j | 0 <= i < |p| && 0 <= j < |q| && p[i].heard.Some? && q[j].heard.Some?
      ensures p[i].heard.value.at < q[j].heard.value.at
    {
      assert Sound(a, b, p[i]) && Sound(b, c, q[j]);
    }
  }

  /** Scripts compose. */
  lemma RunsInTurn(a: View, b: View, c: View, p: seq<Exchange>, q: seq<Exchange>)
    requires Runs(a, b, p) && Runs(b, c, q)
    ensures Runs(a, c, p + q)
  {
    hide Mine, Now, AppliedTo, Applications, AllSound, InOrder, Plays;
    SoundInTurn(a, b, c, p, q);
    PlaysInTurn(a.line, b.line, c.line, p, q);
    AppliedInTurn(Now(a), OpsOf(p), OpsOf(q));
    ApplicationsInTurn(p, q);
    assert OpsOf(p + q) == OpsOf(p) + OpsOf(q);
    assert a.log + (p + q) == a.log + p + q;
    assert Mine(a.trace) + (Applications(p) + Applications(q)) == Mine(a.trace) + Applications(p) + Applications(q);
  }

  lemma RunsNothing(a: View)
    ensures Runs(a, a, [])
  {
    assert a.log + [] == a.log;
  }

  /** One call makes a script of one exchange. */
  lemma OneCall(a: View, b: View, e: Exchange)
    requires b.log == a.log + [e] && b.start == a.start && a.trace <= b.trace
    requires Mine(b.trace) == Mine(a.trace) + Copies(e.op, e.times) && Sound(a, b, e)
    requires e.times == TimesOn(a.line) && (e.heard.Some? <==> AnswersOn(a.line)) && b.line == LineAfter(a.line)
    requires (!a.connected ==> !b.connected && b.trace == a.trace) && (a.steady ==> b.steady) && (a.quiet ==> b.quiet)
    requires a.Alone() ==> b.trace == a.trace + [Note(true, Do(e.op))]
    ensures Runs(a, b, [e]) && AnsweredAlone(a, e)
  {
    hide Answer, Sound, TimesOn, AnswersOn, LineAfter;
    assert LineAfterCalls(a.line, 1) == LineAfter(LineAfterCalls(a.line, 0));
    ApplicationsInTurn([], [e]);
    assert [e][..0] == [] && Applications([e]) == Copies(e.op, e.times);
    if a.Alone() {
      TraceAppend(a.trace, Note(true, Do(e.op)), a.start);
      AppliedLast(Now(a), [], e.op);
      assert OpsOf([e]) == [] + [e.op];
      AloneAnswer(a, b, e);
    }
  }

  lemma AloneAnswer(a: View, b: View, e: Exchange)
    requires a.Alone() && Sound(a, b, e) && b.start == a.start && b.trace == a.trace + [Note(true, Do(e.op))]
    ensures ReplyIn(e) == Some(Answer(Now(a).store, Now(a).now, e.op))
  {
    hide Answer, Replay;
    assert b.trace[..|a.trace|] == a.trace;
  }

  /** A connected client brings a reply back exactly if the first transmission is answered, or is lost to an
      I/O error from which the reconnect recovers and the second is answered; in that second case the command
      has run once, or twice if only the first reply was lost.  What was given up is never sent again. */
  lemma OneLossIsHealed(a: View, b: View, e: Exchange)
    requires Runs(a, b, [e]) && a.connected
    ensures var first, second := OutcomeAt(a.line.outcomes, 0), OutcomeAt(a.line.outcomes, 1);
      && (e.heard.Some? <==> first.Answered? || (Again(first) && second.Answered?))
      && (Again(first) && second.Answered? ==> e.times == if first.ReplyLost? then 2 else 1)
      && (first.GivenUp? ==> e.times == (if first.ran then 1 else 0) && e.heard.None? && b.connected)
      && ((first.RequestLost? || first.ReplyLost?) && !first.back ==> !b.connected && e.heard.None?)
  {
    hide Mine, Applications, AllSound, InOrder, Now, AppliedTo;
    assert LineAfterCalls(a.line, 0) == a.line && LineAfterCalls(a.line, 1) == LineAfter(a.line);
    assert [e][0] == e;
  }

  class Client {
    const server: RedisServer
    var connected: bool
    var outcomes: seq<Outcome>
    ghost var log: seq<Exchange>

    constructor (server: RedisServer, outcomes: seq<Outcome>)
      ensures this.server == server && !connected && this.outcomes == outcomes && log == []
    {
      this.server := server;
      connected, this.outcomes, log := false, outcomes, [];
    }

    /** Connected, with no trouble ahead. */
    predicate Steady()
      reads this
    {
      connected && outcomes == []
    }

    /** connect() drops any old context first. */
    method Connect(succeeds: bool) returns (ok: bool)
      modifies this`connected
      ensures ok == succeeds == connected
    {
      Disconnect();
      connected := succeeds;
      ok := connected;
    }

    method Disconnect()
      modifies this`connected
      ensures !connected
    {
      connected := false;
    }

    method NextOutcome() returns (o: Outcome)
      modifies this`outcomes
      ensures o == OutcomeAt(old(outcomes), 0) && outcomes == Dropped(old(outcomes), 1)
    {
      if outcomes == [] {
        return Answered;
      }
      o, outcomes := outcomes[0], outcomes[1..];
    }

    /** One transmission, with whatever others do before it. */
    method Transmit(c: Command, ghost op: Op) returns (o: Outcome, reply: Option<RawReply>)
      requires server.Valid() && c == CommandFor(op)
      modifies this`outcomes, server
      ensures server.Valid() && server.start == old(server.start) && old(server.trace) <= server.trace
      ensures Mine(server.trace) == Mine(old(server.trace)) + Copies(op, Ran(o))
      ensures reply.Some? <==> o.Answered?
      ensures reply.Some? ==> server.Answers(op, reply.value) && |old(server.trace)| < |server.trace|
      ensures o == OutcomeAt(old(outcomes), 0) && outcomes == Dropped(old(outcomes), 1)
      ensures old(server.schedule) == [] ==> server.schedule == []
      ensures old(server.schedule) == [] && o.Answered? ==> server.trace == old(server.trace) + [Note(true, Do(op))]
    {
      server.Interfere();
      o := NextOutcome();
      reply := None;
      if Ran(o) == 1 {
        var r := server.Serve(c, op, true);
        if o.Answered? {
          reply := Some(r);
        }
      }
    }

    ghost function TheLine(): Line
      reads this
    {
      Line(connected, outcomes)
    }

    /** All that a call may change. */
    ghost function Look(): View
      reads this, server
    {
      View(log, server.trace, server.start, TheLine(), server.schedule == [])
    }

    /** exec_command: nothing without a context; a lost transmission is sent once more if the reconnect
        succeeds.  The exchange says how often the command was applied and what came back. */
    method ExecCommand(c: Command, ghost op: Op) returns (reply: Option<RawReply>, ghost e: Exchange)
      requires server.Valid() && c == CommandFor(op)
      modifies this, server
      ensures server.Valid() && e.op == op && Runs(old(Look()), Look(), [e]) && AnsweredAlone(old(Look()), e)
      ensures (reply.Some? <==> e.heard.Some?) && (reply.Some? ==> Decoded(op, reply.value) == ReplyIn(e))
    {
      hide Mine, Replay, EventsOf, Refines, CommandFor, Decoded, Answer;
      ghost var times;
      reply, times := Send(c, op);
      e := Exchange(op, times, if reply.Some? then Some(Heard(|server.trace| - 1, server.LastAnswer())) else None);
      log := log + [e];
      OneCall(old(Look()), Look(), e);
    }

    /** The transmissions of one call: a second one exactly after an I/O loss and a reconnect. */
    method Send(c: Command, ghost op: Op) returns (reply: Option<RawReply>, ghost times: nat)
      requires server.Valid() && c == CommandFor(op)
      modifies this`connected, this`outcomes, server
      ensures server.Valid() && server.start == old(server.start) && times <= 2
      ensures old(server.trace) <= server.trace
      ensures Mine(server.trace) == Mine(old(server.trace)) + Copies(op, times)
      ensures reply.Some? ==> times >= 1 && server.Answers(op, reply.value) && |old(server.trace)| < |server.trace|
      ensures times == TimesOn(old(TheLine())) && (reply.Some? <==> AnswersOn(old(TheLine())))
      ensures TheLine() == LineAfter(old(TheLine()))
      ensures !old(connected) ==> server.trace == old(server.trace)
      ensures old(server.schedule) == [] ==> server.schedule == []
      ensures old(Steady()) && old(server.schedule) == [] ==> server.trace == old(server.trace) + [Note(true, Do(op))]
    {
      hide Mine, Replay, EventsOf, Refines, CommandFor, Decoded, Answer;
      times := 0;
      if !connected {
        return None, 0;
      }
      var o: Outcome;
      o, reply := Transmit(c, op);
      times := Ran(o);
      if o.RequestLost? || o.ReplyLost? {
        connected := o.back;
        if connected {
          var o2: Outcome;
          ghost var once := times;
          o2, reply := Transmit(c, op);
          times := once + Ran(o2);
          assert Copies(op, times) == Copies(op, once) + Copies(op, times - once);
        }
      }
    }

    method EnqueueJob(job: SubmissionJob) returns (ok: bool, ghost e: Exchange)
      requires server.Valid()
      modifies this, server
      ensures server.Valid() && Runs(old(Look()), Look(), [e]) && AnsweredAlone(old(Look()), e)
      ensures e.op == Op.EnqueueJob(job) && (ok <==> e.heard.Some?)
    {
      hide Runs, AnsweredAlone, Refines, Replay, EventsOf;
      var payload := JobToJson(job);
      var reply;
      reply, e := ExecCommand(LPush(QUEUE_KEY, Document(payload)), Op.EnqueueJob(job));
      ok := reply.Some? && !reply.value.WrongType?;
    }

    method DequeueJob() returns (job: Option<SubmissionJob>, ghost e: Exchange)
      requires server.Valid()
      modifies this, server
      ensures server.Valid() && Runs(old(Look()), Look(), [e]) && AnsweredAlone(old(Look()), e)
      ensures e.op == Op.DequeueJob && job == JobHeard(e)
    {
      hide Runs, AnsweredAlone, Refines, Replay, EventsOf;
      var reply;
      reply, e := ExecCommand(BRPop(QUEUE_KEY), Op.DequeueJob);
      if reply.None? || reply.value.Nil? {
        return None, e;
      }
      if !reply.value.Multi? || |reply.value.items| < 2 {
        return None, e;
      }
      var payload := reply.value.items[1];
      job := if payload.Document? then JobFromJson(payload.json) else None;
    }

    method SetStatus(id: string, status: Verdict) returns (ok: bool, ghost e: Exchange)
      requires server.Valid()
      modifies this, server
      ensures server.Valid() && Runs(old(Look()), Look(), [e]) && AnsweredAlone(old(Look()), e)
      ensures e.op == Op.SetStatus(id, status) && (ok <==> e.heard.Some?)
    {
      hide Runs, AnsweredAlone, Refines, Replay, EventsOf;
      var key := STATUS_PREFIX + id;
      var reply;
      reply, e := ExecCommand(Set(key, Plain(ToString(status)), Some(RETENTION)), Op.SetStatus(id, status));
      ok := reply.Some? && !reply.value.WrongType?;
    }

    method GetStatus(id: string) returns (status: Option<Verdict>, ghost e: Exchange)
      requires server.Valid()
      modifies this, server
      ensures server.Valid() && Runs(old(Look()), Look(), [e]) && AnsweredAlone(old(Look()), e)
      ensures e.op == Op.GetStatus(id) && status == StatusHeard(e)
    {
      hide Runs, AnsweredAlone, Refines, Replay, EventsOf;
      var key := STATUS_PREFIX + id;
      var reply;
      reply, e := ExecCommand(Get(key), Op.GetStatus(id));
      if reply.None? || reply.value.Nil? {
        return None, e;
      }
      status := if reply.value.Bulk? && reply.value.value.Plain? then Some(FromString(reply.value.value.text)) else None;
    }

    method SetResult(result: SubmissionResult) returns (ok: bool, ghost e: Exchange)
      requires server.Valid()
      modifies this, server
      ensures server.Valid() && Runs(old(Look()), Look(), [e]) && AnsweredAlone(old(Look()), e)
      ensures e.op == Op.SetResult(result) && (ok <==> e.heard.Some?)
    {
      hide Runs, AnsweredAlone, Refines, Replay, EventsOf;
      var key := RESULT_PREFIX + result.submissionId;
      var payload := EncodeResult(result);
      var reply;
      reply, e := ExecCommand(Set(key, Document(payload), Some(RETENTION)), Op.SetResult(result));
      ok := reply.Some? && !reply.value.WrongType?;
    }

    method GetResult(id: string) returns (result: Option<SubmissionResult>, ghost e: Exchange)
      requires server.Valid()
      modifies this, server
      ensures server.Valid() && Runs(old(Look()), Look(), [e]) && AnsweredAlone(old(Look()), e)
      ensures e.op == Op.GetResult(id) && result == ResultHeard(e)
    {
      hide Runs, AnsweredAlone, Refines, Replay, EventsOf;
      var key := RESULT_PREFIX + id;
      var reply;
      reply, e := ExecCommand(Get(key), Op.GetResult(id));
      if reply.None? || reply.value.Nil? {
        return None, e;
      }
      if reply.value.Bulk? && reply.value.value.Document? {
        result := DecodeResult(reply.value.value.json);
      } else {
        result := None;
      }
    }

    method QueueLength() returns (length: int, ghost e: Exchange)
      requires server.Valid()
      modifies this, server
      ensures server.Valid() && Runs(old(Look()), Look(), [e]) && AnsweredAlone(old(Look()), e)
      ensures e.op == Op.QueueLength && length == LengthHeard(e)
    {
      hide Runs, AnsweredAlone, Refines, Replay, EventsOf;
      var reply;
      reply, e := ExecCommand(LLen(QUEUE_KEY), Op.QueueLength);
      if reply.None? || !reply.value.Integer? {
        return -1, e;
      }
      length := reply.value.n;
    }

    /** raw_get on a user's or a token's key; `op` is what the caller means by it. */
    method RawGet(key: string, ghost op: Op) returns (reply: Option<RawReply>, ghost e: Exchange)
      requires server.Valid() && (op.GetUser? || op.GetToken?) && key == KeyText(KeyOf(op))
      modifies this, server
      ensures server.Valid() && Runs(old(Look()), Look(), [e]) && AnsweredAlone(old(Look()), e)
      ensures e.op == op && (reply.Some? <==> e.heard.Some?)
      ensures reply.Some? ==> TextReply(reply.value).Some? && TextReply(reply.value) == ReplyIn(e)
    {
      hide Runs, AnsweredAlone, Refines, Replay, EventsOf;
      reply, e := ExecCommand(Get(key), op);
    }

    /** raw_set and raw_set_ex. */
    method RawSet(key: string, value: string, ttl: Option<nat>, ghost op: Op) returns (ok: bool, ghost e: Exchange)
      requires server.Valid() && (op.PutUser? || op.PutToken?) && Set(key, Plain(value), ttl) == CommandFor(op)
      modifies this, server
      ensures server.Valid() && Runs(old(Look()), Look(), [e]) && AnsweredAlone(old(Look()), e)
      ensures e.op == op && (ok <==> e.heard.Some?)
    {
      hide Runs, AnsweredAlone, Refines, Replay, EventsOf;
      var reply;
      reply, e := ExecCommand(Set(key, Plain(value), ttl), op);
      ok := reply.Some? && !reply.value.WrongType?;
    }

    method RawLPush(key: string, value: string, ghost op: Op) returns (reply: Option<RawReply>, ghost e: Exchange)
      requires server.Valid() && op.PushHistory? && LPush(key, Plain(value)) == CommandFor(op)
      modifies this, server
      ensures server.Valid() && Runs(old(Look()), Look(), [e]) && AnsweredAlone(old(Look()), e)
      ensures e.op == op && (reply.Some? <==> e.heard.Some?)
    {
      hide Runs, AnsweredAlone, Refines, Replay, EventsOf;
      reply, e := ExecCommand(LPush(key, Plain(value)), op);
    }

    method RawLTrim(key: string, start: int, stop: int, ghost op: Op) returns (ok: bool, ghost e: Exchange)
      requires server.Valid() && op.TrimHistory? && LTrim(key, start, stop) == CommandFor(op)
      modifies this, server
      ensures server.Valid() && Runs(old(Look()), Look(), [e]) && AnsweredAlone(old(Look()), e)
      ensures e.op == op && (ok <==> e.heard.Some?)
    {
      hide Runs, AnsweredAlone, Refines, Replay, EventsOf;
      var reply;
      reply, e := ExecCommand(LTrim(key, start, stop), op);
      ok := reply.Some? && !reply.value.WrongType?;
    }

    method RawLRange(key: string, start: int, stop: int, ghost op: Op)
      returns (reply: Option<RawReply>, ghost e: Exchange)
      requires server.Valid() && op.RangeHistory? && LRange(key, start, stop) == CommandFor(op)
      modifies this, server
      ensures server.Valid() && Runs(old(Look()), Look(), [e]) && AnsweredAlone(old(Look()), e)
      ensures e.op == op && (reply.Some? <==> e.heard.Some?)
      ensures reply.Some? ==>
        reply.value.Multi? && AllPlain(reply.value.items) && ReplyIn(e) == Some(Ids(Texts(reply.value.items)))
    {
      hide Runs, AnsweredAlone, Refines, Replay, EventsOf;
      reply, e := ExecCommand(LRange(key, start, stop), op);
    }
  }
}
