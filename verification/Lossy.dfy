/** What repeated commands do: a client that loses a reply sends its command once more
    (shared/src/redis_client.cpp).  Repeating SET or LTRIM is harmless; repeating LPUSH or BRPOP is not, and
    an account is kept of every copy of every job. */
module Lossy {
  import opened Sequences
  import opened Store
  import opened Verdicts

  // ----- Commands whose repetition leaves no trace -----

  predicate Repeatable(op: Op) {
    op.SetStatus? || op.SetResult? || op.PutUser? || op.PutToken? || op.TrimHistory?
  }

  ghost predicate AgreeBut<T>(a: map<string, T>, b: map<string, T>, key: string) {
    forall k :: k != key ==> (k in a <==> k in b) && (k in a ==> a[k] == b[k])
  }

  /** The two stores differ at most in what `op` will set right. */
  ghost predicate SameBut(op: Op, a: Store, b: Store) {
    && a.queue == b.queue
    && (if op.SetStatus? then AgreeBut(a.statuses, b.statuses, op.id) else a.statuses == b.statuses)
    && (if op.SetResult? then AgreeBut(a.results, b.results, op.result.submissionId) else a.results == b.results)
    && (if op.PutUser? then AgreeBut(a.users, b.users, op.user) else a.users == b.users)
    && (if op.PutToken? then AgreeBut(a.tokens, b.tokens, op.token) else a.tokens == b.tokens)
    && (if op.TrimHistory?
        then AgreeBut(a.histories, b.histories, op.user) && SameFront(HistoryOf(a, op.user), HistoryOf(b, op.user))
        else a.histories == b.histories)
  }

  predicate SameFront(a: seq<string>, b: seq<string>) {
    Slice(a, 0, HISTORY_LIMIT - 1) == Slice(b, 0, HISTORY_LIMIT - 1)
  }

  lemma FrontOfTrimmed(a: seq<string>)
    ensures SameFront(Slice(a, 0, HISTORY_LIMIT - 1), a)
  {
  }

  lemma FrontOfPushed(a: seq<string>, b: seq<string>, id: string)
    requires SameFront(a, b)
    ensures SameFront([id] + a, [id] + b)
  {
    var n := HISTORY_LIMIT - 1;
    var fa, fb := Slice(a, 0, n), Slice(b, 0, n);
    assert Slice([id] + a, 0, n) == ([id] + fa)[..if |fa| > n then n + 1 else |fa| + 1];
    assert Slice([id] + b, 0, n) == ([id] + fb)[..if |fb| > n then n + 1 else |fb| + 1];
  }

  lemma PerformOnce(op: Op, s: Store, now: nat)
    requires Repeatable(op)
    ensures SameBut(op, Perform(s, now, op), s)
  {
    hide Slice;
    if op.TrimHistory? {
      FrontOfTrimmed(HistoryOf(s, op.user));
    }
  }

  lemma ListWritten(s: Store, u: string, list: seq<string>, k: string)
    ensures HistoryOf(WithHistory(s, u, list), k) == if k == u then list else HistoryOf(s, k)
    ensures k in WithHistory(s, u, list).histories <==> if k == u then list != [] else k in s.histories
    ensures k in WithHistory(s, u, list).histories ==>
      WithHistory(s, u, list).histories[k] == if k == u then list else s.histories[k]
  {
  }

  lemma ListsStay(a: Store, b: Store, user: string, u: string, la: seq<string>, lb: seq<string>)
    requires AgreeBut(a.histories, b.histories, user) && (u != user ==> la == lb)
    ensures AgreeBut(WithHistory(a, u, la).histories, WithHistory(b, u, lb).histories, user)
  {
    hide HistoryOf, WithHistory;
    var ma, mb := WithHistory(a, u, la).histories, WithHistory(b, u, lb).histories;
    forall k | k != user ensures (k in ma <==> k in mb) && (k in ma ==> ma[k] == mb[k]) {
      ListWritten(a, u, la, k);
      ListWritten(b, u, lb, k);
    }
  }

  /** The list that a push or a trim leaves. */
  function NewList(e: Op, list: seq<string>): seq<string>
    requires e.PushHistory? || e.TrimHistory?
  {
    if e.PushHistory? then [e.id] + list else Slice(list, 0, HISTORY_LIMIT - 1)
  }

  lemma HistoryWrite(s: Store, now: nat, e: Op)
    requires e.PushHistory? || e.TrimHistory?
    ensures Perform(s, now, e) == WithHistory(s, e.user, NewList(e, HistoryOf(s, e.user)))
    ensures Perform(s, now, e).(histories := s.histories) == s
  {
    hide Slice, HistoryOf;
  }

  lemma NewFronts(e: Op, a: seq<string>, b: seq<string>)
    requires (e.PushHistory? || e.TrimHistory?) && SameFront(a, b)
    ensures SameFront(NewList(e, a), NewList(e, b))
  {
    hide Slice;
    if e.PushHistory? {
      FrontOfPushed(a, b, e.id);
    }
  }

  lemma HistoriesStay(user: string, a: Store, b: Store, now: nat, e: Op)
    requires SameBut(TrimHistory(user), a, b) && (e.PushHistory? || e.TrimHistory?)
    ensures SameBut(TrimHistory(user), Perform(a, now, e), Perform(b, now, e))
  {
    hide Slice, AgreeBut, SameFront, HistoryOf, Perform, WithHistory, NewList;
    var u, ha, hb := e.user, HistoryOf(a, e.user), HistoryOf(b, e.user);
    if u == user {
      NewFronts(e, ha, hb);
    } else {
      OtherList(a, b, user, u);
    }
    HistoryWrite(a, now, e);
    HistoryWrite(b, now, e);
    ListsStay(a, b, user, u, NewList(e, ha), NewList(e, hb));
    ListWritten(a, u, NewList(e, ha), user);
    ListWritten(b, u, NewList(e, hb), user);
  }

  lemma OtherList(a: Store, b: Store, user: string, u: string)
    requires AgreeBut(a.histories, b.histories, user) && u != user
    ensures HistoryOf(a, u) == HistoryOf(b, u)
  {
  }

  /** Whatever anyone does next, the difference does not spread. */
  lemma DifferenceStays(op: Op, a: Store, b: Store, now: nat, e: Op)
    requires Repeatable(op) && SameBut(op, a, b)
    ensures SameBut(op, Perform(a, now, e), Perform(b, now, e))
  {
    hide SameFront, Slice;
    if e.PushHistory? || e.TrimHistory? {
      hide AgreeBut, Perform, WithHistory;
      if op.TrimHistory? {
        HistoriesStay(op.user, a, b, now, e);
      } else {
        HistoryOpElsewhere(op, a, b, now, e);
      }
    }
  }

  lemma HistoryOpElsewhere(op: Op, a: Store, b: Store, now: nat, e: Op)
    requires SameBut(op, a, b) && !op.TrimHistory? && (e.PushHistory? || e.TrimHistory?)
    ensures SameBut(op, Perform(a, now, e), Perform(b, now, e))
  {
    hide AgreeBut, Slice, SameFront, Perform, NewList;
    HistoryWrite(a, now, e);
    HistoryWrite(b, now, e);
  }

  /** Performing the operation itself removes the difference. */
  lemma PerformAgain(op: Op, a: Store, b: Store, now: nat)
    requires Repeatable(op) && SameBut(op, a, b)
    ensures Perform(a, now, op) == Perform(b, now, op)
  {
    hide Slice;
    if op.TrimHistory? {
      var list := Slice(HistoryOf(a, op.user), 0, HISTORY_LIMIT - 1);
      assert a.histories - {op.user} == b.histories - {op.user};
      assert a.histories[op.user := list] == b.histories[op.user := list];
    }
  }

  lemma {:induction false} DifferenceStaysThroughout(op: Op, v: World, w: World, events: seq<Event>)
    requires Repeatable(op) && v.now == w.now && SameBut(op, v.store, w.store)
    ensures Replay(v, events).now == Replay(w, events).now
    ensures SameBut(op, Replay(v, events).store, Replay(w, events).store)
  {
    hide SameBut, Perform;
    if events != [] {
      var front, last := events[..|events| - 1], events[|events| - 1];
      DifferenceStaysThroughout(op, v, w, front);
      if last.Do? {
        DifferenceStays(op, Replay(v, front).store, Replay(w, front).store, Replay(v, front).now, last.op);
      }
    }
  }

  lemma {:induction false} ReplayInTurn(w: World, p: seq<Event>, q: seq<Event>)
    ensures Replay(w, p + q) == Replay(Replay(w, p), q)
  {
    if q == [] {
      assert p + q == p;
    } else {
      assert (p + q)[..|p + q| - 1] == p + q[..|q| - 1];
      ReplayInTurn(w, p, q[..|q| - 1]);
    }
  }

  lemma RepeatDisappears(w: World, op: Op, between: seq<Event>)
    requires Repeatable(op)
    ensures Replay(w, [Do(op)] + between + [Do(op)]) == Replay(w, between + [Do(op)])
  {
    hide SameBut, Perform, Repeatable;
    var once := Replay(w, [Do(op)]);
    assert Replay(w, []) == w && [Do(op)][..0] == [];
    PerformOnce(op, w.store, w.now);
    DifferenceStaysThroughout(op, once, w, between);
    ReplayInTurn(w, [Do(op)], between);
    PerformAgain(op, Replay(once, between).store, Replay(w, between).store, Replay(w, between).now);
    assert ([Do(op)] + between + [Do(op)])[..|between| + 1] == [Do(op)] + between;
    assert (between + [Do(op)])[..|between|] == between;
  }

  /** A SET or LTRIM sent twice leaves the world as if only the second had run, whatever anyone else did
      before, in between and after, and however long that took. */
  lemma RepeatIsHarmless(w: World, before: seq<Event>, op: Op, between: seq<Event>, after: seq<Event>)
    requires Repeatable(op)
    ensures Replay(w, before + [Do(op)] + between + [Do(op)] + after) == Replay(w, before + between + [Do(op)] + after)
  {
    var twice, once := [Do(op)] + between + [Do(op)], between + [Do(op)];
    assert before + [Do(op)] + between + [Do(op)] + after == before + twice + after;
    assert before + between + [Do(op)] + after == before + once + after;
    ReplayInTurn(w, before + twice, after);
    ReplayInTurn(w, before, twice);
    ReplayInTurn(w, before + once, after);
    ReplayInTurn(w, before, once);
    RepeatDisappears(Replay(w, before), op, between);
  }

  // ----- What a job that is judged twice does to its verdict -----

  /** The world after the first k events. */
  function WorldAt(w: World, events: seq<Event>, k: nat): World
    requires k <= |events|
  {
    Replay(w, events[..k])
  }

  /** The verdict that a read of the result key shows after k events. */
  function VerdictAt(w: World, events: seq<Event>, k: nat, id: string): Option<Verdict>
    requires k <= |events|
  {
    var result := Live(WorldAt(w, events, k).store.results, id, WorldAt(w, events, k).now);
    if result.Some? then Some(result.value.verdict) else None
  }

  /** Event j writes a result of this submission. */
  predicate Rules(events: seq<Event>, j: nat, id: string)
    requires j < |events|
  {
    events[j].Do? && events[j].op.SetResult? && events[j].op.result.submissionId == id
  }

  lemma WorldNext(w: World, events: seq<Event>, k: nat)
    requires k < |events|
    ensures WorldAt(w, events, k + 1) == Step(WorldAt(w, events, k), events[k])
  {
    assert events[..k + 1][..k] == events[..k];
  }

  lemma ResultNext(w: World, events: seq<Event>, k: nat, id: string)
    requires k < |events|
    ensures var before, after := WorldAt(w, events, k), WorldAt(w, events, k + 1);
      if Rules(events, k, id)
      then id in after.store.results &&
           after.store.results[id] == Timed(events[k].op.result, before.now + RETENTION) && after.now == before.now
      else Find(after.store.results, id) == Find(before.store.results, id)
  {
    hide WorldAt, Slice;
    WorldNext(w, events, k);
  }

  lemma {:induction false} VerdictStays(w: World, events: seq<Event>, m: nat, k: nat, id: string, v: Verdict)
    requires m <= k <= |events| && VerdictAt(w, events, m, id) == Some(v)
    requires forall j :: m <= j < k && Rules(events, j, id) ==> events[j].op.result.verdict == v
    ensures id in WorldAt(w, events, k).store.results && WorldAt(w, events, k).store.results[id].value.verdict == v
  {
    hide WorldAt;
    if m < k {
      VerdictStays(w, events, m, k - 1, id, v);
      ResultNext(w, events, k - 1, id);
    }
  }

  /** Stability with duplicates.  Whatever clients do, and however often a job is pushed, popped and judged:
      once a read has shown v, no later read of the result key shows anything else exactly if every result
      written from then on has verdict v. */
  lemma StableExactlyWhen(w: World, events: seq<Event>, m: nat, id: string, v: Verdict)
    requires m <= |events| && VerdictAt(w, events, m, id) == Some(v)
    ensures (forall k :: m <= k <= |events| ==> VerdictAt(w, events, k, id) == Some(v) || VerdictAt(w, events, k, id) == None)
       <==> (forall j :: m <= j < |events| && Rules(events, j, id) ==> events[j].op.result.verdict == v)
  {
    hide WorldAt;
    if forall j :: m <= j < |events| && Rules(events, j, id) ==> events[j].op.result.verdict == v {
      forall k | m <= k <= |events|
        ensures VerdictAt(w, events, k, id) == Some(v) || VerdictAt(w, events, k, id) == None
      {
        VerdictStays(w, events, m, k, id, v);
      }
    } else {
      var j :| m <= j < |events| && Rules(events, j, id) && events[j].op.result.verdict != v;
      WrittenIsShown(w, events, j, id);
    }
  }

  lemma WrittenIsShown(w: World, events: seq<Event>, j: nat, id: string)
    requires j < |events| && Rules(events, j, id)
    ensures VerdictAt(w, events, j + 1, id) == Some(events[j].op.result.verdict)
  {
    hide WorldAt;
    ResultNext(w, events, j, id);
  }

  // ----- The account of every copy of a job -----

  /** One copy of a job: the call that pushed it, and which of its transmissions did. */
  datatype Copy = Copy(call: nat, attempt: nat, job: SubmissionJob)

  datatype Request = Push(job: SubmissionJob) | Pop

  /** One transmission: whether it reached the server, what a pop took, and whether its reply is lost. */
  datatype Attempt = Attempt(reached: bool, taken: Option<Copy>, lost: bool)

  /** A call waits for a reply, has returned it, has given up, or its caller is done with the job. */
  datatype Phase = Active | Replied | GaveUp | Done

  datatype Call = Call(request: Request, attempts: seq<Attempt>, phase: Phase)

  /** The queue has its newest copy first; `pushed` and `popped` list all copies in the order of the commands. */
  datatype Books = Books(queue: seq<Copy>, pushed: seq<Copy>, popped: seq<Copy>, calls: seq<Call>)

  const OPENED := Books([], [], [], [])

  datatype Move =
    | Begin(request: Request)
    | Send(call: nat, reaches: bool)
    | LoseReply(call: nat)
    | Return(call: nat)
    | GiveUp(call: nat)
    | Complete(call: nat)

  predicate AwaitsReply(c: Call) {
    c.attempts != [] && !c.attempts[|c.attempts| - 1].lost
  }

  /** A command is sent once, and once more only if the first transmission brought no reply. */
  predicate Possible(b: Books, m: Move) {
    match m
    case Begin(_) => true
    case Send(c, _) =>
      c < |b.calls| && b.calls[c].phase == Active && |b.calls[c].attempts| < 2 && !AwaitsReply(b.calls[c])
    case LoseReply(c) => c < |b.calls| && b.calls[c].phase == Active && AwaitsReply(b.calls[c])
    case Return(c) => c < |b.calls| && b.calls[c].phase == Active && AwaitsReply(b.calls[c])
    case GiveUp(c) => c < |b.calls| && b.calls[c].phase == Active && !AwaitsReply(b.calls[c])
    case Complete(c) => c < |b.calls| && b.calls[c].phase == Replied
  }

  function WithCall(b: Books, c: nat, call: Call): Books
    requires c < |b.calls|
  {
    b.(calls := b.calls[c := call])
  }

  function WithAttempt(b: Books, c: nat, a: Attempt): Books
    requires c < |b.calls|
  {
    WithCall(b, c, b.calls[c].(attempts := b.calls[c].attempts + [a]))
  }

  function Moved(b: Books, m: Move): Books
    requires Possible(b, m)
  {
    match m
    case Begin(request) => b.(calls := b.calls + [Call(request, [], Active)])
    case Send(c, reaches) =>
      if !reaches then WithAttempt(b, c, Attempt(false, None, true))
      else if b.calls[c].request.Push? then
        var copy := Copy(c, |b.calls[c].attempts|, b.calls[c].request.job);
        WithAttempt(b, c, Attempt(true, None, false)).(queue := [copy] + b.queue, pushed := b.pushed + [copy])
      else if b.queue == [] then WithAttempt(b, c, Attempt(true, None, false))
      else
        var n := |b.queue| - 1;
        WithAttempt(b, c, Attempt(true, Some(b.queue[n]), false))
          .(queue := b.queue[..n], popped := b.popped + [b.queue[n]])
    case LoseReply(c) =>
      var n := |b.calls[c].attempts| - 1;
      WithCall(b, c, b.calls[c].(attempts := b.calls[c].attempts[n := b.calls[c].attempts[n].(lost := true)]))
    case Return(c) => WithCall(b, c, b.calls[c].(phase := Replied))
    case GiveUp(c) => WithCall(b, c, b.calls[c].(phase := GaveUp))
    case Complete(c) => WithCall(b, c, b.calls[c].(phase := Done))
  }

  predicate IsHistory(b: Books, moves: seq<Move>)
    decreases |moves|
  {
    moves == [] || (Possible(b, moves[0]) && IsHistory(Moved(b, moves[0]), moves[1..]))
  }

  function Afterwards(b: Books, moves: seq<Move>): Books
    requires IsHistory(b, moves)
    decreases |moves|
  {
    if moves == [] then b else Afterwards(Moved(b, moves[0]), moves[1..])
  }

  /** Where a popped copy is. */
  datatype Fate = InTransit | InHand | Finished | Dropped

  function CopyOf(a: Attempt): multiset<Copy> {
    if a.taken.Some? then multiset{a.taken.value} else multiset{}
  }

  function CopiesOf(attempts: seq<Attempt>): multiset<Copy> {
    if attempts == [] then multiset{} else CopiesOf(attempts[..|attempts| - 1]) + CopyOf(attempts[|attempts| - 1])
  }

  /** A reply reached the caller exactly for the last attempt, and only if it was not lost. */
  function Share(c: Call, fate: Fate): multiset<Copy> {
    var answered := if AwaitsReply(c) then 1 else 0;
    var earlier := c.attempts[..|c.attempts| - answered];
    var last := c.attempts[|c.attempts| - answered..];
    match fate
    case Dropped => CopiesOf(earlier)
    case InTransit => if c.phase == Active then CopiesOf(last) else multiset{}
    case InHand => if c.phase == Replied then CopiesOf(last) else multiset{}
    case Finished => if c.phase == Done then CopiesOf(last) else multiset{}
  }

  /** All copies with this fate. */
  function Total(calls: seq<Call>, fate: Fate): multiset<Copy> {
    if calls == [] then multiset{} else Total(calls[..|calls| - 1], fate) + Share(calls[|calls| - 1], fate)
  }

  function AllTaken(calls: seq<Call>): multiset<Copy> {
    if calls == [] then multiset{} else AllTaken(calls[..|calls| - 1]) + CopiesOf(calls[|calls| - 1].attempts)
  }

  /** At most two attempts, none but the last with a reply; what was not reached was lost; pushes take nothing. */
  predicate CallKept(c: Call) {
    && |c.attempts| <= 2
    && (forall a :: 0 <= a < |c.attempts| - 1 ==> c.attempts[a].lost)
    && (forall a :: 0 <= a < |c.attempts| ==>
          (!c.attempts[a].reached ==> c.attempts[a].lost) && (c.attempts[a].taken.Some? ==> c.request.Pop?))
    && (c.phase == Replied || c.phase == Done ==> AwaitsReply(c)) && (c.phase == GaveUp ==> !AwaitsReply(c))
  }

  predicate CallsKept(calls: seq<Call>) {
    forall c <- calls :: CallKept(c)
  }

  /** Attempt `a` of call `c` pushed `copy`. */
  predicate Pushed(calls: seq<Call>, copy: Copy) {
    && copy.call < |calls| && calls[copy.call].request == Push(copy.job)
    && copy.attempt < |calls[copy.call].attempts| && calls[copy.call].attempts[copy.attempt].reached
  }

  ghost predicate PushesKept(pushed: seq<Copy>, calls: seq<Call>) {
    && (forall copy: Copy :: copy in pushed <==> Pushed(calls, copy))
    && (forall i, j :: 0 <= i < j < |pushed| ==> pushed[i] != pushed[j])
  }

  ghost predicate Kept(b: Books) {
    && b.pushed == b.popped + Reverse(b.queue)
    && multiset(b.popped) == AllTaken(b.calls)
    && CallsKept(b.calls)
    && PushesKept(b.pushed, b.calls)
  }

  function JobsIn(copies: seq<Copy>): (jobs: seq<SubmissionJob>)
    ensures |jobs| == |copies|
  {
    seq(|copies|, i requires 0 <= i < |copies| => copies[i].job)
  }

  /** The queue of the books is the store's: a transmission that reaches the server does to it what the
      operation does to the store's queue, a pop takes the job that the operation answers, and nothing else
      moves it. */
  lemma BooksFollowTheStore(b: Books, m: Move, s: Store, now: nat)
    requires Possible(b, m) && s.queue == JobsIn(b.queue)
    ensures var b' := Moved(b, m);
      if m.Send? && m.reaches then
        var op := if b.calls[m.call].request.Push? then EnqueueJob(b.calls[m.call].request.job) else DequeueJob;
        var last := b'.calls[m.call].attempts[|b'.calls[m.call].attempts| - 1];
        && JobsIn(b'.queue) == Perform(s, now, op).queue
        && (op.DequeueJob? ==>
              Answer(s, now, op) == Job(if last.taken.Some? then Some(last.taken.value.job) else None))
      else b'.queue == b.queue
  {
    hide Slice;
    if m.Send? && m.reaches && b.calls[m.call].request.Push? {
      var copy := Copy(m.call, |b.calls[m.call].attempts|, b.calls[m.call].request.job);
      assert JobsIn([copy] + b.queue) == [copy.job] + JobsIn(b.queue);
    } else if m.Send? && m.reaches && b.queue != [] {
      assert JobsIn(b.queue[..|b.queue| - 1]) == JobsIn(b.queue)[..|b.queue| - 1];
    }
  }

  lemma AddToBoth(x: multiset<Copy>, a: multiset<Copy>, y: multiset<Copy>, b: multiset<Copy>, more: multiset<Copy>)
    requires x + a == y + b
    ensures x + more + a == y + more + b
  {
    assert x + more + a == (x + a) + more;
  }

  lemma Cancel(x: multiset<Copy>, y: multiset<Copy>, more: multiset<Copy>)
    requires x + more == y + more
    ensures x == y
  {
    assert x == (x + more) - more && y == (y + more) - more;
  }

  lemma {:induction false} TakenByOneCall(calls: seq<Call>, c: nat, call: Call)
    requires c < |calls|
    ensures AllTaken(calls[c := call]) + CopiesOf(calls[c].attempts) == AllTaken(calls) + CopiesOf(call.attempts)
  {
    hide CopiesOf;
    var n := |calls| - 1;
    var calls' := calls[c := call];
    if c == n {
      assert calls'[..n] == calls[..n];
    } else {
      TakenByOneCall(calls[..n], c, call);
      assert calls'[..n] == calls[..n][c := call] && calls'[n] == calls[n];
      AddToBoth(AllTaken(calls'[..n]), CopiesOf(calls[c].attempts), AllTaken(calls[..n]), CopiesOf(call.attempts),
                CopiesOf(calls[n].attempts));
    }
  }

  lemma CopiesOfMore(attempts: seq<Attempt>, a: Attempt)
    ensures CopiesOf(attempts + [a]) == CopiesOf(attempts) + CopyOf(a)
  {
    assert (attempts + [a])[..|attempts|] == attempts;
  }

  lemma CopiesSurviveLoss(attempts: seq<Attempt>)
    requires attempts != []
    ensures var n := |attempts| - 1; CopiesOf(attempts[n := attempts[n].(lost := true)]) == CopiesOf(attempts)
  {
    var n := |attempts| - 1;
    assert attempts[n := attempts[n].(lost := true)][..n] == attempts[..n];
  }

  lemma LineKept(b: Books, m: Move)
    requires Kept(b) && Possible(b, m)
    ensures Moved(b, m).pushed == Moved(b, m).popped + Reverse(Moved(b, m).queue)
  {
    hide CallsKept, PushesKept, AllTaken;
    if m.Send? && m.reaches {
      if b.calls[m.call].request.Push? {
        ReverseCons(b.queue, Copy(m.call, |b.calls[m.call].attempts|, b.calls[m.call].request.job));
      } else if b.queue != [] {
        ReverseLast(b.queue);
      }
    }
  }

  lemma SendTakes(b: Books, c: nat, reaches: bool)
    requires Possible(b, Send(c, reaches))
    ensures CallTakes(b, Moved(b, Send(c, reaches)), c)
  {
    hide CopiesOf;
    var b' := Moved(b, Send(c, reaches));
    CopiesOfMore(b.calls[c].attempts, b'.calls[c].attempts[|b.calls[c].attempts|]);
  }

  lemma LossTakes(b: Books, c: nat)
    requires Possible(b, LoseReply(c))
    ensures CallTakes(b, Moved(b, LoseReply(c)), c)
  {
    hide CopiesOf, CopyOf;
    CopiesSurviveLoss(b.calls[c].attempts);
  }

  /** What a move adds to the pops is what it adds to the takings of its call. */
  predicate CallTakes(b: Books, b': Books, c: nat) {
    && c < |b.calls| && c < |b'.calls| && b'.calls == b.calls[c := b'.calls[c]]
    && multiset(b'.popped) + CopiesOf(b.calls[c].attempts) == multiset(b.popped) + CopiesOf(b'.calls[c].attempts)
  }

  lemma MoveTakes(b: Books, m: Move)
    requires !m.Begin? && Possible(b, m)
    ensures CallTakes(b, Moved(b, m), m.call)
  {
    hide CopiesOf;
    if m.Send? {
      hide CallTakes, Moved;
      SendTakes(b, m.call, m.reaches);
    } else if m.LoseReply? {
      hide CallTakes, Moved;
      LossTakes(b, m.call);
    }
  }

  lemma TakingsKept(b: Books, m: Move)
    requires multiset(b.popped) == AllTaken(b.calls) && Possible(b, m)
    ensures multiset(Moved(b, m).popped) == AllTaken(Moved(b, m).calls)
  {
    hide CopiesOf;
    if m.Begin? {
      assert (b.calls + [Call(m.request, [], Active)])[..|b.calls|] == b.calls;
      CopiesOfNone();
    } else {
      hide AllTaken;
      MoveTakes(b, m);
      hide Moved;
      TakenByOneCall(b.calls, m.call, Moved(b, m).calls[m.call]);
      Cancel(multiset(Moved(b, m).popped), AllTaken(Moved(b, m).calls), CopiesOf(b.calls[m.call].attempts));
    }
  }

  lemma CallsStayKept(b: Books, m: Move)
    requires CallsKept(b.calls) && Possible(b, m)
    ensures CallsKept(Moved(b, m).calls)
  {
    if !m.Begin? {
      assert CallKept(b.calls[m.call]);
      assert CallKept(Moved(b, m).calls[m.call]);
    }
  }

  /** What a push puts in the queue. */
  predicate Pushes(b: Books, m: Move, copy: Copy) {
    && m.Send? && m.reaches && m.call < |b.calls| && b.calls[m.call].request.Push?
    && copy == Copy(m.call, |b.calls[m.call].attempts|, b.calls[m.call].request.job)
  }

  lemma PushedNext(b: Books, m: Move, copy: Copy)
    requires Possible(b, m)
    ensures Pushed(Moved(b, m).calls, copy) <==> Pushed(b.calls, copy) || Pushes(b, m, copy)
    ensures Pushes(b, m, copy) ==> !Pushed(b.calls, copy)
  {
  }

  lemma PushedLine(b: Books, m: Move)
    requires Possible(b, m)
    ensures if m.Send? && m.reaches && b.calls[m.call].request.Push?
            then Pushes(b, m, Copy(m.call, |b.calls[m.call].attempts|, b.calls[m.call].request.job)) &&
                 Moved(b, m).pushed == b.pushed + [Copy(m.call, |b.calls[m.call].attempts|, b.calls[m.call].request.job)]
            else Moved(b, m).pushed == b.pushed
  {
  }

  lemma PushesStayKept(b: Books, m: Move)
    requires PushesKept(b.pushed, b.calls) && Possible(b, m)
    ensures PushesKept(Moved(b, m).pushed, Moved(b, m).calls)
  {
    hide Moved, Pushed;
    PushedLine(b, m);
    forall copy: Copy ensures copy in Moved(b, m).pushed <==> Pushed(Moved(b, m).calls, copy) {
      PushedNext(b, m, copy);
    }
    if m.Send? && m.reaches && b.calls[m.call].request.Push? {
      PushedNext(b, m, Moved(b, m).pushed[|b.pushed|]);
    }
  }

  lemma MoveKeeps(b: Books, m: Move)
    requires Kept(b) && Possible(b, m)
    ensures Kept(Moved(b, m))
  {
    hide Moved, CallsKept, PushesKept, Reverse, AllTaken, Possible;
    LineKept(b, m);
    TakingsKept(b, m);
    CallsStayKept(b, m);
    PushesStayKept(b, m);
  }

  lemma {:induction false} HistoryKeeps(b: Books, moves: seq<Move>)
    requires Kept(b) && IsHistory(b, moves)
    ensures Kept(Afterwards(b, moves))
    decreases |moves|
  {
    hide Kept, Moved, Possible;
    if moves != [] {
      MoveKeeps(b, moves[0]);
      HistoryKeeps(Moved(b, moves[0]), moves[1..]);
    }
  }

  /** A call's copies are either dropped or have one fate. */
  lemma SharesOfOneCall(c: Call)
    requires CallKept(c)
    ensures CopiesOf(c.attempts) == Share(c, InTransit) + Share(c, InHand) + Share(c, Finished) + Share(c, Dropped)
    ensures forall copy :: copy in Share(c, Dropped) ==>
              exists a :: 0 <= a < |c.attempts| && c.attempts[a].lost && c.attempts[a].taken == Some(copy)
  {
    hide CopiesOf, CopyOf;
    var n := |c.attempts|;
    CopiesOfNone();
    if AwaitsReply(c) {
      var earlier, last := c.attempts[..n - 1], c.attempts[n - 1];
      assert c.attempts == earlier + [last] && c.attempts[n - 1..] == [] + [last];
      CopiesOfMore(earlier, last);
      CopiesOfMore([], last);
      CopiesAreTaken(earlier);
    } else {
      assert c.attempts[..n] == c.attempts && c.attempts[n..] == [];
      CopiesAreTaken(c.attempts);
    }
  }

  lemma CopiesOfNone()
    ensures CopiesOf([]) == multiset{}
  {
  }

  lemma {:induction false} CopiesAreTaken(attempts: seq<Attempt>)
    ensures forall copy :: copy in CopiesOf(attempts) ==> exists a :: 0 <= a < |attempts| && attempts[a].taken == Some(copy)
  {
    if attempts != [] {
      CopiesAreTaken(attempts[..|attempts| - 1]);
    }
  }

  /** `copy` was taken by a pop whose reply was lost. */
  predicate LostByPop(calls: seq<Call>, copy: Copy) {
    exists c, a :: 0 <= c < |calls| && 0 <= a < |calls[c].attempts| && calls[c].request.Pop? &&
      calls[c].attempts[a].lost && calls[c].attempts[a].taken == Some(copy)
  }

  lemma {:induction false} TotalsAddUp(calls: seq<Call>)
    requires CallsKept(calls)
    ensures AllTaken(calls) == Total(calls, InTransit) + Total(calls, InHand) + Total(calls, Finished) + Total(calls, Dropped)
    ensures forall copy :: copy in Total(calls, Dropped) ==> LostByPop(calls, copy)
  {
    hide CopiesOf, Share;
    if calls != [] {
      var front, last := calls[..|calls| - 1], calls[|calls| - 1];
      TotalsAddUp(front);
      SharesOfOneCall(last);
      forall copy | copy in Total(calls, Dropped) ensures LostByPop(calls, copy) {
        if copy in Total(front, Dropped) {
          var c, a :| 0 <= c < |front| && 0 <= a < |front[c].attempts| && front[c].request.Pop? &&
            front[c].attempts[a].lost && front[c].attempts[a].taken == Some(copy);
          assert calls[c] == front[c];
        }
      }
    }
  }

  /** In every history of lossy calls: pops take the copies in the order of the pushes; each copy ever pushed
      is still queued, in transit, in a caller's hands, finished or dropped, and in only one of these; a copy
      is dropped only when the reply of the pop that took it was lost; and the copies of one enqueue call are
      exactly those of its transmissions that reached the server, at most two, at least one if the call
      succeeded. */
  lemma EveryCopyIsAccountedFor(moves: seq<Move>)
    requires IsHistory(OPENED, moves)
    ensures var b := Afterwards(OPENED, moves);
      && b.pushed == b.popped + Reverse(b.queue)
      && multiset(b.pushed) == multiset(b.queue) + Total(b.calls, InTransit) + Total(b.calls, InHand)
                               + Total(b.calls, Finished) + Total(b.calls, Dropped)
      && (forall copy :: copy in b.pushed ==> multiset(b.pushed)[copy] == 1)
      && (forall copy :: copy in Total(b.calls, Dropped) ==> LostByPop(b.calls, copy))
    ensures var b := Afterwards(OPENED, moves);
      forall c :: 0 <= c < |b.calls| && b.calls[c].request.Push? ==>
        && |b.calls[c].attempts| <= 2
        && (forall a: nat :: Copy(c, a, b.calls[c].request.job) in b.pushed <==>
              a < |b.calls[c].attempts| && b.calls[c].attempts[a].reached)
        && (b.calls[c].phase == Replied ==> exists a: nat :: Copy(c, a, b.calls[c].request.job) in b.pushed)
  {
    hide Total, AllTaken, Share, Reverse, LostByPop;
    assert Kept(OPENED) by { KeptAtFirst(); }
    HistoryKeeps(OPENED, moves);
    var b := Afterwards(OPENED, moves);
    TotalsAddUp(b.calls);
    ReverseKeeps(b.queue);
    OnceEach(b.pushed);
    forall c | 0 <= c < |b.calls| && b.calls[c].request.Push?
      ensures |b.calls[c].attempts| <= 2
      ensures forall a: nat :: Copy(c, a, b.calls[c].request.job) in b.pushed <==>
                a < |b.calls[c].attempts| && b.calls[c].attempts[a].reached
      ensures b.calls[c].phase == Replied ==> exists a: nat :: Copy(c, a, b.calls[c].request.job) in b.pushed
    {
      assert CallKept(b.calls[c]);
      if b.calls[c].phase == Replied {
        assert Copy(c, |b.calls[c].attempts| - 1, b.calls[c].request.job) in b.pushed;
      }
    }
  }

  lemma KeptAtFirst()
    ensures Kept(OPENED)
  {
  }

  lemma {:induction false} OnceEach(list: seq<Copy>)
    requires forall i, j :: 0 <= i < j < |list| ==> list[i] != list[j]
    ensures forall copy :: copy in list ==> multiset(list)[copy] == 1
  {
    if list != [] {
      OnceEach(list[1..]);
      assert list == [list[0]] + list[1..];
      assert list[0] !in list[1..];
    }
  }

  lemma OneMove(b: Books, m: Move, rest: seq<Move>)
    requires Possible(b, m) && IsHistory(Moved(b, m), rest)
    ensures IsHistory(b, [m] + rest) && Afterwards(b, [m] + rest) == Afterwards(Moved(b, m), rest)
  {
    hide Possible, Moved;
    assert ([m] + rest)[1..] == rest;
  }

  /** An enqueue whose first reply is lost: its second transmission puts a second copy in the queue, and the call
      still succeeds. */
  function Doubled(job: SubmissionJob): seq<Move> {
    [Begin(Push(job))] + ([Send(0, true)] + ([LoseReply(0)] + ([Send(0, true)] + ([Return(0)] + []))))
  }

  lemma DuplicatesHappen(job: SubmissionJob)
    ensures IsHistory(OPENED, Doubled(job))
    ensures var b := Afterwards(OPENED, Doubled(job));
      b.pushed == [Copy(0, 0, job), Copy(0, 1, job)] && |b.calls| == 1 && b.calls[0].phase == Replied
  {
    hide IsHistory, Afterwards;
    var b1 := Moved(OPENED, Begin(Push(job)));
    var b2 := Moved(b1, Send(0, true));
    var b3 := Moved(b2, LoseReply(0));
    var b4 := Moved(b3, Send(0, true));
    var b5 := Moved(b4, Return(0));
    NoMove(b5);
    OneMove(b4, Return(0), []);
    OneMove(b3, Send(0, true), [Return(0)] + []);
    OneMove(b2, LoseReply(0), [Send(0, true)] + ([Return(0)] + []));
    OneMove(b1, Send(0, true), [LoseReply(0)] + ([Send(0, true)] + ([Return(0)] + [])));
    OneMove(OPENED, Begin(Push(job)), [Send(0, true)] + ([LoseReply(0)] + ([Send(0, true)] + ([Return(0)] + []))));
  }

  lemma NoMove(b: Books)
    ensures IsHistory(b, []) && Afterwards(b, []) == b
  {
  }
}
