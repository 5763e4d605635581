/** What a reader of a history shows (api/src/server.cpp, the listing handler), and that handlers and readers
    come to an end. */
module ProtocolReaders {
  import opened Protocol
  import opened ProtocolHistory
  import opened ProtocolInvariant
  import opened ProtocolLiveness
  import opened ProtocolQueue
  import opened ProtocolVerdicts
  import opened Store
  import opened Verdicts

  function IdsShown(shown: seq<Shown>): (ids: seq<string>)
    ensures |ids| == |shown|
  {
    seq(|shown|, i requires 0 <= i < |shown| => shown[i].id)
  }

  /** Everything a reader has shown or has still to show, in order. */
  function AllIds(rd: Reader): seq<string> {
    IdsShown(rd.shown) + rd.todo
  }

  /** The first 50 of a list. */
  function Page(ids: seq<string>): seq<string> {
    if |ids| <= 50 then ids else ids[..50]
  }

  /** The reader has listed, and goes through this page. */
  predicate GoesThrough(rd: Reader, page: seq<string>) {
    !rd.phase.Listing? && AllIds(rd) == page
  }

  predicate UnlistedAreBlank(readers: seq<Reader>) {
    forall r :: 0 <= r < |readers| && readers[r].phase.Listing? ==> readers[r].shown == [] && readers[r].todo == []
  }

  lemma NextReadGoesOn(rd: Reader, s: Store, now: nat)
    requires rd.phase.Listing? || rd.todo != []
    ensures !NextRead(rd, s, now).phase.Listing?
    ensures !rd.phase.Listing? ==> AllIds(NextRead(rd, s, now)) == AllIds(rd)
  {
    hide Live, Slice;
    var next := NextRead(rd, s, now);
    if !rd.phase.Listing? && next.todo != rd.todo {
      assert rd.todo == [rd.todo[0]] + next.todo;
      assert IdsShown(next.shown) == IdsShown(rd.shown) + [rd.todo[0]];
    }
  }

  lemma {:induction false} RunKeepsBlank(s: State, actions: seq<Action>)
    requires IsRun(s, actions) && UnlistedAreBlank(s.readers)
    ensures UnlistedAreBlank(After(s, actions).readers)
    decreases |actions|
  {
    hide Take, NextRead;
    if actions != [] {
      var a := actions[0];
      ReadersAfter(s, a);
      NewReadersAreBlank(s, a);
      if a.ReaderStep? {
        NextReadGoesOn(s.readers[a.r], s.store, s.now);
      }
      RunKeepsBlank(Take(s, a), actions[1..]);
    }
  }

  lemma NewReadersAreBlank(s: State, a: Action)
    requires Enabled(s, a)
    ensures forall r :: |s.readers| <= r < |Take(s, a).readers| && Take(s, a).readers[r].phase.Listing? ==>
              Take(s, a).readers[r].todo == []
  {
    hide NextRead, Perform, HandlerDoes, JudgeDoes, PopDoes;
    match a {
      case HandlerStep(h) => HandlerLeavesReaders(s, h);
      case TryPop(w) => PopLeavesReaders(s, w);
      case JudgeStep(w) => JudgeLeavesReaders(s, w);
      case _ =>
    }
  }

  /** A reader that has listed goes through the same page whatever anyone does. */
  lemma {:induction false} PageStays(s: State, actions: seq<Action>, r: nat, page: seq<string>)
    requires IsRun(s, actions) && r < |s.readers| && GoesThrough(s.readers[r], page)
    ensures r < |After(s, actions).readers| && GoesThrough(After(s, actions).readers[r], page)
    decreases |actions|
  {
    hide Take, Enabled, NextRead, AllIds;
    if actions != [] {
      var a := actions[0];
      ReadersAfter(s, a);
      if a.ReaderStep? && a.r == r {
        NextReadGoesOn(s.readers[r], s.store, s.now);
      }
      PageStays(Take(s, a), actions[1..], r, page);
    }
  }

  /** The listing read of a history reader finds the first 50 of all that user's submissions, newest first,
      as if none had ever been trimmed; and whatever happens afterwards, what the reader has shown, followed
      by what it still has to show, is exactly that page, in order. */
  lemma HistoryReaderShowsThePage(s: State, r: nat, actions: seq<Action>)
    requires Reachable(s) && r < |s.readers| && s.readers[r].phase.Listing?
    requires IsRun(Take(s, ReaderStep(r)), actions)
    ensures var s' := After(Take(s, ReaderStep(r)), actions);
            r < |s'.readers| && GoesThrough(s'.readers[r], Page(ListOf(s.full, s.readers[r].phase.user)))
  {
    hide Slice, After, IsRun;
    BlankInReach(s);
    PageIsUnaffectedByTrimming(s, s.readers[r].phase.user);
    assert IdsShown([]) == [];
    PageStays(Take(s, ReaderStep(r)), actions, r, Page(ListOf(s.full, s.readers[r].phase.user)));
  }

  /** A poll that begins goes through exactly its one submission, whatever happens afterwards. */
  lemma PollShowsItsSubmission(s: State, id: string, actions: seq<Action>)
    requires IsRun(Take(s, BeginPoll(id)), actions)
    ensures var s' := After(Take(s, BeginPoll(id)), actions);
            |s.readers| < |s'.readers| && GoesThrough(s'.readers[|s.readers|], [id])
  {
    hide After, IsRun;
    assert IdsShown([]) + [id] == [id];
    PageStays(Take(s, BeginPoll(id)), actions, |s.readers|, [id]);
  }

  /** A reader of a history that begins has its listing read still to do until its own first step. */
  lemma {:induction false} HistoryReaderWaits(s: State, actions: seq<Action>, r: nat, user: string)
    requires IsRun(s, actions) && r < |s.readers| && s.readers[r] == Reader(Listing(user), [], [])
    requires ReaderStep(r) !in actions
    ensures r < |After(s, actions).readers| && After(s, actions).readers[r] == Reader(Listing(user), [], [])
    decreases |actions|
  {
    hide Take, Enabled, NextRead;
    if actions != [] {
      ReadersAfter(s, actions[0]);
      assert actions[0] in actions;
      HistoryReaderWaits(Take(s, actions[0]), actions[1..], r, user);
    }
  }

  lemma HistoryReaderBegins(s: State, user: string, actions: seq<Action>)
    requires IsRun(Take(s, BeginHistory(user)), actions) && ReaderStep(|s.readers|) !in actions
    ensures var s' := After(Take(s, BeginHistory(user)), actions);
            |s.readers| < |s'.readers| && s'.readers[|s.readers|] == Reader(Listing(user), [], [])
  {
    hide After, IsRun;
    HistoryReaderWaits(Take(s, BeginHistory(user)), actions, |s.readers|, user);
  }

  lemma BlankInReach(s: State)
    requires Reachable(s)
    ensures UnlistedAreBlank(s.readers)
  {
    hide Take, Enabled;
    var actions :| IsRun(INITIAL, actions) && s == After(INITIAL, actions);
    RunKeepsBlank(INITIAL, actions);
  }

  /** How many reads a reader has left at most, once it has listed. */
  function ReadsLeft(rd: Reader): nat {
    2 * |rd.todo| + if rd.phase.ReadingStatus? then 0 else 1
  }

  predicate IsDone(rd: Reader) {
    !rd.phase.Listing? && rd.todo == []
  }

  predicate OnlyReader(actions: seq<Action>, r: nat) {
    forall a <- actions :: a == ReaderStep(r)
  }

  lemma FewerReadsLeft(rd: Reader, s: Store, now: nat)
    requires !rd.phase.Listing? && rd.todo != []
    ensures ReadsLeft(NextRead(rd, s, now)) < ReadsLeft(rd)
  {
    hide Live;
  }

  /** A reader that has listed can always show all the rest with its own steps. */
  lemma {:induction false} ReaderCanFinish(s: State, r: nat)
    requires r < |s.readers| && !s.readers[r].phase.Listing?
    ensures exists actions ::
      OnlyReader(actions, r) && IsRun(s, actions) && r < |After(s, actions).readers| && IsDone(After(s, actions).readers[r])
    decreases ReadsLeft(s.readers[r])
  {
    if IsDone(s.readers[r]) {
      assert OnlyReader([], r) && IsRun(s, []) && After(s, []) == s;
    } else {
      var a := ReaderStep(r);
      NextReadGoesOn(s.readers[r], s.store, s.now);
      FewerReadsLeft(s.readers[r], s.store, s.now);
      hide NextRead, ReadsLeft, IsDone;
      ReaderCanFinish(Take(s, a), r);
      hide Take, Enabled;
      var rest :| OnlyReader(rest, r) && IsRun(Take(s, a), rest) && r < |After(Take(s, a), rest).readers| &&
                  IsDone(After(Take(s, a), rest).readers[r]);
      assert ([a] + rest)[1..] == rest;
      assert IsRun(s, [a] + rest) && OnlyReader([a] + rest, r);
    }
  }

  /** The queue position that a submit handler learns is the number of pushes minus the number of pops at that
      moment. */
  lemma PositionIsQueueLength(s: State, h: nat)
    requires Reachable(s) && h < |s.handlers| && s.handlers[h].at == 4
    ensures var s' := Take(s, HandlerStep(h));
            s'.handlers[h].at == 5 && s'.handlers[h].position == |s.pushed| - |s.popped|
  {
    hide Reachable;
    FirstInFirstOut(s);
  }

  /** A submit handler that has begun can always finish with its own steps. */
  lemma {:induction false} HandlerCanFinish(s: State, h: nat)
    requires h < |s.handlers| && s.handlers[h].at <= 5
    ensures exists actions ::
      (forall a <- actions :: a == HandlerStep(h)) && IsRun(s, actions) && h < |After(s, actions).handlers| &&
      After(s, actions).handlers[h].at == 5
    decreases 5 - s.handlers[h].at
  {
    hide HandlerDoes;
    if s.handlers[h].at == 5 {
      assert IsRun(s, []) && After(s, []) == s;
    } else {
      var a := HandlerStep(h);
      HandlerFields(s, h);
      HandlerCanFinish(Take(s, a), h);
      hide Take, Enabled;
      var rest :| (forall x <- rest :: x == a) && IsRun(Take(s, a), rest) &&
                  h < |After(Take(s, a), rest).handlers| && After(Take(s, a), rest).handlers[h].at == 5;
      assert ([a] + rest)[1..] == rest;
      assert IsRun(s, [a] + rest) && forall x <- [a] + rest :: x == a;
    }
  }
}
