/** Overlapping register_user calls for one name (shared/src/auth.cpp): each caller looks at the record and,
    if it may, stores its own, while others use the store and replies may be lost. */
module Registrations {
  import opened Credentials
  import opened Store
  import opened Verdicts

  /** What a caller brings to the one name that all callers want. */
  datatype Applicant = Applicant(password: string, salt: string)

  /** Where a call stands: it has to look; may store; has stored; or has ended. */
  datatype Phase = Looking | Cleared | Stored(times: nat) | Refused | Registered | Failed

  /** One event: a caller's look, an application of its store command, the end of its call (with or without a
      reply to the store), or anything else that happens to the store. */
  datatype Move =
    | Looks(caller: nat, lost: bool)
    | Saves(caller: nat)
    | Returns(caller: nat, answered: bool)
    | Others(event: Event)

  datatype Contest = Contest(world: World, phases: seq<Phase>)

  /** The name, its applicants and the digest. */
  datatype Setting = Setting(sha: Digest, user: string, applicants: seq<Applicant>)

  function Payload(g: Setting, c: nat): string
    requires c < |g.applicants|
  {
    PayloadOf(g.sha, g.applicants[c].password, g.applicants[c].salt)
  }

  /** No one else writes the record; the store command is applied at most twice. */
  predicate Possible(g: Setting, s: Contest, m: Move) {
    && |s.phases| == |g.applicants|
    && match m
       case Looks(c, _) => c < |s.phases| && s.phases[c] == Looking
       case Saves(c) => c < |s.phases| && (s.phases[c] == Cleared || s.phases[c] == Stored(1))
       case Returns(c, answered) => c < |s.phases| && (s.phases[c].Stored? || (s.phases[c] == Cleared && !answered))
       case Others(event) => event.Do? && event.op.PutUser? ==> event.op.user != g.user
  }

  function Next(g: Setting, s: Contest, m: Move): Contest
    requires Possible(g, s, m)
  {
    match m
    case Looks(c, lost) => s.(phases := s.phases[c := if MayStore(s.world, g.user, lost) then Cleared else Refused])
    case Saves(c) =>
      Contest(Step(s.world, Do(PutUser(g.user, Payload(g, c)))),
              s.phases[c := if s.phases[c].Stored? then Stored(s.phases[c].times + 1) else Stored(1)])
    case Returns(c, answered) => s.(phases := s.phases[c := if answered then Registered else Failed])
    case Others(event) => s.(world := Step(s.world, event))
  }

  predicate IsContest(g: Setting, s: Contest, moves: seq<Move>)
    decreases |moves|, 0
  {
    moves == [] ||
    (IsContest(g, s, moves[..|moves| - 1]) &&
     Possible(g, After(g, s, moves[..|moves| - 1]), moves[|moves| - 1]))
  }

  function After(g: Setting, s: Contest, moves: seq<Move>): Contest
    requires IsContest(g, s, moves)
    decreases |moves|, 1
  {
    if moves == [] then s else Next(g, After(g, s, moves[..|moves| - 1]), moves[|moves| - 1])
  }

  /** The name is free and every call has still to look. */
  predicate AtFirst(g: Setting, s: Contest) {
    && g.user !in s.world.store.users && |s.phases| == |g.applicants|
    && forall c :: 0 <= c < |s.phases| ==> s.phases[c] == Looking
  }

  /** The caller whose store was applied last. */
  function LastSaver(moves: seq<Move>): Option<nat> {
    if moves == [] then None
    else if moves[|moves| - 1].Saves? then Some(moves[|moves| - 1].caller)
    else LastSaver(moves[..|moves| - 1])
  }

  /** Nobody has stored before event i. */
  predicate FreeBefore(moves: seq<Move>, i: nat)
    requires i <= |moves|
  {
    forall j :: 0 <= j < i ==> !moves[j].Saves?
  }

  /** Event i is a look of this caller that came before every store, or whose reply was lost. */
  predicate ClearLook(moves: seq<Move>, i: nat, c: nat)
    requires i < |moves|
  {
    moves[i].Looks? && moves[i].caller == c && (moves[i].lost || FreeBefore(moves, i))
  }

  predicate Clears(moves: seq<Move>, c: nat) {
    exists i :: 0 <= i < |moves| && ClearLook(moves, i, c)
  }

  /** What one event does to the record. */
  lemma RecordNext(g: Setting, s: Contest, m: Move)
    requires Possible(g, s, m)
    ensures var users, users' := s.world.store.users, Next(g, s, m).world.store.users;
      if m.Saves? then g.user in users' && users'[g.user] == Payload(g, m.caller)
      else (g.user in users' <==> g.user in users) && (g.user in users ==> users'[g.user] == users[g.user])
  {
    hide PayloadOf, Slice;
  }

  /** The record is always the one that was stored last. */
  lemma {:induction false} RecordIsLast(g: Setting, s: Contest, moves: seq<Move>)
    requires AtFirst(g, s) && IsContest(g, s, moves)
    ensures |After(g, s, moves).phases| == |g.applicants|
    ensures LastSaver(moves).Some? ==> LastSaver(moves).value < |g.applicants|
    ensures var users := After(g, s, moves).world.store.users;
      (g.user in users <==> LastSaver(moves).Some?) &&
      (LastSaver(moves).Some? ==> users[g.user] == Payload(g, LastSaver(moves).value))
    ensures LastSaver(moves).None? <==> FreeBefore(moves, |moves|)
    decreases |moves|
  {
    hide Payload, MayStore, Step;
    if moves != [] {
      var n := |moves| - 1;
      RecordIsLast(g, s, moves[..n]);
      RecordNext(g, After(g, s, moves[..n]), moves[n]);
      assert FreeBefore(moves, n) == FreeBefore(moves[..n], n);
    }
  }

  lemma ClearsNext(moves: seq<Move>, m: Move, c: nat)
    ensures Clears(moves + [m], c) <==> Clears(moves, c) || ClearLook(moves + [m], |moves|, c)
    ensures m.Looks? && m.caller == c ==>
      (ClearLook(moves + [m], |moves|, c) <==> m.lost || FreeBefore(moves, |moves|))
  {
    var more := moves + [m];
    forall i | 0 <= i <= |moves| ensures FreeBefore(more, i) == FreeBefore(moves, i) {
      assert forall j :: 0 <= j < i ==> more[j] == moves[j];
    }
    assert forall i :: 0 <= i < |moves| ==> ClearLook(more, i, c) == ClearLook(moves, i, c);
  }

  /** In every interleaving a call gets past its look exactly if its look was clear, and it succeeds exactly
      if moreover its store was answered. */
  lemma {:induction false} PastTheLook(g: Setting, s: Contest, moves: seq<Move>, c: nat)
    requires AtFirst(g, s) && IsContest(g, s, moves) && c < |g.applicants|
    ensures |After(g, s, moves).phases| == |g.applicants|
    ensures var phase := After(g, s, moves).phases[c];
      && (Clears(moves, c) <==> phase != Looking && phase != Refused)
      && (phase == Registered <==> Returns(c, true) in moves)
      && (phase == Failed <==> Returns(c, false) in moves)
      && (phase == Looking ==> Saves(c) !in moves && Looks(c, true) !in moves && Looks(c, false) !in moves)
      && (phase.Stored? || phase == Registered ==> Saves(c) in moves)
    decreases |moves|
  {
    hide Payload, Step, Clears;
    if moves == [] {
      assert !Clears([], c) by { NoMoves(c); }
    } else {
      var n := |moves| - 1;
      var front, last := moves[..n], moves[n];
      assert moves == front + [last];
      PastTheLook(g, s, front, c);
      RecordIsLast(g, s, front);
      ClearsNext(front, last, c);
    }
  }

  lemma NoMoves(c: nat)
    ensures !Clears([], c)
  {
  }

  /** A look of c that came before every store of d, or whose reply was lost. */
  predicate ClearOf(moves: seq<Move>, c: nat, d: nat) {
    exists i :: 0 <= i < |moves| && moves[i].Looks? && moves[i].caller == c &&
      (moves[i].lost || Saves(d) !in moves[..i])
  }

  lemma {:induction false} PrefixIsContest(g: Setting, s: Contest, moves: seq<Move>, i: nat)
    requires IsContest(g, s, moves) && i <= |moves|
    ensures IsContest(g, s, moves[..i])
    decreases |moves|
  {
    if i < |moves| {
      PrefixIsContest(g, s, moves[..|moves| - 1], i);
      assert moves[..|moves| - 1][..i] == moves[..i];
    } else {
      assert moves[..i] == moves;
    }
  }

  lemma {:induction false} MovesAreFrom(g: Setting, s: Contest, moves: seq<Move>, i: nat)
    requires IsContest(g, s, moves) && i < |moves|
    ensures IsContest(g, s, moves[..i]) && Possible(g, After(g, s, moves[..i]), moves[i])
  {
    PrefixIsContest(g, s, moves, i + 1);
    assert moves[..i + 1][..i] == moves[..i];
  }

  /** If only c and d store, a look of c is clear exactly if it is clear of d: nobody stores before looking. */
  lemma ClearOfTheOther(g: Setting, s: Contest, moves: seq<Move>, c: nat, d: nat)
    requires AtFirst(g, s) && IsContest(g, s, moves) && c < |g.applicants|
    requires forall m <- moves :: m.Saves? ==> m.caller == c || m.caller == d
    ensures Clears(moves, c) <==> ClearOf(moves, c, d)
  {
    forall i | 0 <= i < |moves| && moves[i].Looks? && moves[i].caller == c
      ensures FreeBefore(moves, i) <==> Saves(d) !in moves[..i]
    {
      MovesAreFrom(g, s, moves, i);
      PastTheLook(g, s, moves[..i], c);
      assert forall j :: 0 <= j < i ==> moves[j] in moves[..i] && moves[j] in moves;
    }
    assert forall i :: 0 <= i < |moves| && moves[i].Looks? && moves[i].caller == c ==>
      (ClearLook(moves, i, c) <==> (moves[i].lost || Saves(d) !in moves[..i]));
  }

  /** Two different callers, whose calls have ended without a failed store and who are the only ones to store,
      both succeed exactly if each of their looks came before the other's store, or lost its reply. */
  lemma BothSucceedExactlyWhen(g: Setting, s: Contest, moves: seq<Move>, a: nat, b: nat)
    requires AtFirst(g, s) && IsContest(g, s, moves) && a < |g.applicants| && b < |g.applicants| && a != b
    requires forall m <- moves :: m.Saves? ==> m.caller == a || m.caller == b
    requires Ended(After(g, s, moves), a) && Ended(After(g, s, moves), b)
    ensures var phases := After(g, s, moves).phases;
      |phases| == |g.applicants| &&
      (phases[a] == Registered && phases[b] == Registered <==> ClearOf(moves, a, b) && ClearOf(moves, b, a))
  {
    PastTheLook(g, s, moves, a);
    PastTheLook(g, s, moves, b);
    ClearOfTheOther(g, s, moves, a, b);
    ClearOfTheOther(g, s, moves, b, a);
  }

  /** The call has returned, and not with "Failed to create user". */
  predicate Ended(s: Contest, c: nat) {
    c < |s.phases| && (s.phases[c] == Registered || s.phases[c] == Refused)
  }

  /** Calls that do not overlap: one that looks after another has succeeded is refused, unless its look's
      reply is lost. */
  lemma LaterCallIsRefused(g: Setting, s: Contest, moves: seq<Move>, a: nat, b: nat, i: nat, j: nat)
    requires AtFirst(g, s) && IsContest(g, s, moves) && a < |g.applicants| && b < |g.applicants|
    requires i < j < |moves| && moves[i] == Returns(a, true) && moves[j] == Looks(b, false)
    ensures var phases := After(g, s, moves).phases; |phases| == |g.applicants| && phases[b] == Refused
  {
    hide Payload, Step, MayStore, Possible, Next;
    MovesAreFrom(g, s, moves, j);
    assert moves[..j][i] == Returns(a, true);
    PastTheLook(g, s, moves[..j], a);
    RecordIsLast(g, s, moves[..j]);
    PastTheLook(g, s, moves[..j], b);
    PastTheLook(g, s, moves, b);
    assert !FreeBefore(moves, j) by {
      var k :| 0 <= k < j && moves[..j][k] == Saves(a);
      assert moves[k] == Saves(a);
    }
    forall k | 0 <= k < |moves| ensures !ClearLook(moves, k, b) {
      if moves[k].Looks? && moves[k].caller == b {
        OnlyOneLook(g, s, moves, b, k, j);
      }
    }
    assert moves[j] in moves;
  }

  lemma OnlyOneLook(g: Setting, s: Contest, moves: seq<Move>, c: nat, i: nat, j: nat)
    requires AtFirst(g, s) && IsContest(g, s, moves) && c < |g.applicants| && i < |moves| && j < |moves|
    requires moves[i].Looks? && moves[j].Looks? && moves[i].caller == c && moves[j].caller == c
    ensures i == j
  {
    hide Payload, Step, MayStore, Next;
    var first, second := if i < j then i else j, if i < j then j else i;
    MovesAreFrom(g, s, moves, second);
    assert first < second ==> moves[..second][first] == Looks(c, moves[first].lost);
    PastTheLook(g, s, moves[..second], c);
  }

  /** After any contest in which someone has stored, a login succeeds exactly if its password has the digest,
      under the last record's salt, of the last record's password.  So an earlier winner may be locked out. */
  lemma LoginAfterwards(g: Setting, s: Contest, moves: seq<Move>, q: string, token: string)
    requires IsDigest(g.sha) && forall a <- g.applicants :: IsHex(a.salt)
    requires AtFirst(g, s) && IsContest(g, s, moves) && LastSaver(moves).Some?
    ensures LastSaver(moves).value < |g.applicants|
    ensures var last := g.applicants[LastSaver(moves).value];
      Login(g.sha, After(g, s, moves).world, g.user, q, token).1 <==>
      g.sha(last.salt + q) == g.sha(last.salt + last.password)
  {
    hide PasswordMatches, PayloadOf;
    RecordIsLast(g, s, moves);
    var last := g.applicants[LastSaver(moves).value];
    MatchesStored(g.sha, last.password, last.salt, q);
  }

  lemma OneMore(g: Setting, s: Contest, front: seq<Move>, m: Move)
    requires IsContest(g, s, front) && Possible(g, After(g, s, front), m)
    ensures IsContest(g, s, front + [m]) && After(g, s, front + [m]) == Next(g, After(g, s, front), m)
  {
    assert (front + [m])[..|front|] == front;
  }

  /** Two callers that look in turn and then store in turn. */
  function Overlap(a: nat, b: nat): seq<Move> {
    [Looks(a, false), Looks(b, false), Saves(a), Returns(a, true), Saves(b), Returns(b, true)]
  }

  /** "At most one registration of a name succeeds" fails: with these looks both calls succeed, and the first
      winner can log in only if its password has the other's digest. */
  lemma BothRegister(g: Setting, s: Contest, a: nat, b: nat, token: string)
    requires IsDigest(g.sha) && forall x <- g.applicants :: IsHex(x.salt)
    requires AtFirst(g, s) && a < |g.applicants| && b < |g.applicants| && a != b
    ensures IsContest(g, s, Overlap(a, b))
    ensures var last := After(g, s, Overlap(a, b));
      && |last.phases| == |g.applicants| && last.phases[a] == Registered && last.phases[b] == Registered
      && var first, second := g.applicants[a], g.applicants[b];
         (Login(g.sha, last.world, g.user, first.password, token).1 <==>
          g.sha(second.salt + first.password) == g.sha(second.salt + second.password))
  {
    OverlapIsContest(g, s, a, b);
    PastTheLook(g, s, Overlap(a, b), a);
    PastTheLook(g, s, Overlap(a, b), b);
    LastIs(a, b);
    LoginAfterwards(g, s, Overlap(a, b), g.applicants[a].password, token);
  }

  lemma LastIs(a: nat, b: nat)
    ensures LastSaver(Overlap(a, b)) == Some(b) && Returns(a, true) in Overlap(a, b) && Returns(b, true) in Overlap(a, b)
  {
    var moves := Overlap(a, b);
    assert moves[..5][4] == Saves(b) && moves[3] == Returns(a, true) && moves[5] == Returns(b, true);
  }

  lemma OverlapIsContest(g: Setting, s: Contest, a: nat, b: nat)
    requires AtFirst(g, s) && a < |g.applicants| && b < |g.applicants| && a != b
    ensures IsContest(g, s, Overlap(a, b))
  {
    hide Payload, Step, PayloadOf;
    var moves := Overlap(a, b);
    assert moves[..1] == [] + [moves[0]];
    OneMore(g, s, [], moves[0]);
    assert moves[..2] == moves[..1] + [moves[1]];
    OneMore(g, s, moves[..1], moves[1]);
    assert moves[..3] == moves[..2] + [moves[2]];
    OneMore(g, s, moves[..2], moves[2]);
    assert moves[..4] == moves[..3] + [moves[3]];
    OneMore(g, s, moves[..3], moves[3]);
    assert moves[..5] == moves[..4] + [moves[4]];
    OneMore(g, s, moves[..4], moves[4]);
    assert moves == moves[..5] + [moves[5]];
    OneMore(g, s, moves[..5], moves[5]);
  }
}
