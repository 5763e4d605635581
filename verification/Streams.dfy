/** The reader loop of Sandbox::run: two pipes, a poll with a wall-clock deadline, a non-blocking reap
    and a final drain (sandbox/src/sandbox.cpp).  The child, the clock, select, the length of each
    read and the moment of the reap are an arbitrary schedule of ticks, one per loop iteration. */
module Streams {
  datatype Stream = Stdout | Stderr

  /** One stream in one iteration: the bytes the child writes before and after the parent's read of
      that stream, whether select flags it, and a hint that picks how many bytes the read returns. */
  datatype Side = Side(early: string, late: string, flagged: bool, hint: nat)

  datatype Tick = Tick(now: nat, stdout: Side, stderr: Side, reaped: bool)

  const BUFFER := 4096

  function SideOf(t: Tick, s: Stream): Side {
    if s == Stdout then t.stdout else t.stderr
  }

  /** A read returns some 1 .. min(4096, available) bytes, and 0 only when nothing is available. */
  function ReadLength(available: nat, hint: nat): (n: nat)
    ensures n <= available && n <= BUFFER
    ensures n == 0 <==> available == 0
  {
    if available == 0 then 0 else 1 + hint % (if available < BUFFER then available else BUFFER)
  }

  /** Everything the child writes to s in the first k iterations. */
  function Written(ticks: seq<Tick>, s: Stream, k: nat): string
    requires k <= |ticks|
  {
    if k == 0 then ""
    else Written(ticks, s, k - 1) + SideOf(ticks[k - 1], s).early + SideOf(ticks[k - 1], s).late
  }

  /** How many of those bytes the parent has read by then. */
  function Taken(ticks: seq<Tick>, s: Stream, k: nat): (n: nat)
    requires k <= |ticks|
    ensures n <= |Written(ticks, s, k)|
  {
    if k == 0 then 0
    else
      var side := SideOf(ticks[k - 1], s);
      var before := Taken(ticks, s, k - 1);
      if side.flagged
      then before + ReadLength(|Written(ticks, s, k - 1) + side.early| - before, side.hint)
      else before
  }

  /** Every tick from j up to k finds the stream flagged as readable. */
  predicate Flagged(ticks: seq<Tick>, s: Stream, j: nat, k: nat)
    requires j <= k <= |ticks|
  {
    forall i :: j <= i < k ==> SideOf(ticks[i], s).flagged
  }

  /** A tick reads nothing exactly if the stream is not flagged or nothing is unread, and at most 4096 bytes. */
  lemma TickTakes(ticks: seq<Tick>, s: Stream, k: nat)
    requires k < |ticks|
    ensures var side := SideOf(ticks[k], s);
      var unread := |Written(ticks, s, k)| + |side.early| - Taken(ticks, s, k);
      var read := Taken(ticks, s, k + 1) - Taken(ticks, s, k);
      0 <= read <= unread && read <= 4096 && (read == 0 <==> !side.flagged || unread == 0)
  {
  }

  /** Ticks that find a stream flagged read on: after n of them in a row, n bytes more have been read, or all
      that was written before them. */
  lemma {:induction false} FlaggedTicksRead(ticks: seq<Tick>, s: Stream, j: nat, k: nat)
    requires j <= k <= |ticks| && Flagged(ticks, s, j, k)
    ensures Taken(ticks, s, k) >= |Written(ticks, s, j)| || Taken(ticks, s, k) >= Taken(ticks, s, j) + (k - j)
    ensures |Written(ticks, s, j)| <= |Written(ticks, s, k)|
  {
    hide Taken;
    if j < k {
      FlaggedTicksRead(ticks, s, j, k - 1);
      TickTakes(ticks, s, k - 1);
    }
  }

  /** `data` has all that was written to the stream before any such row of ticks that was long enough. */
  predicate HasWhatWasReadable(ticks: seq<Tick>, s: Stream, k: nat, data: string)
    requires k <= |ticks|
  {
    forall j :: 0 <= j <= k && Flagged(ticks, s, j, k) && k - j >= |Written(ticks, s, j)| - Taken(ticks, s, j) ==>
      Written(ticks, s, j) <= data
  }

  lemma ReadableIsRead(ticks: seq<Tick>, s: Stream, k: nat)
    requires k <= |ticks|
    ensures HasWhatWasReadable(ticks, s, k, Written(ticks, s, k)[..Taken(ticks, s, k)])
  {
    hide Taken, Written;
    forall j | 0 <= j <= k && Flagged(ticks, s, j, k) && k - j >= |Written(ticks, s, j)| - Taken(ticks, s, j)
      ensures Written(ticks, s, j) <= Written(ticks, s, k)[..Taken(ticks, s, k)]
    {
      FlaggedTicksRead(ticks, s, j, k);
      ReadPrefixGrows(ticks, s, j, k);
    }
  }

  predicate Ends(t: Tick, deadline: nat) {
    t.now > deadline || t.reaped
  }

  /** The loop ends in iteration k: the deadline has passed or the child is reaped, for the first time. */
  predicate EndsAt(ticks: seq<Tick>, deadline: nat, k: nat) {
    k < |ticks| && Ends(ticks[k], deadline) && forall i :: 0 <= i < k ==> !Ends(ticks[i], deadline)
  }

  /** One iteration's poll of one stream: what is read is appended to the buffer, in order. */
  method Poll(side: Side, data: string, pending: string, ghost ticks: seq<Tick>, ghost s: Stream, ghost k: nat)
    returns (data': string, pending': string)
    requires k < |ticks| && side == SideOf(ticks[k], s)
    requires data + pending == Written(ticks, s, k) && |data| == Taken(ticks, s, k)
    ensures data' + pending' == Written(ticks, s, k + 1) && |data'| == Taken(ticks, s, k + 1)
  {
    var available := pending + side.early;
    assert data + available == Written(ticks, s, k) + side.early;
    var n := if side.flagged then ReadLength(|available|, side.hint) else 0;
    data', pending' := data + available[..n], available[n..] + side.late;
    assert data' + pending' == data + (available[..n] + available[n..]) + side.late;
    assert available[..n] + available[n..] == available;
  }

  /** The drain loop: read until a read returns nothing. */
  method Drain(pending: string, hints: nat -> nat) returns (data: string)
    ensures data == pending
  {
    data := "";
    var rest, k := pending, 0;
    while true
      invariant data + rest == pending
      decreases |rest|
    {
      var n := ReadLength(|rest|, hints(k));
      if n == 0 {
        break;
      }
      data, rest, k := data + rest[..n], rest[n..], k + 1;
    }
  }

  /** Collects both streams.  The first tick past the deadline, or the first that reaps the child, ends
      the loop, and time runs out on every schedule.  The result says which, in which iteration. */
  method Collect(ticks: seq<Tick>, deadline: nat, outHints: nat -> nat, errHints: nat -> nat)
    returns (stdoutData: string, stderrData: string, timedOut: bool, last: nat)
    requires exists k :: 0 <= k < |ticks| && ticks[k].now > deadline
    ensures EndsAt(ticks, deadline, last)
    ensures timedOut <==> ticks[last].now > deadline
    ensures timedOut ==> stdoutData == Written(ticks, Stdout, last)[..Taken(ticks, Stdout, last)]
    ensures timedOut ==> stderrData == Written(ticks, Stderr, last)[..Taken(ticks, Stderr, last)]
    ensures timedOut ==> HasWhatWasReadable(ticks, Stdout, last, stdoutData)
    ensures timedOut ==> HasWhatWasReadable(ticks, Stderr, last, stderrData)
    ensures !timedOut ==> stdoutData == Written(ticks, Stdout, last + 1)
    ensures !timedOut ==> stderrData == Written(ticks, Stderr, last + 1)
  {
    stdoutData, stderrData := "", "";
    var outPending, errPending := "", "";
    last := 0;
    while true
      invariant 0 <= last < |ticks|
      invariant exists k :: last <= k < |ticks| && ticks[k].now > deadline
      invariant forall i :: 0 <= i < last ==> !Ends(ticks[i], deadline)
      invariant |stdoutData| == Taken(ticks, Stdout, last) && |stderrData| == Taken(ticks, Stderr, last)
      invariant stdoutData + outPending == Written(ticks, Stdout, last)
      invariant stderrData + errPending == Written(ticks, Stderr, last)
      decreases |ticks| - last
    {
      var tick := ticks[last];
      if tick.now > deadline {
        timedOut := true;
        ReadableIsRead(ticks, Stdout, last);
        ReadableIsRead(ticks, Stderr, last);
        return;
      }
      stdoutData, outPending := Poll(tick.stdout, stdoutData, outPending, ticks, Stdout, last);
      stderrData, errPending := Poll(tick.stderr, stderrData, errPending, ticks, Stderr, last);
      if tick.reaped {
        timedOut := false;
        var more := Drain(outPending, outHints);
        stdoutData := stdoutData + more;
        more := Drain(errPending, errHints);
        stderrData := stderrData + more;
        return;
      }
      last := last + 1;
    }
  }

  /** Whatever the schedule, at every iteration what has been read of a stream is a prefix of what was
      written to that stream alone, reading never loses ground, and no byte of the other matters:
      two schedules that agree on one stream read the same of it. */
  lemma {:induction false} StreamsAreIndependent(a: seq<Tick>, b: seq<Tick>, s: Stream, k: nat)
    requires k <= |a| && k <= |b|
    requires forall i :: 0 <= i < k ==> SideOf(a[i], s) == SideOf(b[i], s)
    ensures Written(a, s, k) == Written(b, s, k) && Taken(a, s, k) == Taken(b, s, k)
  {
    if k > 0 {
      StreamsAreIndependent(a, b, s, k - 1);
    }
  }

  /** Read prefixes only grow, and later bytes never change earlier ones. */
  lemma {:induction false} ReadPrefixGrows(ticks: seq<Tick>, s: Stream, j: nat, k: nat)
    requires j <= k <= |ticks|
    ensures Written(ticks, s, j) <= Written(ticks, s, k)
    ensures Written(ticks, s, j)[..Taken(ticks, s, j)] <= Written(ticks, s, k)[..Taken(ticks, s, k)]
  {
    if j < k {
      ReadPrefixGrows(ticks, s, j, k - 1);
    }
  }

  /** Nothing that the child writes is missing: what it wrote in tick i stands behind what it wrote before. */
  lemma {:induction false} WrittenInPlace(ticks: seq<Tick>, s: Stream, i: nat, k: nat)
    requires i < k <= |ticks|
    ensures var text, start := SideOf(ticks[i], s).early + SideOf(ticks[i], s).late, |Written(ticks, s, i)|;
            start + |text| <= |Written(ticks, s, k)| && Written(ticks, s, k)[start..start + |text|] == text
  {
    if i < k - 1 {
      WrittenInPlace(ticks, s, i, k - 1);
    }
  }
}
