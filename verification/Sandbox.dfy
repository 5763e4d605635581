/** One sandboxed run: limits, the collected streams and the verdict cascade (sandbox/src/sandbox.cpp). */
module Sandbox {
  import opened Decimal
  import opened Output
  import opened Streams
  import opened Verdicts

  const SIGABRT := 6
  const SIGKILL := 9
  const SIGSEGV := 11
  const SIGXCPU := 24
  const INT_MAX := 0x7FFF_FFFF
  const UINT_MAX := 0xFFFF_FFFF

  datatype SandboxLimits = SandboxLimits(timeLimitMs: int, memoryLimitMb: int)

  datatype WaitStatus = Exited(code: nat) | Signaled(signal: nat)

  /** CPU times in microseconds and the peak resident size in KB, as wait4 reports them. */
  datatype Usage = Usage(userUs: nat, systemUs: nat, maxRssKb: nat)

  const NO_USAGE := Usage(0, 0, 0)

  datatype Waited = Waited(status: WaitStatus, usage: Usage)

  datatype SandboxResult = SandboxResult(
    verdict: Verdict, exitCode: int, timeMs: int, memoryKb: int,
    stdoutOutput: string, stderrOutput: string, errorMessage: string)

  const BLANK_RESULT := SandboxResult(Pending, 0, 0, 0, "", "", "")

  /** What the system does with one run.  `waited` is None when the wait4 call that follows the reader
      loop fails, which leaves the zero status and usage it was given. */
  datatype Launch =
    | NoPipes
    | NoFork
    | Started(begun: nat, ticks: seq<Tick>, outHints: nat -> nat, errHints: nat -> nat, waited: Option<Waited>)

  /** What the parent knows when it starts to judge. */
  datatype Observation =
    | Unstarted(reason: string)
    | Ran(timedOut: bool, waited: Option<Waited>, stdout: string, stderr: string)

  /** static_cast<int> of a wider non-negative value, modulo 2^32. */
  function Int32(n: nat): int {
    if n <= INT_MAX then n else if n <= UINT_MAX then n - UINT_MAX - 1 else Int32(n - UINT_MAX - 1)
  }

  function CpuUs(u: Usage): nat {
    u.userUs + u.systemUs
  }

  function TimeMs(u: Usage): int {
    Int32(CpuUs(u) / 1000)
  }

  function MemoryKb(u: Usage): int {
    Int32(u.maxRssKb)
  }

  function StatusOf(w: Option<Waited>): WaitStatus {
    if w.Some? then w.value.status else Exited(0)
  }

  function UsageOf(w: Option<Waited>): Usage {
    if w.Some? then w.value.usage else NO_USAGE
  }

  /** RLIMIT_CPU in seconds: the time limit rounded up, and at least 1. */
  function CpuSeconds(timeLimitMs: int): int {
    var n := timeLimitMs + 999;
    var seconds := if n >= 0 then n / 1000 else -(-n / 1000);
    if seconds < 1 then 1 else seconds
  }

  function Deadline(begun: nat, timeLimitMs: int): nat {
    if begun + timeLimitMs + 500 < 0 then 0 else begun + timeLimitMs + 500
  }

  predicate TimeComesToAnEnd(launch: Launch, limits: SandboxLimits) {
    launch.Started? ==>
      exists k :: 0 <= k < |launch.ticks| && launch.ticks[k].now > Deadline(launch.begun, limits.timeLimitMs)
  }

  function FirstEnd(ticks: seq<Tick>, deadline: nat, from: nat): (k: nat)
    requires exists k :: from <= k < |ticks| && ticks[k].now > deadline
    requires forall i :: 0 <= i < from && i < |ticks| ==> !Ends(ticks[i], deadline)
    ensures EndsAt(ticks, deadline, k)
    decreases |ticks| - from
  {
    if Ends(ticks[from], deadline) then from else FirstEnd(ticks, deadline, from + 1)
  }

  /** The observation that a launch leads to. */
  function Observe(launch: Launch, limits: SandboxLimits): Observation
    requires TimeComesToAnEnd(launch, limits)
  {
    match launch
    case NoPipes => Unstarted("Failed to create pipes")
    case NoFork => Unstarted("fork() failed")
    case Started(begun, ticks, _, _, waited) =>
      var deadline := Deadline(begun, limits.timeLimitMs);
      var k := FirstEnd(ticks, deadline, 0);
      if ticks[k].now > deadline then
        Ran(true, waited, Written(ticks, Stdout, k)[..Taken(ticks, Stdout, k)],
            Written(ticks, Stderr, k)[..Taken(ticks, Stderr, k)])
      else
        Ran(false, waited, Written(ticks, Stdout, k + 1), Written(ticks, Stderr, k + 1))
  }

  /** Peak memory of at least nine tenths of the limit. */
  predicate NearMemoryLimit(memoryKb: int, limits: SandboxLimits) {
    10 * memoryKb >= 9 * (limits.memoryLimitMb * 1024)
  }

  /** The verdict cascade; `matched` says whether the output matches the expected one. */
  function VerdictFrom(o: Observation, matched: bool, limits: SandboxLimits): Verdict {
    if o.Unstarted? then InternalError
    else
      var status, usage := StatusOf(o.waited), UsageOf(o.waited);
      if o.timedOut then TimeLimitExceeded
      else if status.Signaled? then
        if status.signal == SIGXCPU || status.signal == SIGKILL then TimeLimitExceeded
        else if (status.signal == SIGSEGV || status.signal == SIGABRT) && NearMemoryLimit(MemoryKb(usage), limits)
        then MemoryLimitExceeded
        else RuntimeError
      else if status.code != 0 then RuntimeError
      else if MemoryKb(usage) > limits.memoryLimitMb * 1024 then MemoryLimitExceeded
      else if TimeMs(usage) > limits.timeLimitMs then TimeLimitExceeded
      else if matched then Accepted
      else WrongAnswer
  }

  function VerdictOf(o: Observation, expected: string, limits: SandboxLimits): Verdict {
    VerdictFrom(o, o.Ran? && OutputsMatch(o.stdout, expected), limits)
  }

  /** The text that goes with a verdict. */
  function MessageOf(o: Observation, verdict: Verdict): string {
    if o.Unstarted? then o.reason
    else
      var status := StatusOf(o.waited);
      if verdict == MemoryLimitExceeded then "Memory limit exceeded"
      else if verdict == TimeLimitExceeded then
        if !o.timedOut && status.Signaled? then "Time limit exceeded (signal)" else "Time limit exceeded"
      else if verdict == RuntimeError then
        if status.Exited? then "Non-zero exit code: " + Digits(status.code)
        else if status.signal == SIGSEGV || status.signal == SIGABRT
        then "Runtime error (signal " + Digits(status.signal) + ")"
        else "Killed by signal " + Digits(status.signal)
      else ""
  }

  function Judged(o: Observation, expected: string, limits: SandboxLimits): SandboxResult {
    var verdict := VerdictOf(o, expected, limits);
    var message := MessageOf(o, verdict);
    match o
    case Unstarted(_) => BLANK_RESULT.(verdict := verdict, errorMessage := message)
    case Ran(_, waited, stdout, stderr) =>
      var status, usage := StatusOf(waited), UsageOf(waited);
      SandboxResult(verdict, if status.Exited? then status.code else -1, TimeMs(usage), MemoryKb(usage),
                    stdout, stderr, message)
  }

  /** Sandbox::run, with its result filled in field by field. */
  method Run(launch: Launch, expected: string, limits: SandboxLimits) returns (result: SandboxResult)
    requires TimeComesToAnEnd(launch, limits)
    ensures result == Judged(Observe(launch, limits), expected, limits)
  {
    hide TimeMs, MemoryKb, Digits, OutputsMatch, NearMemoryLimit;
    result := BLANK_RESULT;
    if launch.NoPipes? {
      return result.(verdict := InternalError, errorMessage := "Failed to create pipes");
    }
    if launch.NoFork? {
      return result.(verdict := InternalError, errorMessage := "fork() failed");
    }
    var stdoutData, stderrData, timedOut, last :=
      Collect(launch.ticks, Deadline(launch.begun, limits.timeLimitMs), launch.outHints, launch.errHints);
    assert last == FirstEnd(launch.ticks, Deadline(launch.begun, limits.timeLimitMs), 0);
    var status, usage := Exited(0), NO_USAGE;
    if launch.waited.Some? {
      status, usage := launch.waited.value.status, launch.waited.value.usage;
    }
    result := result.(stdoutOutput := stdoutData, stderrOutput := stderrData);
    result := result.(exitCode := if status.Exited? then status.code else -1);
    result := result.(timeMs := TimeMs(usage), memoryKb := MemoryKb(usage));
    if timedOut {
      return result.(verdict := TimeLimitExceeded, errorMessage := "Time limit exceeded");
    }
    if status.Signaled? {
      if status.signal == SIGXCPU || status.signal == SIGKILL {
        result := result.(verdict := TimeLimitExceeded, errorMessage := "Time limit exceeded (signal)");
      } else if status.signal == SIGSEGV || status.signal == SIGABRT {
        if NearMemoryLimit(result.memoryKb, limits) {
          result := result.(verdict := MemoryLimitExceeded, errorMessage := "Memory limit exceeded");
        } else {
          result := result.(verdict := RuntimeError);
          result := result.(errorMessage := "Runtime error (signal " + Digits(status.signal) + ")");
        }
      } else {
        result := result.(verdict := RuntimeError, errorMessage := "Killed by signal " + Digits(status.signal));
      }
      return;
    }
    if result.exitCode != 0 {
      result := result.(verdict := RuntimeError, errorMessage := "Non-zero exit code: " + Digits(status.code));
      return;
    }
    if result.memoryKb > limits.memoryLimitMb * 1024 {
      return result.(verdict := MemoryLimitExceeded, errorMessage := "Memory limit exceeded");
    }
    if result.timeMs > limits.timeLimitMs {
      return result.(verdict := TimeLimitExceeded, errorMessage := "Time limit exceeded");
    }
    if OutputsMatch(result.stdoutOutput, expected) {
      result := result.(verdict := Accepted);
    } else {
      result := result.(verdict := WrongAnswer);
    }
  }

  /** Every run ends in one of six of the seven terminal verdicts, and INTERNAL_ERROR is exactly the run
      that never started: "compilation error" cannot come from running. */
  lemma RunsEndTerminally(o: Observation, matched: bool, limits: SandboxLimits)
    ensures Terminal(VerdictFrom(o, matched, limits))
    ensures VerdictFrom(o, matched, limits) != CompilationError
    ensures VerdictFrom(o, matched, limits) == InternalError <==> o.Unstarted?
  {
    hide TimeMs, MemoryKb;
  }

  /** What was measured is within the range of an int. */
  predicate InRange(u: Usage) {
    u.maxRssKb <= 0x7FFF_FFFF && u.userUs + u.systemUs < 1000 * 0x7FFF_FFFF
  }

  /** At least nine tenths of the limit, in KB. */
  predicate NearTheLimit(kb: nat, limits: SandboxLimits) {
    10 * kb >= 9 * 1024 * limits.memoryLimitMb
  }

  lemma RawMeasures(u: Usage, limits: SandboxLimits)
    requires InRange(u)
    ensures MemoryKb(u) == u.maxRssKb
    ensures 1000 * TimeMs(u) <= u.userUs + u.systemUs < 1000 * TimeMs(u) + 1000
    ensures NearMemoryLimit(MemoryKb(u), limits) <==> NearTheLimit(u.maxRssKb, limits)
  {
    assert TimeMs(u) == CpuUs(u) / 1000;
  }

  /** RUNTIME_ERROR: in time, a non-zero exit code, or a signal that is neither of the two that mean too slow
      (SIGXCPU 24, SIGKILL 9) nor a crash (SIGSEGV 11, SIGABRT 6) near the memory limit. */
  lemma RuntimeErrorExactlyWhen(timedOut: bool, w: Waited, stdout: string, stderr: string, expected: string,
                                limits: SandboxLimits)
    requires InRange(w.usage)
    ensures VerdictOf(Ran(timedOut, Some(w), stdout, stderr), expected, limits) == RuntimeError <==>
      !timedOut &&
      (if w.status.Exited? then w.status.code != 0
       else w.status.signal != 24 && w.status.signal != 9 &&
            !((w.status.signal == 11 || w.status.signal == 6) && NearTheLimit(w.usage.maxRssKb, limits)))
  {
    hide TimeMs, MemoryKb, NearMemoryLimit, NearTheLimit, InRange, OutputsMatch;
    RawMeasures(w.usage, limits);
  }

  /** MEMORY_LIMIT_EXCEEDED: in time, a crash near the limit, or exit code 0 after more than the limit. */
  lemma MemoryLimitExactlyWhen(timedOut: bool, w: Waited, stdout: string, stderr: string, expected: string,
                               limits: SandboxLimits)
    requires InRange(w.usage)
    ensures VerdictOf(Ran(timedOut, Some(w), stdout, stderr), expected, limits) == MemoryLimitExceeded <==>
      !timedOut &&
      (if w.status.Exited? then w.status.code == 0 && w.usage.maxRssKb > 1024 * limits.memoryLimitMb
       else (w.status.signal == 11 || w.status.signal == 6) && NearTheLimit(w.usage.maxRssKb, limits))
  {
    hide TimeMs, MemoryKb, NearMemoryLimit, NearTheLimit, InRange, OutputsMatch;
    RawMeasures(w.usage, limits);
  }

  /** TIME_LIMIT_EXCEEDED: past the deadline, killed by SIGXCPU or SIGKILL, or exit code 0 within the memory
      limit after a whole millisecond of CPU time more than the limit. */
  lemma TimeLimitExactlyWhen(timedOut: bool, w: Waited, stdout: string, stderr: string, expected: string,
                             limits: SandboxLimits)
    requires InRange(w.usage)
    ensures VerdictOf(Ran(timedOut, Some(w), stdout, stderr), expected, limits) == TimeLimitExceeded <==>
      timedOut ||
      (if w.status.Exited? then
         w.status.code == 0 && w.usage.maxRssKb <= 1024 * limits.memoryLimitMb &&
         w.usage.userUs + w.usage.systemUs >= 1000 * (limits.timeLimitMs + 1)
       else w.status.signal == 24 || w.status.signal == 9)
  {
    hide TimeMs, MemoryKb, NearMemoryLimit, NearTheLimit, InRange, OutputsMatch;
    RawMeasures(w.usage, limits);
  }

  /** ACCEPTED and WRONG_ANSWER: in time, exit code 0, within both limits; and the output decides. */
  lemma OutputDecidesExactlyWhen(timedOut: bool, w: Waited, stdout: string, stderr: string, expected: string,
                                 limits: SandboxLimits)
    requires InRange(w.usage)
    ensures var verdict := VerdictOf(Ran(timedOut, Some(w), stdout, stderr), expected, limits);
      var clean := !timedOut && w.status == Exited(0) && w.usage.maxRssKb <= 1024 * limits.memoryLimitMb &&
                   w.usage.userUs + w.usage.systemUs < 1000 * (limits.timeLimitMs + 1);
      (verdict == Accepted <==> clean && Equivalent(stdout, expected)) &&
      (verdict == WrongAnswer <==> clean && !Equivalent(stdout, expected))
  {
    hide TimeMs, MemoryKb, NearMemoryLimit, InRange, OutputsMatch, Equivalent;
    RawMeasures(w.usage, limits);
    MatchIsLeastEquivalence(stdout, expected);
  }

  /** What a run reports: the exit code, or -1 after a signal; whole milliseconds of CPU time; the peak memory
      in KB; and both streams. */
  lemma ReportIsMeasured(timedOut: bool, w: Waited, stdout: string, stderr: string, expected: string,
                         limits: SandboxLimits)
    requires InRange(w.usage)
    ensures var o := Ran(timedOut, Some(w), stdout, stderr);
      var r := Judged(o, expected, limits);
      && r.verdict == VerdictOf(o, expected, limits)
      && r.exitCode == (if w.status.Exited? then w.status.code else -1)
      && 1000 * r.timeMs <= w.usage.userUs + w.usage.systemUs < 1000 * r.timeMs + 1000
      && r.memoryKb == w.usage.maxRssKb && r.stdoutOutput == stdout && r.stderrOutput == stderr
  {
    hide VerdictOf, MessageOf, TimeMs, MemoryKb, NearMemoryLimit, InRange;
    RawMeasures(w.usage, limits);
  }

  /** Only ACCEPTED and WRONG_ANSWER come without a message, and the message of a RUNTIME_ERROR tells the exit
      code or the signal. */
  lemma MessagesTell(o: Observation, p: Observation, expected: string, limits: SandboxLimits)
    requires o.Ran? && p.Ran?
    ensures var verdict := VerdictOf(o, expected, limits);
            MessageOf(o, verdict) == "" <==> verdict == Accepted || verdict == WrongAnswer
    ensures VerdictOf(o, expected, limits) == RuntimeError && VerdictOf(p, expected, limits) == RuntimeError &&
            MessageOf(o, RuntimeError) == MessageOf(p, RuntimeError) ==>
            StatusOf(o.waited) == StatusOf(p.waited)
  {
    hide VerdictOf, MessageOf, NearTheLimit;
    MessageTells(o, expected, limits);
    if MessageOf(o, RuntimeError) == MessageOf(p, RuntimeError) {
      SameMessage(o, p);
    }
  }

  lemma MessageTells(o: Observation, expected: string, limits: SandboxLimits)
    requires o.Ran?
    ensures var verdict := VerdictOf(o, expected, limits);
            MessageOf(o, verdict) == "" <==> verdict == Accepted || verdict == WrongAnswer
  {
    hide VerdictOf;
    OnlyFiveVerdicts(o, expected, limits);
  }

  lemma OnlyFiveVerdicts(o: Observation, expected: string, limits: SandboxLimits)
    requires o.Ran?
    ensures var v := VerdictOf(o, expected, limits);
            v == Accepted || v == WrongAnswer || v == RuntimeError || v == MemoryLimitExceeded || v == TimeLimitExceeded
  {
    hide TimeMs, MemoryKb, NearMemoryLimit, OutputsMatch;
  }

  lemma SameMessage(o: Observation, p: Observation)
    requires o.Ran? && p.Ran? && MessageOf(o, RuntimeError) == MessageOf(p, RuntimeError)
    ensures StatusOf(o.waited) == StatusOf(p.waited)
  {
    var s, t := StatusOf(o.waited), StatusOf(p.waited);
    StatusMessage(o);
    StatusMessage(p);
    if s.Exited? && t.Exited? {
      DigitsInjective(s.code, t.code);
    } else if s.Signaled? && t.Signaled? {
      DigitsInjective(s.signal, t.signal);
    }
  }

  lemma StatusMessage(o: Observation)
    requires o.Ran?
    ensures var s, m := StatusOf(o.waited), MessageOf(o, RuntimeError);
      && |m| > 0 && (m[0] == 'N' <==> s.Exited?)
      && (s.Exited? ==> |m| >= 20 && m[20..] == Digits(s.code))
      && (s.Signaled? && m[0] == 'R' ==> |m| >= 23 && m[22..|m| - 1] == Digits(s.signal))
      && (s.Signaled? && m[0] != 'R' ==> |m| >= 17 && m[17..] == Digits(s.signal))
  {
    hide Digits;
    var s, m := StatusOf(o.waited), MessageOf(o, RuntimeError);
    if s.Exited? {
      assert m == "Non-zero exit code: " + Digits(s.code);
    } else if s.signal == SIGSEGV || s.signal == SIGABRT {
      assert m == "Runtime error (signal " + Digits(s.signal) + ")";
    } else {
      assert m == "Killed by signal " + Digits(s.signal);
    }
  }

  /** Whitespace around the output never changes a verdict. */
  lemma PaddingIsInvisible(o: Observation, stdout: string, expected: string, limits: SandboxLimits)
    requires o.Ran? && Equivalent(stdout, o.stdout)
    ensures VerdictOf(o.(stdout := stdout), expected, limits) == VerdictOf(o, expected, limits)
  {
    hide TimeMs, MemoryKb;
    MatchIsLeastEquivalence(stdout, o.stdout);
  }

  lemma AcceptedInside(o: Observation, matched: bool, limits: SandboxLimits)
    ensures VerdictFrom(o, matched, limits) == Accepted <==>
      && o.Ran? && !o.timedOut && StatusOf(o.waited) == Exited(0) && matched
      && MemoryKb(UsageOf(o.waited)) <= limits.memoryLimitMb * 1024
      && TimeMs(UsageOf(o.waited)) <= limits.timeLimitMs
  {
    hide TimeMs, MemoryKb;
  }

  /** More time and more memory never lose an ACCEPTED, and what is accepted left no signal, a zero
      exit code and the expected output up to whitespace at its ends. */
  lemma AcceptedSurvivesLooserLimits(o: Observation, expected: string, limits: SandboxLimits, looser: SandboxLimits)
    requires VerdictOf(o, expected, limits) == Accepted
    requires limits.timeLimitMs <= looser.timeLimitMs && limits.memoryLimitMb <= looser.memoryLimitMb
    ensures VerdictOf(o, expected, looser) == Accepted
    ensures !o.timedOut && StatusOf(o.waited) == Exited(0) && Equivalent(o.stdout, expected)
  {
    hide TimeMs, MemoryKb;
    var matched := o.Ran? && OutputsMatch(o.stdout, expected);
    AcceptedInside(o, matched, limits);
    AcceptedInside(o, matched, looser);
    MatchIsLeastEquivalence(o.stdout, expected);
  }

  lemma ZeroUsage(o: Observation, matched: bool, limits: SandboxLimits)
    requires o.Ran? && o.waited.None? && limits.timeLimitMs >= 0 && limits.memoryLimitMb >= 0
    ensures VerdictFrom(o, matched, limits) ==
            if o.timedOut then TimeLimitExceeded else if matched then Accepted else WrongAnswer
    ensures TimeMs(UsageOf(o.waited)) == 0 && MemoryKb(UsageOf(o.waited)) == 0
  {
    hide TimeMs, MemoryKb, NearMemoryLimit;
    NothingUsed();
  }

  lemma NothingUsed()
    ensures TimeMs(NO_USAGE) == 0 && MemoryKb(NO_USAGE) == 0
  {
    assert Int32(0) == 0;
  }

  /** When the wait4 after a reaped child fails, the measured status and usage are the zero ones, so the
      verdict is decided by the wall clock and the output alone. */
  lemma FailedSecondWait(o: Observation, expected: string, limits: SandboxLimits)
    requires o.Ran? && o.waited.None? && limits.timeLimitMs >= 0 && limits.memoryLimitMb >= 0
    ensures VerdictOf(o, expected, limits) ==
            if o.timedOut then TimeLimitExceeded
            else if Equivalent(o.stdout, expected) then Accepted else WrongAnswer
    ensures TimeMs(UsageOf(o.waited)) == 0 && MemoryKb(UsageOf(o.waited)) == 0
  {
    ZeroUsage(o, OutputsMatch(o.stdout, expected), limits);
    MatchIsLeastEquivalence(o.stdout, expected);
  }

  /** The verdict after a failed wait4 is the one that the child's own status and usage would have led to
      exactly if the child ended with code 0 within both measured limits. */
  lemma FailedWaitAgrees(o: Observation, expected: string, limits: SandboxLimits, own: Waited)
    requires o.Ran? && !o.timedOut && o.waited.None? && limits.timeLimitMs >= 0 && limits.memoryLimitMb >= 0
    ensures VerdictOf(o, expected, limits) == VerdictOf(o.(waited := Some(own)), expected, limits) <==>
            && own.status == Exited(0)
            && MemoryKb(own.usage) <= limits.memoryLimitMb * 1024 && TimeMs(own.usage) <= limits.timeLimitMs
  {
    hide TimeMs, MemoryKb, NearMemoryLimit, OutputsMatch;
    ZeroUsage(o, OutputsMatch(o.stdout, expected), limits);
  }

  /** So a child that crashes after it has printed the expected text is ACCEPTED when wait4 fails, where its
      own status would have led to RUNTIME_ERROR. */
  lemma CrashIsAccepted(expected: string, limits: SandboxLimits, usage: Usage)
    requires limits.timeLimitMs >= 0 && limits.memoryLimitMb >= 0
    ensures VerdictOf(Ran(false, None, expected, ""), expected, limits) == Accepted
    ensures !NearMemoryLimit(MemoryKb(usage), limits) ==>
      VerdictOf(Ran(false, Some(Waited(Signaled(SIGSEGV), usage)), expected, ""), expected, limits) == RuntimeError
  {
    hide TimeMs, MemoryKb, NearMemoryLimit, Trim;
    ZeroUsage(Ran(false, None, expected, ""), true, limits);
  }

  /** The CPU cap in seconds is at least the limit and less than a second above it, for every positive
      limit whose rounding does not overflow. */
  lemma CpuCapBounds(timeLimitMs: int)
    requires 0 < timeLimitMs <= INT_MAX - 999
    ensures timeLimitMs <= 1000 * CpuSeconds(timeLimitMs) < timeLimitMs + 1000
  {
  }

  /** The check on truncated milliseconds fires exactly from 1000 * (limit + 1) microseconds on. */
  lemma MillisecondCheckExact(u: Usage, timeLimitMs: int)
    requires 0 < timeLimitMs && CpuUs(u) / 1000 <= INT_MAX
    ensures TimeMs(u) > timeLimitMs <==> CpuUs(u) >= 1000 * (timeLimitMs + 1)
  {
    assert TimeMs(u) == CpuUs(u) / 1000;
  }

  lemma TooSlowBySignal(o: Observation, matched: bool, limits: SandboxLimits)
    requires o.Ran? && !o.timedOut && TimeMs(UsageOf(o.waited)) <= limits.timeLimitMs
    ensures VerdictFrom(o, matched, limits) == TimeLimitExceeded <==>
            StatusOf(o.waited) == Signaled(SIGXCPU) || StatusOf(o.waited) == Signaled(SIGKILL)
  {
    hide TimeMs, MemoryKb;
  }

  /** A run is ended by the clock exactly if the parent, not having reaped the child yet, finds it more than
      500 ms past the limit. */
  lemma TimedOutExactlyWhen(launch: Launch, limits: SandboxLimits)
    requires launch.Started? && TimeComesToAnEnd(launch, limits) && limits.timeLimitMs >= 0
    ensures var o := Observe(launch, limits);
      o.Ran? &&
      (o.timedOut <==>
       exists k :: 0 <= k < |launch.ticks| && launch.ticks[k].now > launch.begun + limits.timeLimitMs + 500 &&
         forall i :: 0 <= i < k ==> !launch.ticks[i].reaped)
  {
    var e := FirstEnd(launch.ticks, Deadline(launch.begun, limits.timeLimitMs), 0);
    assert EndsAt(launch.ticks, Deadline(launch.begun, limits.timeLimitMs), e);
    if e < |launch.ticks| && launch.ticks[e].now <= Deadline(launch.begun, limits.timeLimitMs) {
      assert launch.ticks[e].reaped;
      forall k | 0 <= k < |launch.ticks| && launch.ticks[k].now > Deadline(launch.begun, limits.timeLimitMs)
        ensures exists i :: 0 <= i < k && launch.ticks[i].reaped
      {
        assert Ends(launch.ticks[k], Deadline(launch.begun, limits.timeLimitMs));
      }
    }
  }

  /** What is observed of a run that ends in tick k.  Reaped, each buffer has all that was written to its own
      stream; ended by the clock, a prefix of it that holds all that was readable long enough before. */
  lemma ObservedStreams(launch: Launch, limits: SandboxLimits, k: nat)
    requires launch.Started? && TimeComesToAnEnd(launch, limits)
    requires EndsAt(launch.ticks, Deadline(launch.begun, limits.timeLimitMs), k)
    ensures var o, ticks := Observe(launch, limits), launch.ticks;
      && o.Ran? && o.waited == launch.waited
      && (!o.timedOut ==>
            ticks[k].reaped && o.stdout == Written(ticks, Stdout, k + 1) && o.stderr == Written(ticks, Stderr, k + 1))
      && (o.timedOut ==>
            && o.stdout <= Written(ticks, Stdout, k) && HasWhatWasReadable(ticks, Stdout, k, o.stdout)
            && o.stderr <= Written(ticks, Stderr, k) && HasWhatWasReadable(ticks, Stderr, k, o.stderr))
  {
    var e := FirstEnd(launch.ticks, Deadline(launch.begun, limits.timeLimitMs), 0);
    assert e == k;
    ReadableIsRead(launch.ticks, Stdout, k);
    ReadableIsRead(launch.ticks, Stderr, k);
  }

  /** A run that is reaped before the limit has passed on the wall clock and that used less CPU time than
      the limit is reported as too slow exactly if it died from SIGXCPU or SIGKILL: none of the three time
      guards trips.  If SIGXCPU only comes from an exceeded cap, only SIGKILL remains. */
  lemma NoFalseTimeouts(launch: Launch, limits: SandboxLimits, expected: string, k: nat)
    requires launch.Started? && TimeComesToAnEnd(launch, limits)
    requires 0 < limits.timeLimitMs <= INT_MAX - 999
    requires k < |launch.ticks| && launch.ticks[k].reaped
    requires forall i :: 0 <= i <= k ==> launch.ticks[i].now < launch.begun + limits.timeLimitMs
    requires CpuUs(UsageOf(launch.waited)) < 1000 * limits.timeLimitMs
    ensures VerdictOf(Observe(launch, limits), expected, limits) == TimeLimitExceeded <==>
            StatusOf(launch.waited) == Signaled(SIGXCPU) || StatusOf(launch.waited) == Signaled(SIGKILL)
    ensures (StatusOf(launch.waited) == Signaled(SIGXCPU) ==>
               CpuUs(UsageOf(launch.waited)) >= 1_000_000 * CpuSeconds(limits.timeLimitMs)) ==>
            (VerdictOf(Observe(launch, limits), expected, limits) == TimeLimitExceeded <==>
             StatusOf(launch.waited) == Signaled(SIGKILL))
  {
    var deadline := Deadline(launch.begun, limits.timeLimitMs);
    var e := FirstEnd(launch.ticks, deadline, 0);
    assert Ends(launch.ticks[k], deadline);
    assert e <= k;
    var o := Observe(launch, limits);
    CpuCapBounds(limits.timeLimitMs);
    MillisecondCheckExact(UsageOf(launch.waited), limits.timeLimitMs);
    TooSlowBySignal(o, OutputsMatch(o.stdout, expected), limits);
  }
}
