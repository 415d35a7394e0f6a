/** RuncLifecycle.StopProcess of src/bpm/runc/lifecycle/lifecycle.go: one signal, a poll loop over
    a ticker and a timer, and a QUIT when the timer wins. Times are in milliseconds. */
module StopProcess {
  import JobConfig

  /** ContainerStatePollInterval and ContainerSigQuitGracePeriod. */
  const POLL_INTERVAL: nat := 1000
  const GRACE_PERIOD: nat := 2000

  datatype Signal = Term | Quit | Int

  /** A ContainerState reply: an error, a nil state, or a status. */
  datatype Reply = Error | NilState | StatusStopped | OtherStatus

  /** The calls StopProcess makes, with the time since its first poll. */
  datatype Call =
    | SignalContainer(signal: Signal, ok: bool, at: nat)
    | ContainerState(reply: Reply, at: nat)
    | Sleep(duration: nat, at: nat)

  /** What StopProcess returns: nil, the error of the first signal, timeoutError; or the panic of
      dereferencing a nil state. */
  datatype Outcome = Ok | SignalFailed | TimedOut | NilDereference

  /** ParseShutdownSignal: only "INT" differs from the default. */
  function ParseShutdownSignal(configured: string): Signal {
    if configured == "INT" then Int else Term
  }

  /** The name runc is given. */
  function SignalName(s: Signal): string {
    match s
    case Term => "TERM"
    case Quit => "QUIT"
    case Int => "INT"
  }

  // ---------------------------------------------------------------- what a trace looks like

  /** Polls that end no loop: neither a nil state nor a stopped one. */
  predicate Inconclusive(c: Call) {
    c.ContainerState? && (c.reply == Error || c.reply == OtherStatus)
  }

  predicate AllInconclusive(cs: seq<Call>) {
    forall i :: 0 <= i < |cs| ==> Inconclusive(cs[i])
  }

  /** The shape of a complete trace: the configured signal; inconclusive polls; then what ended
      them. */
  predicate TraceShape(trace: seq<Call>, sig: Signal, outcome: Outcome) {
    && |trace| >= 1 && trace[0].SignalContainer? && trace[0].signal == sig
    && (trace[0].ok <==> outcome != SignalFailed)
    && var n := |trace|;
       match outcome
       case SignalFailed => n == 1
       case Ok =>
         && n >= 2 && AllInconclusive(trace[1..n - 1])
         && trace[n - 1].ContainerState? && trace[n - 1].reply == StatusStopped
       case NilDereference =>
         && n >= 2 && AllInconclusive(trace[1..n - 1])
         && trace[n - 1].ContainerState? && trace[n - 1].reply == NilState
       case TimedOut =>
         && n >= 4 && AllInconclusive(trace[1..n - 2])
         && trace[n - 2].SignalContainer? && trace[n - 2].signal == Quit
         && trace[n - 1] == Sleep(GRACE_PERIOD, trace[n - 2].at)
  }

  /** The n-th poll of the loop comes after n seconds or later, QUIT not before the timeout, and no call
      before an earlier one. */
  predicate Timely(trace: seq<Call>, timeout: nat) {
    && (forall i :: 1 <= i < |trace| && trace[i].ContainerState? ==> (i - 1) * 1000 <= trace[i].at)
    && (forall i :: 1 <= i < |trace| && trace[i].SignalContainer? ==> timeout <= trace[i].at)
    && (forall i, j :: 0 <= i < j < |trace| ==> trace[i].at <= trace[j].at)
  }

  lemma TimelySnoc(trace: seq<Call>, timeout: nat, c: Call)
    requires Timely(trace, timeout) && trace != [] && trace[|trace| - 1].at <= c.at
    requires c.ContainerState? ==> (|trace| - 1) * 1000 <= c.at
    requires c.SignalContainer? ==> timeout <= c.at
    ensures Timely(trace + [c], timeout)
  {
    var more := trace + [c];
    forall i, j | 0 <= i < j < |more| ensures more[i].at <= more[j].at {
      assert more[i].at <= trace[|trace| - 1].at;
    }
  }

  predicate IsPoll(c: Call) { c.ContainerState? }

  function Polls(trace: seq<Call>): nat {
    if trace == [] then 0 else Polls(trace[..|trace| - 1]) + if IsPoll(trace[|trace| - 1]) then 1 else 0
  }

  /** A poll of the loop that was made although the timer was already due. */
  predicate IsLate(c: Call, timeout: nat) { c.ContainerState? && c.at > 0 && c.at >= timeout }

  function LatePolls(trace: seq<Call>, timeout: nat): nat {
    if trace == [] then 0
    else LatePolls(trace[..|trace| - 1], timeout) + if IsLate(trace[|trace| - 1], timeout) then 1 else 0
  }

  /** The earliest time of the n-th tick. */
  function TickTime(n: nat): nat { n * POLL_INTERVAL }

  /** The number of ticks that fit before the timer is due. */
  function EarlyTicks(timeout: nat): nat {
    if timeout == 0 then 0 else (timeout - 1) / POLL_INTERVAL
  }

  // ---------------------------------------------------------------- the method

  /** One select over the ticker and the timer. The n-th tick cannot arrive before n intervals
      passed, the timer not before the timeout; when both are due either may win, but the timer
      loses at most `late` times. */
  method Select(now: nat, ticks: nat, timeout: nat, late: nat) returns (tick: bool, at: nat)
    ensures now <= at
    ensures tick ==> at >= TickTime(ticks + 1) && (at >= timeout ==> late > 0)
    ensures !tick ==> at >= timeout
  {
    var choice: bool := *;
    var wait: int := *;
    at := now + if wait < 0 then 0 else wait;
    if choice && at >= TickTime(ticks + 1) && (at >= timeout ==> late > 0) {
      tick := true;
    } else {
      tick := false;
      if at < timeout {
        at := timeout;
      }
    }
  }

  /** StopProcess, for every reply of the client and every choice of select. `late` bounds how often
      a tick is taken although the timer is due. */
  method Stop(configured: string, timeout: nat, late: nat) returns (outcome: Outcome, trace: seq<Call>)
    ensures TraceShape(trace, ParseShutdownSignal(configured), outcome) && Timely(trace, timeout)
    ensures Polls(trace) <= 1 + EarlyTicks(timeout) + LatePolls(trace, timeout)
    ensures LatePolls(trace, timeout) <= late
    ensures SignalName(trace[0].signal) == if configured == "INT" then "INT" else "TERM"
  {
    outcome, trace := StopWith(ParseShutdownSignal(configured), timeout, late);
  }

  method StopWith(sig: Signal, timeout: nat, late: nat) returns (outcome: Outcome, trace: seq<Call>)
    ensures TraceShape(trace, sig, outcome) && Timely(trace, timeout)
    ensures Polls(trace) <= 1 + EarlyTicks(timeout) + LatePolls(trace, timeout)
    ensures LatePolls(trace, timeout) <= late
  {
    var ok: bool := *;
    if !ok {
      FirstCall(sig, false, timeout);
      return SignalFailed, [SignalContainer(sig, false, 0)];
    }
    var reply: Reply := *;
    trace := [SignalContainer(sig, true, 0), ContainerState(reply, 0)];
    FirstPoll(sig, reply, timeout);
    if reply == NilState {
      return NilDereference, trace;
    }
    if reply == StatusStopped {
      return Ok, trace;
    }
    outcome, trace := PollLoop(sig, trace, timeout, late);
  }

  /** The loop over ticker and timer. */
  method PollLoop(sig: Signal, made: seq<Call>, timeout: nat, late: nat) returns (outcome: Outcome, trace: seq<Call>)
    requires StillPolling(made, sig, timeout) && |made| == 2 && made[1].at == 0
    requires Polls(made) == 1 && LatePolls(made, timeout) == 0
    ensures TraceShape(trace, sig, outcome) && Timely(trace, timeout)
    ensures Polls(trace) <= 1 + EarlyTicks(timeout) + LatePolls(trace, timeout)
    ensures LatePolls(trace, timeout) <= late
  {
    trace := made;
    var now, early, lateLeft: int := 0, 0, late;
    while true
      invariant 0 <= early <= EarlyTicks(timeout) && 0 <= lateLeft <= late
      invariant lateLeft < late ==> now >= timeout
      invariant StillPolling(trace, sig, timeout) && trace[|trace| - 1].at <= now
      invariant |trace| == 2 + early + (late - lateLeft) && Polls(trace) == 1 + early + (late - lateLeft)
      invariant LatePolls(trace, timeout) == late - lateLeft
      decreases EarlyTicks(timeout) - early + lateLeft
    {
      var tick, at := Select(now, early + (late - lateLeft), timeout, lateLeft);
      now := at;
      if !tick {
        var ok: bool := *;
        QuitMade(trace, sig, ok, at, timeout);
        return TimedOut, Quitting(trace, ok, at);
      }
      var reply;
      reply, trace := NextPoll(sig, trace, at, timeout);
      if at >= timeout {
        lateLeft := lateLeft - 1;
      } else {
        TickIsEarly(early, at, timeout);
        early := early + 1;
      }
      if reply == NilState {
        return NilDereference, trace;
      }
      if reply == StatusStopped {
        return Ok, trace;
      }
    }
  }

  /** One more poll, with any reply. */
  method NextPoll(sig: Signal, made: seq<Call>, at: nat, ghost timeout: nat) returns (reply: Reply, trace: seq<Call>)
    requires StillPolling(made, sig, timeout) && made[|made| - 1].at <= at && (|made| - 1) * 1000 <= at
    ensures trace == made + [ContainerState(reply, at)]
    ensures Polls(trace) == Polls(made) + 1 && PolledTo(trace, sig, reply, timeout)
    ensures LatePolls(trace, timeout) == LatePolls(made, timeout) + if at >= timeout then 1 else 0
  {
    reply := *;
    PollMade(made, sig, reply, at, timeout);
    trace := made + [ContainerState(reply, at)];
  }

  /** The signal was sent and no poll was conclusive yet. */
  predicate StillPolling(trace: seq<Call>, sig: Signal, timeout: nat) {
    && |trace| >= 2 && trace[0] == SignalContainer(sig, true, 0) && AllInconclusive(trace[1..])
    && Timely(trace, timeout)
  }

  /** What a poll makes of a trace. */
  predicate PolledTo(trace: seq<Call>, sig: Signal, reply: Reply, timeout: nat) {
    && Timely(trace, timeout)
    && match reply
       case NilState => TraceShape(trace, sig, NilDereference)
       case StatusStopped => TraceShape(trace, sig, Ok)
       case _ => StillPolling(trace, sig, timeout)
  }

  lemma FirstCall(sig: Signal, ok: bool, timeout: nat)
    ensures var trace := [SignalContainer(sig, ok, 0)];
            && Polls(trace) == 0 && LatePolls(trace, timeout) == 0 && Timely(trace, timeout)
            && (!ok ==> TraceShape(trace, sig, SignalFailed))
  {
    PollCounts([SignalContainer(sig, ok, 0)], timeout);
  }

  lemma FirstPoll(sig: Signal, reply: Reply, timeout: nat)
    ensures var trace := [SignalContainer(sig, true, 0), ContainerState(reply, 0)];
            Polls(trace) == 1 && LatePolls(trace, timeout) == 0 && PolledTo(trace, sig, reply, timeout)
  {
    var trace := [SignalContainer(sig, true, 0), ContainerState(reply, 0)];
    FirstCall(sig, true, timeout);
    assert trace[..1] == [SignalContainer(sig, true, 0)];
    PollCounts(trace, timeout);
  }

  lemma PollMade(trace: seq<Call>, sig: Signal, reply: Reply, at: nat, timeout: nat)
    requires StillPolling(trace, sig, timeout) && trace[|trace| - 1].at <= at && (|trace| - 1) * 1000 <= at
    ensures var more := trace + [ContainerState(reply, at)];
            && Polls(more) == Polls(trace) + 1 && PolledTo(more, sig, reply, timeout)
            && LatePolls(more, timeout) == LatePolls(trace, timeout) + if at >= timeout then 1 else 0
  {
    var c := ContainerState(reply, at);
    var more := trace + [c];
    TimelySnoc(trace, timeout, c);
    PollCounts(more, timeout);
    assert more[..|trace|] == trace && more[1..|more| - 1] == trace[1..] && more[1..] == trace[1..] + [c];
  }

  /** The trace once the timer won. */
  function Quitting(trace: seq<Call>, ok: bool, at: nat): seq<Call> {
    trace + [SignalContainer(Quit, ok, at)] + [Sleep(GRACE_PERIOD, at)]
  }

  lemma QuitShape(trace: seq<Call>, sig: Signal, ok: bool, at: nat)
    requires |trace| >= 2 && trace[0] == SignalContainer(sig, true, 0) && AllInconclusive(trace[1..])
    ensures TraceShape(Quitting(trace, ok, at), sig, TimedOut)
  {
    var more := Quitting(trace, ok, at);
    assert more[1..|more| - 2] == trace[1..];
  }

  lemma QuitCounts(trace: seq<Call>, ok: bool, at: nat, timeout: nat)
    ensures var more := Quitting(trace, ok, at);
            Polls(more) == Polls(trace) && LatePolls(more, timeout) == LatePolls(trace, timeout)
  {
    var quit := trace + [SignalContainer(Quit, ok, at)];
    var more := quit + [Sleep(GRACE_PERIOD, at)];
    PollCounts(quit, timeout);
    PollCounts(more, timeout);
    assert quit[..|trace|] == trace && more[..|quit|] == quit;
  }

  lemma QuitTimely(trace: seq<Call>, ok: bool, at: nat, timeout: nat)
    requires trace != [] && Timely(trace, timeout) && trace[|trace| - 1].at <= at && timeout <= at
    ensures Timely(Quitting(trace, ok, at), timeout)
  {
    var quit := trace + [SignalContainer(Quit, ok, at)];
    TimelySnoc(trace, timeout, SignalContainer(Quit, ok, at));
    TimelySnoc(quit, timeout, Sleep(GRACE_PERIOD, at));
  }

  lemma QuitMade(trace: seq<Call>, sig: Signal, ok: bool, at: nat, timeout: nat)
    requires StillPolling(trace, sig, timeout) && trace[|trace| - 1].at <= at && timeout <= at
    ensures var more := Quitting(trace, ok, at);
            && Polls(more) == Polls(trace) && LatePolls(more, timeout) == LatePolls(trace, timeout)
            && TraceShape(more, sig, TimedOut) && Timely(more, timeout)
  {
    QuitShape(trace, sig, ok, at);
    QuitCounts(trace, ok, at, timeout);
    QuitTimely(trace, ok, at, timeout);
  }

  lemma TickIsEarly(ticks: nat, at: nat, timeout: nat)
    requires TickTime(ticks + 1) <= at < timeout
    ensures ticks + 1 <= EarlyTicks(timeout)
  {
  }

  lemma PollCounts(trace: seq<Call>, timeout: nat)
    requires trace != []
    ensures var c, front := trace[|trace| - 1], trace[..|trace| - 1];
            && Polls(trace) == Polls(front) + (if IsPoll(c) then 1 else 0)
            && LatePolls(trace, timeout) == LatePolls(front, timeout) + (if IsLate(c, timeout) then 1 else 0)
  {
  }

  predicate IsQuit(c: Call) { c.SignalContainer? && c.signal == Quit }

  predicate SawStopped(c: Call) { c.ContainerState? && c.reply == StatusStopped }

  predicate SawNil(c: Call) { c.ContainerState? && c.reply == NilState }

  /** Reading a trace backwards: nil means that "stopped" was observed, timeoutError that QUIT was
      attempted, a panic that a nil state was returned; and QUIT was sent at most once. */
  lemma TraceMeaning(trace: seq<Call>, configured: string, outcome: Outcome)
    requires TraceShape(trace, ParseShutdownSignal(configured), outcome)
    ensures outcome == Ok <==> exists i :: 0 <= i < |trace| && SawStopped(trace[i])
    ensures outcome == TimedOut <==> exists i :: 0 <= i < |trace| && IsQuit(trace[i])
    ensures outcome == NilDereference <==> exists i :: 0 <= i < |trace| && SawNil(trace[i])
    ensures forall i, j :: 0 <= i < |trace| && 0 <= j < |trace| && IsQuit(trace[i]) && IsQuit(trace[j]) ==> i == j
  {
    var n := |trace|;
    var last := if outcome == TimedOut then n - 2 else n - 1;
    forall i | 1 <= i < last ensures Inconclusive(trace[i]) {
      if outcome == TimedOut {
        assert trace[i] == trace[1..n - 2][i - 1];
      } else {
        assert trace[i] == trace[1..n - 1][i - 1];
      }
    }
  }

  /** A process whose configuration is accepted is sent the signal it names, and TERM if it names
      none. */
  lemma AcceptedSignalIsSent(c: JobConfig.ProcessConfig, root: string, defaults: seq<string>,
                             trace: seq<Call>, outcome: Outcome)
    requires c.Verdict(root, defaults) == JobConfig.Accepted
    requires TraceShape(trace, ParseShutdownSignal(c.shutdownSignal), outcome)
    ensures c.shutdownSignal in {"", "TERM", "INT"}
    ensures SignalName(trace[0].signal) == if c.shutdownSignal == "" then "TERM" else c.shutdownSignal
  {
  }

  /** In seconds: a stop with a timeout of n seconds polls at most n times before the timer is due, and
      sleeps for two seconds after QUIT. */
  lemma PollBudget(seconds: nat, trace: seq<Call>, configured: string, outcome: Outcome)
    requires TraceShape(trace, ParseShutdownSignal(configured), outcome)
    requires Polls(trace) <= 1 + EarlyTicks(seconds * 1000) + LatePolls(trace, seconds * 1000)
    ensures Polls(trace) <= (if seconds == 0 then 1 else seconds) + LatePolls(trace, seconds * 1000)
    ensures EarlyTicks(seconds * 1000) == if seconds == 0 then 0 else seconds - 1
    ensures outcome == TimedOut ==> trace[|trace| - 1].Sleep? && trace[|trace| - 1].duration == 2000
  {
  }
}
