/** The commands as they are written, against a host on which other bpm processes, containers and
    kills go on between any two client calls: src/bpm/commands/{start,stop,run,root}.go and
    src/bpm/runc/lifecycle/lifecycle.go. Every effect is a step of the protocol. */
module Commands {
  import opened JobId
  import opened Names
  import opened Files
  import opened Protocol
  import opened Invariants
  import opened Safety
  import Listing
  import Polling = StopProcess

  /** What a command or a part of it returns; `Waiting` means that it is still blocked on a lock. */
  datatype Return = Nil | Error | Waiting

  /** The status string of runc for a container. */
  function StatusString(st: Status): string {
    match st
    case Creating => "creating"
    case Created => "created"
    case Running => "running"
    case Paused => "paused"
    case Stopped => "stopped"
  }

  /** bpm reports a container as running or as failed exactly in these statuses. */
  lemma ReportedStatus(st: Status)
    ensures Listing.StateToString(StatusString(st)) == Listing.RUNNING <==> st == Running
    ensures Listing.StateToString(StatusString(st)) == Listing.FAILED <==> ReportedFailed(st)
  {
  }

  lemma AnsweredSeen(q: Proc, seen: Seen)
    ensures Answered(q, seen).seen == seen
  {
  }

  /** The calls of one process in a run, in order. */
  function ActionsBy(es: seq<Event>, p: Pid): seq<Action> {
    if es == [] then []
    else
      var n := |es| - 1;
      ActionsBy(es[..n], p) + if By(es[n], p) then [es[n].a] else []
  }

  lemma ActionsBySnoc(es: seq<Event>, e: Event, p: Pid)
    ensures ActionsBy(es + [e], p) == ActionsBy(es, p) + if By(e, p) then [e.a] else []
  {
    assert (es + [e])[..|es|] == es;
  }

  class Host {
    var state: State
    ghost var initial: State
    ghost var trace: seq<Event>

    /** The state is the one the recorded events lead to. */
    ghost predicate Consistent()
      reads this
    {
      Initial(initial) && Valid(initial, trace) && After(initial, trace) == state
    }

    predicate At(p: Pid, pc: Pc)
      reads this
    {
      p in state.procs && state.procs[p].pc == pc
    }

    constructor (containers: map<Bytes, Container>, bundles: set<Path>, pidfiles: set<Path>)
      ensures Consistent() && state.procs == map[]
    {
      state := State(map[], map[], containers, bundles, pidfiles, map[], {}, {}, {}, {}, false);
      initial := State(map[], map[], containers, bundles, pidfiles, map[], {}, {}, {}, {}, false);
      trace := [];
    }

    method Step(e: Event)
      requires Consistent() && Enabled(state, e)
      modifies this
      ensures Consistent() && state == Apply(old(state), e) && trace == old(trace) + [e]
    {
      AfterSnoc(initial, trace, e);
      state := Apply(state, e);
      trace := trace + [e];
    }

    /** Any number of events of others; none is of process `p`. */
    method Others(p: Pid)
      requires Consistent() && p in state.procs
      modifies this
      ensures Consistent() && p in state.procs && state.procs[p] == old(state.procs[p])
      ensures ActionsBy(trace, p) == old(ActionsBy(trace, p))
    {
      var n: int := *;
      while n > 0
        invariant Consistent() && p in state.procs && state.procs[p] == old(state.procs[p])
        invariant ActionsBy(trace, p) == old(ActionsBy(trace, p))
      {
        var e: Event := *;
        if Enabled(state, e) && !By(e, p) {
          if e.Act? {
            ActProcsLocal(state, e.p, e.a);
          }
          ActionsBySnoc(trace, e, p);
          Step(e);
        }
        n := n - 1;
      }
    }

    /** One call of process `p` that needs nothing of the shared state. */
    method Call(p: Pid, a: Action)
      requires Consistent() && p in state.procs && Ready(state.procs[p], a)
      modifies this
      ensures Consistent() && p in state.procs && state.procs[p] == Advance(old(state.procs[p]), a)
      ensures ActionsBy(trace, p) == old(ActionsBy(trace, p)) + [a]
    {
      Others(p);
      ActionsBySnoc(trace, Act(p, a), p);
      Step(Act(p, a));
    }

    /** A call that succeeds or fails. */
    method Try(p: Pid, good: Action, bad: Action) returns (ok: bool)
      requires Consistent() && p in state.procs && Ready(state.procs[p], good) && Ready(state.procs[p], bad)
      modifies this
      ensures Consistent() && p in state.procs
      ensures state.procs[p] == Advance(old(state.procs[p]), if ok then good else bad)
      ensures ActionsBy(trace, p) == old(ActionsBy(trace, p)) + [if ok then good else bad]
    {
      ok := *;
      Call(p, if ok then good else bad);
    }

    /** ContainerState: some reply that is possible in the state it finds. */
    method ContainerState(p: Pid) returns (reply: StatReply)
      requires Consistent() && p in state.procs
      modifies this
      ensures Consistent() && p in state.procs && state.procs[p] == old(state.procs[p])
      ensures ReplyPossible(state, state.procs[p].id, reply) && ActionsBy(trace, p) == old(ActionsBy(trace, p))
    {
      Others(p);
      var id := state.procs[p].id;
      var fails: bool := *;
      if fails {
        reply := ErrorReply;
      } else if id !in state.containers {
        reply := NilReply;
      } else if state.containers[id].readable {
        reply := StateReply;
      } else {
        reply := ErrorReply;
      }
    }

    /** StatProcess: the status as bpm reports it, "" when there is no process to report. */
    method StatProcess(p: Pid) returns (reply: StatReply, status: string)
      requires Consistent() && At(p, AtStat)
      modifies this
      ensures Consistent() && p in state.procs
      ensures state.procs[p] == Answered(old(state.procs[p]), state.procs[p].seen)
      ensures reply == NilReply <==> state.procs[p].seen == SawNone
      ensures reply == ErrorReply <==> state.procs[p].seen == SawError
      ensures reply == StateReply <==> state.procs[p].seen.Saw?
      ensures status == Listing.RUNNING <==> state.procs[p].seen == Saw(Running)
      ensures status == Listing.FAILED <==> state.procs[p].seen.Saw? && ReportedFailed(state.procs[p].seen.status)
    {
      reply := ContainerState(p);
      status := "";
      var q := state.procs[p];
      if reply == StateReply {
        var st := state.containers[q.id].status;
        status := Listing.StateToString(StatusString(st));
        ReportedStatus(st);
      }
      AnsweredSeen(q, Learned(state, q, reply));
      Step(Act(p, Stat(reply)));
    }
  }

  /** The calls a process can make whatever the shared state is. */
  predicate Ready(q: Proc, a: Action) {
    match a
    case LockFails => q.pc == AtLock
    case Prepare(_) => q.pc == AtPrepare
    case Config(_) => q.pc == AtConfig
    case RemoveState(_) => q.pc == AtRemoveState
    case Delete(_, _) => q.pc == AtDelete
    case Destroy(_) => q.pc == AtDestroy
    case RemovePid(_) => q.pc == AtRemovePid
    case Share(_, _) => q.pc == AtShare && q.vol < |q.vols|
    case SetupFails => q.pc == AtVolume
    case SetupDone => q.pc == AtVolume && q.vol == |q.vols|
    case Bundle(_, _) => q.pc == AtBundle
    case Hook(_) => q.pc == AtHook
    case Signal(_) => q.pc == AtSignal
    case Tick => q.pc == AtSelect
    case Timeout => q.pc == AtSelect
    case Unlock(_) => q.pc == AtPost
    case Exit => q.pc == Exiting || q.pc == Panicked
    case _ => false
  }

  /** Where a command goes on after it removed its process. */
  function Afterwards(q: Proc): Proc { if q.cmd == Stop then Done(q) else q.(pc := AtVolume) }

  /** A process past its last volume. */
  function AllVolumes(q: Proc): Proc { q.(vol := |q.vols|) }

  /** What the protocol guarantees a process in a reachable state. */
  ghost predicate Guaranteed(s: State, p: Pid)
    requires p in s.procs
  {
    var q := s.procs[p];
    && (q.pc == Panicked ==> q.id in s.unattended)
    && (q.pc == AtPost && q.cmd == Stop ==>
          Gone(s, q.id) && (q.seen.Saw? && FilesCompatible(s) ==> FilesGone(s, q)))
    && (q.pc == AtPost && q.cmd == Start ==> StillThere(s, q.id, Running))
  }

  lemma Guarantees(s: State, p: Pid)
    requires Reachable(s) && Compatible(s) && p in s.procs
    ensures Guaranteed(s, p)
  {
    ReachableProc(s, p);
    if FilesCompatible(s) && Holding(s.procs[p].pc) {
      ReachableFiles(s, p);
    }
  }

  lemma HostSafety(h: Host, p: Pid)
    requires h.Consistent() && p in h.state.procs
    ensures h.state.procs[p].vol <= |h.state.procs[p].vols|
    ensures h.At(p, Exited) ==> forall l :: l in h.state.locks ==> h.state.locks[l] != p
    ensures Compatible(h.state) ==> Guaranteed(h.state, p)
  {
    assert Reachable(h.state);
    ReachableOwns(h.state, p);
    if Compatible(h.state) {
      Guarantees(h.state, p);
    }
  }

  lemma ReachableOwns(s: State, p: Pid)
    requires Reachable(s) && p in s.procs
    ensures Owns(s, p) && (s.procs[p].pc == Exited ==> forall l :: l in s.locks ==> s.locks[l] != p)
  {
    ReachableBaseInv(s);
  }

  // ---------------------------------------------------------------- removing

  method RemoveProcess(h: Host, p: Pid) returns (r: Return)
    requires h.Consistent() && h.At(p, AtDelete)
    modifies h
    ensures h.Consistent() && p in h.state.procs
    ensures r == Nil ==> h.state.procs[p] == Afterwards(old(h.state.procs[p]))
    ensures r == Error ==> h.At(p, Exiting) && h.state.procs[p].res.Failed?
    ensures r != Waiting
  {
    var killed: bool := *;
    var ok := h.Try(p, Delete(true, false), Delete(false, killed));
    if !ok {
      return Error;
    }
    ok := h.Try(p, Destroy(true), Destroy(false));
    if !ok {
      return Error;
    }
    ok := h.Try(p, RemovePid(true), RemovePid(false));
    return if ok then Nil else Error;
  }

  method ForceCleanupBrokenRuncState(h: Host, p: Pid) returns (r: Return)
    requires h.Consistent() && h.At(p, AtRemoveState) && h.state.procs[p].cmd != Stop
    modifies h
    ensures h.Consistent() && p in h.state.procs
    ensures r == Nil ==> h.state.procs[p] == old(h.state.procs[p]).(pc := AtVolume)
    ensures r == Error ==> h.At(p, Exiting) && h.state.procs[p].res.Failed?
    ensures r != Waiting
  {
    var ok := h.Try(p, RemoveState(true), RemoveState(false));
    if !ok {
      return Error;
    }
    r := RemoveProcess(h, p);
  }

  // ---------------------------------------------------------------- starting

  /** makeShared: the volume lock is held while the volume is shared; failing to unlock is ignored. */
  method MakeShared(h: Host, p: Pid) returns (r: Return)
    requires h.Consistent() && h.At(p, AtVolume) && h.state.procs[p].vol < |h.state.procs[p].vols|
    modifies h
    ensures h.Consistent() && p in h.state.procs
    ensures r == Nil ==> h.state.procs[p] == old(h.state.procs[p]).(vol := old(h.state.procs[p]).vol + 1)
    ensures r == Error ==> h.At(p, Exiting) && h.state.procs[p].res.Failed?
  {
    h.Others(p);
    var q := h.state.procs[p];
    if q.vols[q.vol] in h.state.locks {
      return Waiting;
    }
    h.Step(Act(p, LockVolume));
    var unlocked: bool := *;
    var ok := h.Try(p, Share(true, unlocked), Share(false, unlocked));
    return if ok then Nil else Error;
  }

  /** CreateJobPrerequisites: a loop over the shared volumes, among other things that may fail. */
  method CreateJobPrerequisites(h: Host, p: Pid) returns (r: Return)
    requires h.Consistent() && h.At(p, AtVolume) && h.state.procs[p].vol <= |h.state.procs[p].vols|
    modifies h
    ensures h.Consistent() && p in h.state.procs
    ensures r == Nil ==> h.state.procs[p] == AllVolumes(old(h.state.procs[p])).(pc := AtBundle)
    ensures r == Error ==> h.At(p, Exiting) && h.state.procs[p].res.Failed?
  {
    ghost var q := h.state.procs[p];
    while h.state.procs[p].vol < |h.state.procs[p].vols|
      invariant h.Consistent() && p in h.state.procs && h.state.procs[p].vol <= |q.vols|
      invariant h.state.procs[p] == q.(vol := h.state.procs[p].vol)
      decreases |q.vols| - h.state.procs[p].vol
    {
      r := MakeShared(h, p);
      if r != Nil {
        return;
      }
    }
    var ok := h.Try(p, SetupDone, SetupFails);
    return if ok then Nil else Error;
  }

  method SetupProcess(h: Host, p: Pid) returns (r: Return)
    requires h.Consistent() && h.At(p, AtVolume) && h.state.procs[p].vol <= |h.state.procs[p].vols|
    modifies h
    ensures h.Consistent() && p in h.state.procs
    ensures r == Nil ==> h.state.procs[p] == AllVolumes(old(h.state.procs[p])).(pc := AtRun)
    ensures r == Error ==> h.At(p, Exiting) && h.state.procs[p].res.Failed?
  {
    r := CreateJobPrerequisites(h, p);
    if r != Nil {
      return;
    }
    var made: bool := *;
    var ok := h.Try(p, Bundle(true, true), Bundle(false, made));
    if !ok {
      return Error;
    }
    ok := h.Try(p, Hook(true), Hook(false));
    return if ok then Nil else Error;
  }

  /** RunContainer: `start` detaches; `run` stays until the container has exited. The status it returns
      is what a failed `run` exits with. */
  method RunContainer(h: Host, p: Pid) returns (status: int, r: Return)
    requires h.Consistent() && h.At(p, AtRun)
    modifies h
    ensures h.Consistent() && p in h.state.procs
    ensures r == Nil ==> status == 0 && h.state.procs[p] == Done(old(h.state.procs[p]))
    ensures r == Error ==> h.At(p, Exiting) && h.state.procs[p].res.Failed?
    ensures r == Error ==> h.state.procs[p].res.code == if h.state.procs[p].cmd == Run then status else 1
    ensures r != Waiting
  {
    h.Others(p);
    var id := h.state.procs[p].id;
    var fails: bool := *;
    if fails || id in h.state.containers {
      status := *;
      if status == 0 {
        status := 1;
      }
      var left: LeftOver := *;
      h.Step(Act(p, Action.RunContainer(RunError(status, left))));
      return status, Error;
    }
    h.Step(Act(p, Action.RunContainer(RunOk)));
    if h.state.procs[p].cmd != Run {
      return 0, Nil;
    }
    status, r := AwaitContainer(h, p);
  }

  /** The foreground runc returns once its container has exited, or when it was killed itself; copying
      its output may fail too. Its status is the last thing the process learns and what it exits with. */
  method AwaitContainer(h: Host, p: Pid) returns (status: int, r: Return)
    requires h.Consistent() && h.At(p, Attached)
    modifies h
    ensures h.Consistent() && p in h.state.procs && h.state.procs[p].cmd == old(h.state.procs[p].cmd)
    ensures exists removed, copied ::
              ActionsBy(h.trace, p) == old(ActionsBy(h.trace, p)) + [ContainerReturns(status, removed, copied)]
    ensures r == Nil ==> status == 0 && h.state.procs[p] == Done(old(h.state.procs[p]))
    ensures r == Error ==> h.At(p, Exiting) && h.state.procs[p].res == Failed(status, Attached, status == 0)
    ensures r != Waiting
  {
    status := *;
    var removed: bool := *;
    var copied: bool := *;
    AwaitExit(h, p, status == 0 || removed);
    ActionsBySnoc(h.trace, Act(p, ContainerReturns(status, removed, copied)), p);
    h.Step(Act(p, ContainerReturns(status, removed, copied)));
    return status, if status == 0 && copied then Nil else Error;
  }

  /** Time passes, until the container has exited if it must have. */
  method AwaitExit(h: Host, p: Pid, must: bool)
    requires h.Consistent() && p in h.state.procs
    modifies h
    ensures h.Consistent() && p in h.state.procs && h.state.procs[p] == old(h.state.procs[p])
    ensures ActionsBy(h.trace, p) == old(ActionsBy(h.trace, p))
    ensures var id := h.state.procs[p].id;
            must && id in h.state.containers ==> !Alive(h.state.containers[id].status)
  {
    h.Others(p);
    var id := h.state.procs[p].id;
    if must && id in h.state.containers && Alive(h.state.containers[id].status) {
      ActionsBySnoc(h.trace, ContainerExits(id), p);
      h.Step(ContainerExits(id));
    }
  }

  /** StartProcess and RunProcess. */
  method LaunchProcess(h: Host, p: Pid) returns (r: Return)
    requires h.Consistent() && h.At(p, AtVolume) && h.state.procs[p].vol <= |h.state.procs[p].vols|
    modifies h
    ensures h.Consistent() && p in h.state.procs
    ensures r == Nil ==> h.At(p, AtPost) && h.state.procs[p].cmd == old(h.state.procs[p].cmd)
    ensures r == Error ==> h.At(p, Exiting) && h.state.procs[p].res.Failed?
  {
    r := SetupProcess(h, p);
    if r != Nil {
      return;
    }
    var status;
    status, r := RunContainer(h, p);
  }

  /** start and run. */
  method StartOrRun(h: Host, p: Pid) returns (r: Return)
    requires h.Consistent() && h.At(p, AtPrepare) && h.state.procs[p].cmd != Stop
    modifies h
    ensures h.Consistent() && p in h.state.procs
    ensures r == Nil ==> h.At(p, AtPost) && h.state.procs[p].cmd == old(h.state.procs[p].cmd)
    ensures r == Nil && h.state.procs[p].cmd == Start && Compatible(h.state) ==>
              StillThere(h.state, h.state.procs[p].id, Running)
    ensures r == Error ==> h.At(p, Exiting) && h.state.procs[p].res.Failed?
  {
    var ok := h.Try(p, Prepare(true), Prepare(false));
    if !ok {
      return Error;
    }
    assert Reachable(h.state);
    ReachableOwns(h.state, p);
    var reply, status := h.StatProcess(p);
    if reply == ErrorReply {
      r := ForceCleanupBrokenRuncState(h, p);
      if r != Nil {
        return;
      }
    }
    r := Switch(h, p, status);
    HostSafety(h, p);
  }

  /** The switch on the reported status, with the fallthrough from "failed". */
  method Switch(h: Host, p: Pid, status: string) returns (r: Return)
    requires h.Consistent() && p in h.state.procs && h.state.procs[p].cmd != Stop
    requires h.state.procs[p].vol <= |h.state.procs[p].vols|
    requires h.At(p, if status == Listing.RUNNING then AtPost
                     else if status == Listing.FAILED then AtDelete else AtVolume)
    modifies h
    ensures h.Consistent() && p in h.state.procs
    ensures r == Nil ==> h.At(p, AtPost) && h.state.procs[p].cmd == old(h.state.procs[p].cmd)
    ensures r == Error ==> h.At(p, Exiting) && h.state.procs[p].res.Failed?
  {
    if status == Listing.RUNNING {
      return Nil;
    }
    if status == Listing.FAILED {
      r := RemoveProcess(h, p);
      if r != Nil {
        return;
      }
    }
    r := LaunchProcess(h, p);
  }

  // ---------------------------------------------------------------- stopping

  /** A reply of ContainerState, as the poll loop sees it. */
  function ReplyOf(reply: Polling.Reply): StatReply {
    match reply
    case Error => ErrorReply
    case NilState => NilReply
    case _ => StateReply
  }

  /** The protocol steps behind the calls of StopProcess: every poll but the first follows a tick, and
      QUIT follows the timer. */
  function StepsOf(calls: seq<Polling.Call>): seq<Action> {
    if calls == [] then [] else StepsOf(calls[..|calls| - 1]) + CallSteps(calls[|calls| - 1], |calls| - 1)
  }

  function CallSteps(c: Polling.Call, n: nat): seq<Action> {
    match c
    case SignalContainer(_, ok, _) => if n == 0 then [Signal(ok)] else [Timeout]
    case ContainerState(reply, _) => (if n <= 1 then [] else [Tick]) + [Poll(ReplyOf(reply))]
    case Sleep(_, _) => []
  }

  lemma StepsOfSnoc(calls: seq<Polling.Call>, c: Polling.Call)
    ensures StepsOf(calls + [c]) == StepsOf(calls) + CallSteps(c, |calls|)
  {
    assert (calls + [c])[..|calls|] == calls;
  }

  function PollPc(reply: Polling.Reply): Pc {
    match reply
    case NilState => Panicked
    case StatusStopped => AtDelete
    case _ => AtSelect
  }

  method PollOnce(h: Host, p: Pid) returns (reply: Polling.Reply)
    requires h.Consistent() && h.At(p, AtPoll)
    modifies h
    ensures h.Consistent() && p in h.state.procs && h.state.procs[p] == old(h.state.procs[p]).(pc := PollPc(reply))
    ensures ActionsBy(h.trace, p) == old(ActionsBy(h.trace, p)) + [Poll(ReplyOf(reply))]
  {
    var answer := h.ContainerState(p);
    reply := PollReply(h.state, h.state.procs[p].id, answer);
    ActionsBySnoc(h.trace, Act(p, Poll(answer)), p);
    Polled(h.state, p, answer);
    h.Step(Act(p, Poll(answer)));
  }

  function PollReply(s: State, id: Bytes, answer: StatReply): Polling.Reply
    requires ReplyPossible(s, id, answer)
  {
    match answer
    case NilReply => Polling.NilState
    case ErrorReply => Polling.Error
    case StateReply => if s.containers[id].status == Stopped then Polling.StatusStopped else Polling.OtherStatus
  }

  lemma Polled(s: State, p: Pid, answer: StatReply)
    requires p in s.procs && s.procs[p].pc == AtPoll && ReplyPossible(s, s.procs[p].id, answer)
    ensures CanAct(s, p, Poll(answer))
    ensures var reply := PollReply(s, s.procs[p].id, answer);
            ReplyOf(reply) == answer && Do(s, p, Poll(answer)).procs == s.procs[p := s.procs[p].(pc := PollPc(reply))]
  {
  }

  method TickAndPoll(h: Host, p: Pid) returns (reply: Polling.Reply)
    requires h.Consistent() && h.At(p, AtSelect)
    modifies h
    ensures h.Consistent() && p in h.state.procs && h.state.procs[p] == old(h.state.procs[p]).(pc := PollPc(reply))
    ensures ActionsBy(h.trace, p) == old(ActionsBy(h.trace, p)) + [Tick, Poll(ReplyOf(reply))]
  {
    h.Call(p, Tick);
    reply := PollOnce(h, p);
  }

  /** StopProcess on a host where others go on, with its ticker and its timer; its error is only
      logged. The steps of the process are those of a call trace of the right shape, so the bound on
      polls holds here, too. */
  method StopProcess(h: Host, p: Pid, configured: string, timeout: nat, late: nat)
    returns (outcome: Polling.Outcome, calls: seq<Polling.Call>)
    requires h.Consistent() && h.At(p, AtSignal)
    modifies h
    ensures h.Consistent() && p in h.state.procs
    ensures h.state.procs[p]
            == old(h.state.procs[p]).(pc := if outcome == Polling.NilDereference then Panicked else AtDelete)
    ensures Polling.TraceShape(calls, Polling.ParseShutdownSignal(configured), outcome)
    ensures Polling.Timely(calls, timeout) && Polling.Polls(calls) <= 1 + Polling.EarlyTicks(timeout) + late
    ensures Polling.SignalName(calls[0].signal) == if configured == "INT" then "INT" else "TERM"
    ensures ActionsBy(h.trace, p) == old(ActionsBy(h.trace, p)) + StepsOf(calls)
  {
    outcome, calls := StopWith(h, p, Polling.ParseShutdownSignal(configured), timeout, late);
  }

  method StopWith(h: Host, p: Pid, sig: Polling.Signal, timeout: nat, late: nat)
    returns (outcome: Polling.Outcome, calls: seq<Polling.Call>)
    requires h.Consistent() && h.At(p, AtSignal)
    modifies h
    ensures h.Consistent() && p in h.state.procs
    ensures h.state.procs[p]
            == old(h.state.procs[p]).(pc := if outcome == Polling.NilDereference then Panicked else AtDelete)
    ensures Polling.TraceShape(calls, sig, outcome)
    ensures Polling.Timely(calls, timeout) && Polling.Polls(calls) <= 1 + Polling.EarlyTicks(timeout) + late
    ensures ActionsBy(h.trace, p) == old(ActionsBy(h.trace, p)) + StepsOf(calls)
  {
    var ok := h.Try(p, Signal(true), Signal(false));
    if !ok {
      FirstSteps(sig, false, Polling.Error);
      Polling.FirstCall(sig, false, timeout);
      return Polling.SignalFailed, [Polling.SignalContainer(sig, false, 0)];
    }
    var reply := PollOnce(h, p);
    FirstSteps(sig, true, reply);
    Polling.FirstPoll(sig, reply, timeout);
    calls := [Polling.SignalContainer(sig, true, 0), Polling.ContainerState(reply, 0)];
    if reply == Polling.NilState {
      return Polling.NilDereference, calls;
    }
    if reply == Polling.StatusStopped {
      return Polling.Ok, calls;
    }
    outcome, calls := PollLoop(h, p, sig, calls, timeout, late, old(ActionsBy(h.trace, p)));
  }

  lemma FirstSteps(sig: Polling.Signal, ok: bool, reply: Polling.Reply)
    ensures StepsOf([Polling.SignalContainer(sig, ok, 0)]) == [Signal(ok)]
    ensures StepsOf([Polling.SignalContainer(sig, ok, 0), Polling.ContainerState(reply, 0)])
            == [Signal(ok)] + [Poll(ReplyOf(reply))]
  {
    var first, c := Polling.SignalContainer(sig, ok, 0), Polling.ContainerState(reply, 0);
    StepsOfSnoc([], first);
    assert [] + [first] == [first];
    StepsOfSnoc([first], c);
    assert [first] + [c] == [first, c];
  }

  /** The loop over ticker and timer; `acts` is what the process had done before StopProcess. */
  method PollLoop(h: Host, p: Pid, sig: Polling.Signal, made: seq<Polling.Call>, timeout: nat, late: nat,
                  ghost acts: seq<Action>)
    returns (outcome: Polling.Outcome, calls: seq<Polling.Call>)
    requires h.Consistent() && h.At(p, AtSelect) && Polling.StillPolling(made, sig, timeout)
    requires Polling.Polls(made) == 1 && |made| == 2 && made[1].at == 0
    requires ActionsBy(h.trace, p) == acts + StepsOf(made)
    modifies h
    ensures h.Consistent() && p in h.state.procs
    ensures h.state.procs[p]
            == old(h.state.procs[p]).(pc := if outcome == Polling.NilDereference then Panicked else AtDelete)
    ensures Polling.TraceShape(calls, sig, outcome) && Polling.Timely(calls, timeout)
    ensures Polling.Polls(calls) <= 1 + Polling.EarlyTicks(timeout) + late
    ensures ActionsBy(h.trace, p) == acts + StepsOf(calls)
  {
    calls := made;
    ghost var q := h.state.procs[p];
    var now, early, lateLeft: int := 0, 0, late;
    while true
      invariant h.Consistent() && p in h.state.procs && h.state.procs[p] == q
      invariant 0 <= early <= Polling.EarlyTicks(timeout) && 0 <= lateLeft <= late
      invariant lateLeft < late ==> now >= timeout
      invariant Polling.StillPolling(calls, sig, timeout) && calls[|calls| - 1].at <= now
      invariant Polling.Polls(calls) == 1 + early + (late - lateLeft)
      invariant |calls| == 2 + early + (late - lateLeft) && ActionsBy(h.trace, p) == acts + StepsOf(calls)
      decreases Polling.EarlyTicks(timeout) - early + lateLeft
    {
      var tick, at := Polling.Select(now, early + (late - lateLeft), timeout, lateLeft);
      now := at;
      if !tick {
        calls := GiveUp(h, p, sig, calls, timeout, at, acts);
        return Polling.TimedOut, calls;
      }
      var reply;
      reply, calls := NextPoll(h, p, sig, calls, timeout, at, acts);
      if at >= timeout {
        lateLeft := lateLeft - 1;
      } else {
        Polling.TickIsEarly(early, at, timeout);
        early := early + 1;
      }
      if reply == Polling.NilState {
        return Polling.NilDereference, calls;
      }
      if reply == Polling.StatusStopped {
        return Polling.Ok, calls;
      }
    }
  }

  /** One more tick and poll. */
  method NextPoll(h: Host, p: Pid, sig: Polling.Signal, made: seq<Polling.Call>, ghost timeout: nat, at: nat,
                  ghost acts: seq<Action>)
    returns (reply: Polling.Reply, calls: seq<Polling.Call>)
    requires h.Consistent() && h.At(p, AtSelect) && Polling.StillPolling(made, sig, timeout)
    requires made[|made| - 1].at <= at && (|made| - 1) * 1000 <= at
    requires ActionsBy(h.trace, p) == acts + StepsOf(made)
    modifies h
    ensures h.Consistent() && p in h.state.procs && h.state.procs[p] == old(h.state.procs[p]).(pc := PollPc(reply))
    ensures Polling.Polls(calls) == Polling.Polls(made) + 1 && ActionsBy(h.trace, p) == acts + StepsOf(calls)
    ensures |calls| == |made| + 1 && calls[|calls| - 1].at == at && Polling.PolledTo(calls, sig, reply, timeout)
  {
    reply := TickAndPoll(h, p);
    Polling.PollMade(made, sig, reply, at, timeout);
    StepsOfSnoc(made, Polling.ContainerState(reply, at));
    calls := made + [Polling.ContainerState(reply, at)];
  }

  /** The timer won: QUIT, and the grace period. */
  method GiveUp(h: Host, p: Pid, sig: Polling.Signal, made: seq<Polling.Call>, ghost timeout: nat, at: nat,
                ghost acts: seq<Action>)
    returns (calls: seq<Polling.Call>)
    requires h.Consistent() && h.At(p, AtSelect) && Polling.StillPolling(made, sig, timeout)
    requires made[|made| - 1].at <= at && timeout <= at
    requires ActionsBy(h.trace, p) == acts + StepsOf(made)
    modifies h
    ensures h.Consistent() && p in h.state.procs && h.state.procs[p] == old(h.state.procs[p]).(pc := AtDelete)
    ensures Polling.Polls(calls) == Polling.Polls(made) && ActionsBy(h.trace, p) == acts + StepsOf(calls)
    ensures Polling.TraceShape(calls, sig, Polling.TimedOut) && Polling.Timely(calls, timeout)
  {
    var ok: bool := *;
    h.Call(p, Timeout);
    Polling.QuitMade(made, sig, ok, at, timeout);
    QuitSteps(made, ok, at);
    calls := Polling.Quitting(made, ok, at);
  }

  lemma QuitSteps(made: seq<Polling.Call>, ok: bool, at: nat)
    requires made != []
    ensures StepsOf(Polling.Quitting(made, ok, at)) == StepsOf(made) + [Timeout]
  {
    var quit := Polling.SignalContainer(Polling.Quit, ok, at);
    StepsOfSnoc(made, quit);
    StepsOfSnoc(made + [quit], Polling.Sleep(Polling.GRACE_PERIOD, at));
  }

  /** DefaultStopTimeout: fifteen seconds. */
  const DEFAULT_STOP_TIMEOUT: nat := 15000

  method StopCommand(h: Host, p: Pid, configured: string, late: nat)
    returns (r: Return, calls: seq<Polling.Call>)
    requires h.Consistent() && h.At(p, AtPrepare) && h.state.procs[p].cmd == Stop
    modifies h
    ensures h.Consistent() && p in h.state.procs && r != Waiting
    ensures r == Nil ==> h.At(p, AtPost) && h.state.procs[p].cmd == Stop
    ensures r == Nil && Compatible(h.state) ==> Gone(h.state, h.state.procs[p].id)
    ensures r == Nil && Compatible(h.state) && FilesCompatible(h.state) && h.state.procs[p].seen.Saw? ==>
              FilesGone(h.state, h.state.procs[p])
    ensures r == Error ==> h.At(p, Exiting) || h.At(p, Panicked)
    ensures Polling.Timely(calls, 15000) && Polling.Polls(calls) <= 15 + late
    ensures Compatible(h.state) && h.state.procs[p].id !in h.state.unattended ==> !h.At(p, Panicked)
  {
    calls := [];
    var ok := h.Try(p, Prepare(true), Prepare(false));
    if !ok {
      return Error, calls;
    }
    var reply, status := h.StatProcess(p);
    if reply == NilReply {
      HostSafety(h, p);
      return Nil, calls;
    }
    if reply == ErrorReply {
      return Error, calls;
    }
    ok := h.Try(p, Config(true), Config(false));
    if !ok {
      return Error, calls;
    }
    var outcome;
    outcome, calls := StopProcess(h, p, configured, DEFAULT_STOP_TIMEOUT, late);
    if outcome == Polling.NilDereference {
      HostSafety(h, p);
      return Error, calls;
    }
    r := RemoveProcess(h, p);
    HostSafety(h, p);
  }

  // ---------------------------------------------------------------- one bpm process

  /** PreRunE takes the lock, RunE does the work, PostRunE releases the lock only if RunE returned
      nil, and the process exits. */
  method Execute(h: Host, p: Pid) returns (r: Return)
    requires h.Consistent() && h.At(p, AtLock)
    modifies h
    ensures h.Consistent() && p in h.state.procs
    ensures r != Waiting ==> h.At(p, Exited) && forall l :: l in h.state.locks ==> h.state.locks[l] != p
  {
    h.Others(p);
    var fails: bool := *;
    if fails {
      h.Step(Act(p, LockFails));
      r := Error;
    } else if h.state.procs[p].lock in h.state.locks {
      return Waiting;
    } else {
      h.Step(Act(p, Acquire));
      r := RunAndPost(h, p);
      if r == Waiting {
        return;
      }
    }
    h.Call(p, Exit);
    HostSafety(h, p);
  }

  /** RunE, and PostRunE unless it returned an error. */
  method RunAndPost(h: Host, p: Pid) returns (r: Return)
    requires h.Consistent() && h.At(p, AtPrepare)
    modifies h
    ensures h.Consistent() && p in h.state.procs
    ensures r != Waiting ==> h.At(p, Exiting) || h.At(p, Panicked)
  {
    if h.state.procs[p].cmd == Stop {
      var configured: string := *;
      var late: int := *;
      var calls;
      r, calls := StopCommand(h, p, configured, if late < 0 then 0 else late);
    } else {
      r := StartOrRun(h, p);
    }
    if r == Nil {
      var ok := h.Try(p, Unlock(true), Unlock(false));
      if !ok {
        r := Error;
      }
    }
  }
}
