/** What the end of a run says about the events that led to it: exit statuses, and the history and the
    runc processes left behind that a state records. */
module Histories {
  import opened JobId
  import opened Names
  import opened Files
  import opened Protocol
  import opened Invariants

  /** The result of a process before it was killed. */
  function Returned(res: Result): Result { if res.Killed? then res.before else res }

  // ---------------------------------------------------------------- where a process comes from

  /** The process was spawned with its command and key, and takes the locks of its volumes in order. */
  ghost predicate SpawnedAs(past: seq<Event>, p: Pid, q: Proc) {
    exists digests: seq<Bytes> ::
      && Spawn(p, q.cmd, q.key, digests) in past && |q.vols| == |digests|
      && forall i :: 0 <= i < |digests| ==> q.vols[i] == "vol-" + digests[i] + ".lock"
  }

  // ---------------------------------------------------------------- exit statuses

  ghost predicate RuncReturned(past: seq<Event>, p: Pid, status: int, copied: bool) {
    exists removed :: Act(p, ContainerReturns(status, removed, copied)) in past
  }

  ghost predicate RuncRefused(past: seq<Event>, p: Pid, status: int) {
    exists left :: Act(p, RunContainer(RunError(status, left))) in past
  }

  /** Where the status of a failed command comes from: a `run` passes on what runc returned, returns 0
      if its setup failed, and everything else is 1. */
  ghost predicate StatusExplained(past: seq<Event>, p: Pid, q: Proc, f: Result)
    requires f.Failed?
  {
    if q.cmd != Run then f.code == 1 && !f.copying
    else if f.at == Attached then
      if f.copying then f.code == 0 && RuncReturned(past, p, 0, false)
      else f.code != 0 && (RuncReturned(past, p, f.code, true) || RuncReturned(past, p, f.code, false))
    else
      && !f.copying
      && (f.at == AtRun ==> RuncRefused(past, p, f.code))
      && (InSetup(f.at) ==> f.code == 0)
      && (f.at != AtRun && !InSetup(f.at) ==> f.code == 1)
  }

  /** What a `run` comes to once its runc returned. */
  predicate ReturnsWith(q: Proc, status: int, copied: bool) {
    && q.cmd == Run
    && if status == 0 && copied then
         || (q.pc == AtPost && q.res == Succeeded)
         || (q.pc in {Exiting, Exited} && Returned(q.res) in {Succeeded, Failed(1, AtPost, false)})
       else
         q.pc in {Exiting, Exited} && Returned(q.res) == Failed(status, Attached, status == 0)
  }

  ghost predicate ProcExplained(past: seq<Event>, p: Pid, q: Proc) {
    && SpawnedAs(past, p, q)
    && (q.res.Killed? ==> q.pc == Exited && !q.res.before.Killed?)
    && (q.pc == Attached ==> q.cmd == Run)
    && (q.pc !in {AtPost, Exiting, Exited} ==> q.res == Pending)
    && (Returned(q.res).Failed? ==> StatusExplained(past, p, q, Returned(q.res)))
  }

  ghost predicate ReturnsExplained(past: seq<Event>, s: State) {
    forall p, status, removed, copied :: Act(p, ContainerReturns(status, removed, copied)) in past ==>
      p in s.procs && ReturnsWith(s.procs[p], status, copied)
  }

  ghost predicate Explained(past: seq<Event>, s: State) {
    (forall p :: p in s.procs ==> ProcExplained(past, p, s.procs[p])) && ReturnsExplained(past, s)
  }

  lemma StatusStays(past: seq<Event>, e: Event, p: Pid, q: Proc, f: Result)
    requires f.Failed? && StatusExplained(past, p, q, f)
    ensures StatusExplained(past + [e], p, q, f)
  {
    forall x | x in past ensures x in past + [e] {
    }
  }

  lemma SpawnedStays(past: seq<Event>, e: Event, p: Pid, q: Proc, r: Proc)
    requires SpawnedAs(past, p, q) && SameNames(q, r)
    ensures SpawnedAs(past + [e], p, r)
  {
    var digests: seq<Bytes> :|
      && Spawn(p, q.cmd, q.key, digests) in past && |q.vols| == |digests|
      && forall i :: 0 <= i < |digests| ==> q.vols[i] == "vol-" + digests[i] + ".lock";
    assert Spawn(p, r.cmd, r.key, digests) in past + [e];
  }

  lemma ExplainedStays(past: seq<Event>, e: Event, p: Pid, q: Proc)
    requires ProcExplained(past, p, q)
    ensures ProcExplained(past + [e], p, q)
  {
    SpawnedStays(past, e, p, q, q);
    if Returned(q.res).Failed? {
      StatusStays(past, e, p, q, Returned(q.res));
    }
  }

  /** The failure a call brings is explained by that very call. */
  lemma FailureExplained(past: seq<Event>, s: State, p: Pid, a: Action)
    requires CanAct(s, p, a) && s.procs[p].res == Pending && !a.Stat? && !a.Poll? && !a.Kill?
    requires s.procs[p].pc == Attached ==> s.procs[p].cmd == Run
    ensures var r := Advance(s.procs[p], a);
            r.res.Failed? ==> StatusExplained(past + [Act(p, a)], p, r, r.res)
  {
    assert Act(p, a) in past + [Act(p, a)];
    if a.ContainerReturns? {
      assert Act(p, ContainerReturns(a.status, a.removed, a.copied)) in past + [Act(p, a)];
    } else if a.RunContainer? && a.run.RunError? {
      assert Act(p, RunContainer(RunError(a.run.code, a.run.left))) in past + [Act(p, a)];
    }
  }

  /** Calls after the result is known leave it, but for a lock that cannot be released. */
  lemma ResultStays(s: State, p: Pid, a: Action)
    requires CanAct(s, p, a) && s.procs[p].pc in {AtPost, Exiting, Panicked} && !s.procs[p].res.Killed?
    ensures var q, r := s.procs[p], Next(s, p, a);
            && r.pc in {Exiting, Exited}
            && (Returned(r.res) == Returned(q.res) || (q.pc == AtPost && r.res == Failed(1, AtPost, false)))
  {
  }

  /** Which calls leave the process without a result. */
  lemma StillPending(s: State, p: Pid, a: Action)
    requires CanAct(s, p, a) && s.procs[p].res == Pending && !a.Kill?
    requires s.procs[p].pc == Attached ==> s.procs[p].cmd == Run
    ensures var r := Next(s, p, a);
            && !r.res.Killed? && (r.pc == Attached ==> r.cmd == Run)
            && (r.pc !in {AtPost, Exiting, Exited} ==> r.res == Pending)
            && (a.Stat? && r.res.Failed? ==> r.cmd == Stop && r.res.code == 1 && !r.res.copying)
            && (a.Poll? ==> r.res == Pending)
  {
    if !a.Stat? && !a.Poll? {
      AdvancePending(s.procs[p], a);
    }
  }

  lemma AdvancePending(q: Proc, a: Action)
    requires q.res == Pending && !a.Stat? && !a.Poll? && !a.Kill?
    requires q.pc == Attached ==> q.cmd == Run
    requires a.Unlock? ==> q.pc == AtPost
    requires a.Exit? ==> q.pc == Exiting || q.pc == Panicked
    ensures var r := Advance(q, a);
            && !r.res.Killed? && (r.pc == Attached ==> r.cmd == Run)
            && (r.pc !in {AtPost, Exiting, Exited} ==> r.res == Pending)
  {
  }

  lemma OwnStepExplained(past: seq<Event>, s: State, p: Pid, a: Action)
    requires CanAct(s, p, a) && ProcExplained(past, p, s.procs[p])
    ensures ProcExplained(past + [Act(p, a)], p, Next(s, p, a))
  {
    var q, r := s.procs[p], Next(s, p, a);
    ActProcsLocal(s, p, a);
    SpawnedStays(past, Act(p, a), p, q, r);
    if Returned(q.res).Failed? {
      StatusStays(past, Act(p, a), p, q, Returned(q.res));
    }
    if q.res == Pending && !a.Kill? {
      StillPending(s, p, a);
      if !a.Stat? && !a.Poll? {
        FailureExplained(past, s, p, a);
      }
    } else if !a.Kill? {
      ResultStays(s, p, a);
    }
  }

  lemma OwnReturns(s: State, p: Pid, a: Action, status: int, copied: bool)
    requires CanAct(s, p, a) && ReturnsWith(s.procs[p], status, copied)
    requires s.procs[p].res.Killed? ==> s.procs[p].pc == Exited
    ensures ReturnsWith(Next(s, p, a), status, copied)
  {
    ResultStays(s, p, a);
  }

  lemma NewReturn(s: State, p: Pid, a: Action)
    requires CanAct(s, p, a) && a.ContainerReturns? && s.procs[p].cmd == Run
    ensures ReturnsWith(Next(s, p, a), a.status, a.copied)
  {
  }

  lemma ActExplained(past: seq<Event>, s: State, p: Pid, a: Action)
    requires CanAct(s, p, a) && Explained(past, s)
    ensures Explained(past + [Act(p, a)], Do(s, p, a))
  {
    var more, t := past + [Act(p, a)], Do(s, p, a);
    ActProcsLocal(s, p, a);
    forall r | r in t.procs ensures ProcExplained(more, r, t.procs[r]) {
      if r == p {
        OwnStepExplained(past, s, p, a);
      } else {
        ExplainedStays(past, Act(p, a), r, s.procs[r]);
      }
    }
    forall r, status, removed, copied | Act(r, ContainerReturns(status, removed, copied)) in more
      ensures r in t.procs && ReturnsWith(t.procs[r], status, copied)
    {
      ActReturns(past, s, p, a, r, status, removed, copied);
    }
  }

  lemma ActReturns(past: seq<Event>, s: State, p: Pid, a: Action, r: Pid, status: int, removed: bool, copied: bool)
    requires CanAct(s, p, a) && Explained(past, s)
    requires Act(r, ContainerReturns(status, removed, copied)) in past + [Act(p, a)]
    ensures r in Do(s, p, a).procs && ReturnsWith(Do(s, p, a).procs[r], status, copied)
  {
    assert ProcExplained(past, p, s.procs[p]);
    ActProcsLocal(s, p, a);
    if Act(r, ContainerReturns(status, removed, copied)) in past {
      assert r in s.procs && ReturnsWith(s.procs[r], status, copied);
      if r == p {
        OwnReturns(s, p, a, status, copied);
      }
    } else {
      assert r == p && a == ContainerReturns(status, removed, copied);
      NewReturn(s, p, a);
    }
  }

  lemma SpawnExplained(past: seq<Event>, p: Pid, cmd: Command, key: Key, digests: seq<Bytes>)
    ensures ProcExplained(past + [Spawn(p, cmd, key, digests)], p, NewProc(cmd, key, digests))
  {
    var q := NewProc(cmd, key, digests);
    assert Spawn(p, q.cmd, q.key, digests) in past + [Spawn(p, cmd, key, digests)];
  }

  lemma OutsideExplained(past: seq<Event>, s: State, e: Event, p: Pid)
    requires Enabled(s, e) && !e.Act? && Explained(past, s) && p in Apply(s, e).procs
    ensures ProcExplained(past + [e], p, Apply(s, e).procs[p])
  {
    if p in s.procs {
      ExplainedStays(past, e, p, s.procs[p]);
    } else {
      SpawnExplained(past, p, e.cmd, e.key, e.digests);
    }
  }

  lemma OutsideReturns(past: seq<Event>, s: State, e: Event)
    requires Enabled(s, e) && !e.Act? && ReturnsExplained(past, s)
    ensures ReturnsExplained(past + [e], Apply(s, e))
  {
    forall p, status, removed, copied | Act(p, ContainerReturns(status, removed, copied)) in past + [e]
      ensures p in Apply(s, e).procs && ReturnsWith(Apply(s, e).procs[p], status, copied)
    {
      assert Act(p, ContainerReturns(status, removed, copied)) in past;
    }
  }

  lemma EventExplained(past: seq<Event>, s: State, e: Event)
    requires Enabled(s, e) && Explained(past, s)
    ensures Explained(past + [e], Apply(s, e))
  {
    if e.Act? {
      ActExplained(past, s, e.p, e.a);
    } else {
      OutsideReturns(past, s, e);
      forall p | p in Apply(s, e).procs ensures ProcExplained(past + [e], p, Apply(s, e).procs[p]) {
        OutsideExplained(past, s, e, p);
      }
    }
  }

  lemma {:induction false} RunExplained(past: seq<Event>, s: State, es: seq<Event>)
    requires Valid(s, es) && Explained(past, s)
    ensures Explained(past + es, After(s, es))
    decreases es
  {
    if es == [] {
      assert past + es == past;
    } else {
      EventExplained(past, s, es[0]);
      RunExplained(past + [es[0]], Apply(s, es[0]), es[1..]);
      assert past + [es[0]] + es[1..] == past + es;
    }
  }

  /** Over whole runs: a failed `start` or `stop` has status 1; a `run` that failed while attached or when
      runc was started has the status runc returned in that very run, 0 if it was copying the output
      that failed; a `run` whose setup failed has 0; and any other failure has 1. */
  lemma ExitStatus(s0: State, es: seq<Event>, p: Pid)
    requires Initial(s0) && Valid(s0, es) && p in After(s0, es).procs
    requires Returned(After(s0, es).procs[p].res).Failed?
    ensures StatusExplained(es, p, After(s0, es).procs[p], Returned(After(s0, es).procs[p].res))
  {
    RunExplained([], s0, es);
    assert [] + es == es;
    assert ProcExplained(es, p, After(s0, es).procs[p]);
  }

  /** And conversely: once runc returned a status, the `run` fails with that status, unless it is 0 and
      the output was copied: then it succeeds, or fails with 1 because its lock cannot be released. */
  lemma RuncStatusIsPassedOn(s0: State, es: seq<Event>, p: Pid, status: int, removed: bool, copied: bool)
    requires Initial(s0) && Valid(s0, es) && Act(p, ContainerReturns(status, removed, copied)) in es
    ensures p in After(s0, es).procs
    ensures var res := Returned(After(s0, es).procs[p].res);
            if status != 0 then res == Failed(status, Attached, false)
            else if !copied then res == Failed(0, Attached, true)
            else res in {Succeeded, Failed(1, AtPost, false)}
  {
    RunExplained([], s0, es);
    assert [] + es == es;
    ResultOfReturn(es, After(s0, es), p, status, removed, copied);
  }

  lemma ResultOfReturn(past: seq<Event>, s: State, p: Pid, status: int, removed: bool, copied: bool)
    requires ReturnsExplained(past, s) && Act(p, ContainerReturns(status, removed, copied)) in past
    ensures p in s.procs
    ensures var res := Returned(s.procs[p].res);
            if status != 0 then res == Failed(status, Attached, false)
            else if !copied then res == Failed(0, Attached, true)
            else res in {Succeeded, Failed(1, AtPost, false)}
  {
    assert ReturnsWith(s.procs[p], status, copied);
  }

  /** Every process runs the command it was spawned with and takes the locks of its volumes in order. */
  lemma ProcessIsSpawned(s0: State, es: seq<Event>, p: Pid)
    requires Initial(s0) && Valid(s0, es) && p in After(s0, es).procs
    ensures SpawnedAs(es, p, After(s0, es).procs[p])
  {
    RunExplained([], s0, es);
    assert [] + es == es;
    assert ProcExplained(es, p, After(s0, es).procs[p]);
  }

  // ---------------------------------------------------------------- what the history records

  /** What may be true of a process. */
  datatype Mark =
    | LeftRunc(id: Bytes) | LeftDelete(id: Bytes) | LeftLaunch(id: Bytes) | LeftAttend(id: Bytes)
    | LeftWriter(f: Path)
    | RemovalFailed(k: Key)
    | StatError(id: Bytes)

  predicate KilledAt(q: Proc, pc: Pc) { q.res.Killed? && q.res.at == pc }

  predicate Marked(m: Mark, q: Proc) {
    match m
    case LeftRunc(id) =>
      q.id == id && (KilledAt(q, AtDelete) || KilledAt(q, AtRun) || KilledAt(q, Attached))
    case LeftDelete(id) => q.id == id && KilledAt(q, AtDelete)
    case LeftLaunch(id) => q.id == id && KilledAt(q, AtRun)
    case LeftAttend(id) => q.id == id && (KilledAt(q, Attached) || (KilledAt(q, AtRun) && q.cmd == Run))
    case LeftWriter(f) => q.pidfile == f && KilledAt(q, AtRun) && q.cmd == Start
    case RemovalFailed(k) =>
      && q.key == k
      && (|| (q.res.Killed? && Removing(q.res.at))
          || (Returned(q.res).Failed? && Removing(Returned(q.res).at)))
    case StatError(id) => q.id == id && q.cmd != Stop && q.seen == SawError
  }

  /** What the state records about it. */
  predicate Recorded(m: Mark, s: State) {
    match m
    case LeftRunc(id) => id in s.unattended
    case LeftDelete(id) => LeftOf(s, id).deletes
    case LeftLaunch(id) => LeftOf(s, id).launches
    case LeftAttend(id) => LeftOf(s, id).attends
    case LeftWriter(f) => f in s.writers
    case RemovalFailed(k) => k in s.abandoned
    case StatError(id) => id in s.statErrors
  }

  ghost predicate Some(s: State, m: Mark) { exists p :: p in s.procs && Marked(m, s.procs[p]) }

  ghost predicate RecordsTrue(s: State, m: Mark) { Recorded(m, s) <==> Some(s, m) }

  /** What holds of every process besides: who was killed has ended, who has no result yet goes on, and
      who did not ask knows nothing. */
  predicate Orderly(q: Proc) {
    && (q.res.Killed? ==> q.pc == Exited)
    && (q.pc !in {AtPost, Exiting, Exited} ==> q.res == Pending)
    && (q.pc == AtPost ==> q.res == Succeeded)
    && (q.pc in {AtLock, AtPrepare, AtStat} ==> q.seen == NotAsked)
  }

  /** A step of one process changes whether some process is such only by that process. */
  lemma SomeAct(s: State, t: State, p: Pid, m: Mark)
    requires p in s.procs && ProcsLocal(s, t, p) && (Marked(m, s.procs[p]) ==> Marked(m, t.procs[p]))
    ensures Some(t, m) <==> Some(s, m) || Marked(m, t.procs[p])
  {
    if r :| r in s.procs && Marked(m, s.procs[r]) {
      assert r in t.procs && Marked(m, t.procs[r]);
    }
    if r :| r in t.procs && Marked(m, t.procs[r]) {
      assert r != p ==> r in s.procs && Marked(m, s.procs[r]);
    }
  }

  lemma SomeSpawn(s: State, p: Pid, q: Proc, m: Mark)
    requires p !in s.procs && !Marked(m, q)
    ensures Some(s.(procs := s.procs[p := q]), m) <==> Some(s, m)
  {
    var t := s.(procs := s.procs[p := q]);
    if r :| r in s.procs && Marked(m, s.procs[r]) {
      assert r in t.procs && Marked(m, t.procs[r]);
    }
    if r :| r in t.procs && Marked(m, t.procs[r]) {
      assert r in s.procs && Marked(m, s.procs[r]);
    }
  }

  /** A kill changes nothing of the process but that it ended, and nothing else kills. */
  lemma OnlyKillKills(s: State, p: Pid, a: Action)
    requires CanAct(s, p, a) && !s.procs[p].res.Killed?
    ensures var q, r := s.procs[p], Next(s, p, a);
            if a.Kill? then r == q.(pc := Exited, res := Killed(q.pc, q.res)) else !r.res.Killed?
  {
    if !a.Stat? && !a.Poll? {
      AdvanceKills(s.procs[p], a);
    }
  }

  lemma AdvanceKills(q: Proc, a: Action)
    requires !q.res.Killed? && !a.Stat? && !a.Poll?
    ensures if a.Kill? then Advance(q, a) == q.(pc := Exited, res := Killed(q.pc, q.res))
            else !Advance(q, a).res.Killed?
  {
  }

  lemma OwnStepOrderly(s: State, p: Pid, a: Action)
    requires CanAct(s, p, a) && Orderly(s.procs[p])
    ensures Orderly(Next(s, p, a))
  {
    OnlyKillKills(s, p, a);
    if s.procs[p].res == Pending && !a.Kill? {
      PendingOrderly(s, p, a);
    } else if !a.Kill? {
      ResultStays(s, p, a);
    }
  }

  lemma PendingOrderly(s: State, p: Pid, a: Action)
    requires CanAct(s, p, a) && s.procs[p].res == Pending && !a.Kill?
    requires s.procs[p].pc in {AtLock, AtPrepare, AtStat} ==> s.procs[p].seen == NotAsked
    ensures var r := Next(s, p, a);
            && (r.pc !in {AtPost, Exiting, Exited} ==> r.res == Pending)
            && (r.pc == AtPost ==> r.res == Succeeded)
            && (r.pc in {AtLock, AtPrepare, AtStat} ==> r.seen == NotAsked)
  {
  }

  /** The parts of the state that only record. */
  lemma DoRecords(s: State, p: Pid, a: Action)
    requires CanAct(s, p, a)
    ensures var t, q := Do(s, p, a), s.procs[p];
            && t.unattended == UnattendedAfter(s, q, a) && t.writers == WritersAfter(s, q, a)
            && t.abandoned == (if Breaks(a) && Removing(q.pc) then s.abandoned + {q.key} else s.abandoned)
            && t.statErrors == (if a == Stat(ErrorReply) && q.cmd != Stop then s.statErrors + {q.id} else s.statErrors)
            && t.procs == s.procs[p := Next(s, p, a)]
  {
  }

  predicate LeavesRunc(m: Mark) { !m.RemovalFailed? && !m.StatError? }

  lemma KillLeaves(s: State, t: State, q: Proc, m: Mark)
    requires LeavesRunc(m) && !q.res.Killed? && t.unattended == UnattendedAfter(s, q, Kill)
    requires t.writers == WritersAfter(s, q, Kill)
    ensures Recorded(m, t) <==> Recorded(m, s) || Marked(m, q.(pc := Exited, res := Killed(q.pc, q.res)))
  {
  }

  /** The marks of a killed process. */
  lemma ActKills(s: State, p: Pid, a: Action, m: Mark)
    requires CanAct(s, p, a) && Orderly(s.procs[p]) && LeavesRunc(m)
    ensures !Marked(m, s.procs[p])
    ensures Recorded(m, Do(s, p, a)) <==> Recorded(m, s) || Marked(m, Next(s, p, a))
  {
    DoRecords(s, p, a);
    OnlyKillKills(s, p, a);
    if a.Kill? {
      KillLeaves(s, Do(s, p, a), s.procs[p], m);
    } else {
      NothingLeaves(s, Do(s, p, a), Next(s, p, a), m);
    }
  }

  lemma NothingLeaves(s: State, t: State, q: Proc, m: Mark)
    requires LeavesRunc(m) && !q.res.Killed? && t.unattended == s.unattended && t.writers == s.writers
    ensures (Recorded(m, t) <==> Recorded(m, s)) && !Marked(m, q)
  {
  }

  /** A call that fails leaves its process failed where it was. */
  lemma FailureAt(s: State, p: Pid, a: Action)
    requires CanAct(s, p, a) && s.procs[p].res == Pending && !a.Kill?
    ensures var r := Next(s, p, a); !r.res.Killed? && (r.res.Failed? ==> r.res.at == s.procs[p].pc)
    ensures Removing(s.procs[p].pc) ==> (Next(s, p, a).res.Failed? <==> Breaks(a))
  {
    OnlyKillKills(s, p, a);
  }

  predicate AtRemoval(q: Proc) {
    (q.res.Killed? && Removing(q.res.at)) || (Returned(q.res).Failed? && Removing(Returned(q.res).at))
  }

  lemma ActFailsRemoval(s: State, p: Pid, a: Action)
    requires CanAct(s, p, a) && Orderly(s.procs[p])
    ensures AtRemoval(Next(s, p, a)) <==> AtRemoval(s.procs[p]) || (Breaks(a) && Removing(s.procs[p].pc))
  {
    OnlyKillKills(s, p, a);
    if s.procs[p].res == Pending && !a.Kill? {
      FailureAt(s, p, a);
    } else if !a.Kill? {
      ResultStays(s, p, a);
    }
  }

  lemma ActRemoves(s: State, p: Pid, a: Action, m: Mark)
    requires CanAct(s, p, a) && Orderly(s.procs[p]) && m.RemovalFailed?
    ensures Marked(m, s.procs[p]) ==> Marked(m, Next(s, p, a))
    ensures Marked(m, Next(s, p, a)) ==> Marked(m, s.procs[p]) || Recorded(m, Do(s, p, a))
    ensures Recorded(m, Do(s, p, a)) <==> Recorded(m, s) || (Recorded(m, Do(s, p, a)) && Marked(m, Next(s, p, a)))
  {
    DoRecords(s, p, a);
    ActProcsLocal(s, p, a);
    ActFailsRemoval(s, p, a);
  }

  lemma ActSees(s: State, p: Pid, a: Action, m: Mark)
    requires CanAct(s, p, a) && Orderly(s.procs[p]) && m.StatError?
    ensures Marked(m, s.procs[p]) ==> Marked(m, Next(s, p, a))
    ensures Marked(m, Next(s, p, a)) ==> Marked(m, s.procs[p]) || Recorded(m, Do(s, p, a))
    ensures Recorded(m, Do(s, p, a)) <==> Recorded(m, s) || (Recorded(m, Do(s, p, a)) && Marked(m, Next(s, p, a)))
  {
    DoRecords(s, p, a);
    if !a.Stat? {
      SeenStays(s, p, a);
    }
  }

  lemma SeenStays(s: State, p: Pid, a: Action)
    requires CanAct(s, p, a) && !a.Stat?
    ensures var q, r := s.procs[p], Next(s, p, a); r.seen == q.seen && r.id == q.id && r.cmd == q.cmd
  {
  }

  lemma ActKeepsRecord(s: State, p: Pid, a: Action, m: Mark)
    requires CanAct(s, p, a) && Orderly(s.procs[p]) && RecordsTrue(s, m)
    ensures RecordsTrue(Do(s, p, a), m)
  {
    if m.RemovalFailed? {
      ActRemoves(s, p, a, m);
    } else if m.StatError? {
      ActSees(s, p, a, m);
    } else {
      ActKills(s, p, a, m);
    }
    ActProcsLocal(s, p, a);
    if Marked(m, s.procs[p]) {
      assert Some(s, m);
    }
    SomeAct(s, Do(s, p, a), p, m);
  }

  /** No other event changes what is recorded or what the processes are marked with. */
  lemma OutsideKeepsRecord(s: State, e: Event, m: Mark)
    requires Enabled(s, e) && !e.Act? && RecordsTrue(s, m)
    ensures RecordsTrue(Apply(s, e), m)
  {
    var t := Apply(s, e);
    assert t.unattended == s.unattended && t.writers == s.writers;
    assert t.abandoned == s.abandoned && t.statErrors == s.statErrors;
    if e.Spawn? {
      SomeSpawn(s, e.p, NewProc(e.cmd, e.key, e.digests), m);
    } else {
      assert t.procs == s.procs;
    }
  }

  lemma EventKeepsOrder(s: State, e: Event)
    requires Enabled(s, e) && forall p :: p in s.procs ==> Orderly(s.procs[p])
    ensures forall p :: p in Apply(s, e).procs ==> Orderly(Apply(s, e).procs[p])
  {
    if e.Act? {
      ActProcsLocal(s, e.p, e.a);
      OwnStepOrderly(s, e.p, e.a);
    }
  }

  lemma {:induction false} RunKeepsRecord(s: State, es: seq<Event>, m: Mark)
    requires Valid(s, es) && RecordsTrue(s, m) && forall p :: p in s.procs ==> Orderly(s.procs[p])
    ensures RecordsTrue(After(s, es), m)
    decreases es
  {
    if es != [] {
      if es[0].Act? {
        ActKeepsRecord(s, es[0].p, es[0].a, m);
      } else {
        OutsideKeepsRecord(s, es[0], m);
      }
      EventKeepsOrder(s, es[0]);
      RunKeepsRecord(Apply(s, es[0]), es[1..], m);
    }
  }

  /** In every reachable state the record is true: a runc was left behind exactly if some process of
      that container was killed in the call that waits for it, a removal was abandoned exactly if some
      process failed or was killed in one, and so on for every mark. */
  lemma RecordIsTrue(s: State, m: Mark)
    requires Reachable(s)
    ensures Recorded(m, s) <==> exists p :: p in s.procs && Marked(m, s.procs[p])
  {
    var s0, es :| Initial(s0) && Valid(s0, es) && After(s0, es) == s;
    RunKeepsRecord(s0, es, m);
  }

  /** A volume lock is recorded as stuck exactly if some process could not unlock one in the run. */
  lemma {:induction false} LeakedIff(s: State, es: seq<Event>)
    requires Valid(s, es)
    ensures After(s, es).leaked <==> s.leaked || exists p, ok :: Act(p, Share(ok, false)) in es
    decreases es
  {
    if es != [] {
      LeakedIff(Apply(s, es[0]), es[1..]);
      LeakedStep(s, es[0]);
      if p, ok :| Act(p, Share(ok, false)) in es[1..] {
        assert Act(p, Share(ok, false)) in es;
      }
      if p, ok :| Act(p, Share(ok, false)) in es {
        assert Act(p, Share(ok, false)) == es[0] || Act(p, Share(ok, false)) in es[1..];
      }
    }
  }

  lemma LeakedStep(s: State, e: Event)
    requires Enabled(s, e)
    ensures Apply(s, e).leaked <==> s.leaked || exists p, ok :: e == Act(p, Share(ok, false))
  {
    if e.Act? && e.a.Share? {
      assert e == Act(e.p, Share(e.a.ok, e.a.unlocked));
    }
  }
}
