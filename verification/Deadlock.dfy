/** Waiting for job locks and volume locks. */
module Deadlock {
  import opened JobId
  import opened Names
  import opened Protocol
  import opened Invariants

  /** The process waits in flock for a file that is locked. */
  predicate Blocked(s: State, p: Pid) {
    p in s.procs &&
    var q := s.procs[p];
    || (q.pc == AtLock && q.lock in s.locks)
    || (q.pc == AtVolume && q.vol < |q.vols| && q.vols[q.vol] in s.locks)
  }

  /** The file a process waits for, at the two calls that wait. */
  function Wanted(q: Proc): Bytes {
    if q.pc == AtVolume && q.vol < |q.vols| then q.vols[q.vol] else q.lock
  }

  /** The process can go on by itself: it has a call that returns, or it is a `run` whose container is
      still alive. */
  ghost predicate CanGoOn(s: State, p: Pid) {
    && p in s.procs
    && (|| (exists a :: CanAct(s, p, a) && !a.Kill? && !a.LockFails? && !a.SetupFails?)
        || (&& s.procs[p].pc == Attached
            && s.procs[p].id in s.containers && Alive(s.containers[s.procs[p].id].status)))
  }

  /** A call that moves the process on. */
  function NextCall(q: Proc): Action {
    match q.pc
    case AtLock => Acquire
    case AtPrepare => Prepare(true)
    case AtStat => Stat(ErrorReply)
    case AtConfig => Config(true)
    case AtRemoveState => RemoveState(true)
    case AtDelete => Delete(true, false)
    case AtDestroy => Destroy(true)
    case AtRemovePid => RemovePid(true)
    case AtVolume => if q.vol < |q.vols| then LockVolume else SetupDone
    case AtShare => Share(true, true)
    case AtBundle => Bundle(true, true)
    case AtHook => Hook(true)
    case AtRun => RunContainer(RunError(1, Nothing))
    case Attached => ContainerReturns(0, true, true)
    case AtSignal => Signal(true)
    case AtPoll => Poll(ErrorReply)
    case AtSelect => Tick
    case AtPost => Unlock(true)
    case _ => Exit
  }

  /** A process that did not end goes on, waits for its container, or is blocked. */
  lemma GoesOnUnlessBlocked(s: State, p: Pid)
    requires p in s.procs && Owns(s, p) && s.procs[p].pc != Exited && !Blocked(s, p)
    ensures CanGoOn(s, p)
  {
    assert s.procs[p].pc == Attached || CanAct(s, p, NextCall(s.procs[p]));
    if s.procs[p].pc == Attached && !CanAct(s, p, ContainerReturns(0, true, true)) {
      assert s.procs[p].id in s.containers;
    }
  }

  /** Whoever holds a lock is accounted for. */
  lemma HolderIsKnown(s: State, l: Bytes)
    requires BaseInv(s) && l in s.locks
    ensures s.locks[l] in s.procs && LockAccounted(s, s.procs[s.locks[l]], l)
    ensures Owns(s, s.locks[l]) && Named(s.procs[s.locks[l]])
  {
  }

  lemma VolumeName(q: Proc)
    requires Named(q) && q.vol < |q.vols|
    ensures VOLUME_PREFIX <= q.vols[q.vol]
  {
    assert q.vols[q.vol] in q.vols;
  }

  /** The process that holds a volume lock is using it, and is not blocked. */
  lemma VolumeHolderGoesOn(s: State, l: Bytes)
    requires BaseInv(s) && !s.leaked && l in s.locks && VOLUME_PREFIX <= l
    ensures s.locks[l] in s.procs && s.procs[s.locks[l]].pc == AtShare
    ensures CanGoOn(s, s.locks[l]) && !Blocked(s, s.locks[l])
  {
    HolderIsKnown(s, l);
    assert JobLockFile(s.procs[s.locks[l]].key)[0] == 'j';
    GoesOnUnlessBlocked(s, s.locks[l]);
  }

  /** The process that holds what another one waits for. */
  function HolderOf(s: State, p: Pid): Pid
    requires p in s.procs && Wanted(s.procs[p]) in s.locks
  {
    s.locks[Wanted(s.procs[p])]
  }

  /** Whenever a process waits for a lock, the holder of that lock can go on, or waits for a volume
      whose holder can: waiting chains end after at most two locks, even when volume digests collide,
      as long as every volume lock could be unlocked. */
  lemma NoDeadlock(s: State, p: Pid)
    requires Reachable(s) && !s.leaked && Blocked(s, p)
    ensures var r := HolderOf(s, p);
            && r != p && r in s.procs
            && (|| (!Blocked(s, r) && CanGoOn(s, r))
                || (&& s.procs[p].pc == AtLock && s.procs[r].pc == AtVolume && Blocked(s, r)
                    && var h := HolderOf(s, r);
                       h != p && h != r && h in s.procs && !Blocked(s, h) && CanGoOn(s, h)))
  {
    ReachableBaseInv(s);
    var q := s.procs[p];
    assert Named(q);
    if q.pc == AtVolume {
      VolumeName(q);
      VolumeHolderGoesOn(s, Wanted(q));
    } else {
      var r := HolderOf(s, p);
      HolderIsKnown(s, q.lock);
      if Blocked(s, r) {
        VolumeName(s.procs[r]);
        VolumeHolderGoesOn(s, Wanted(s.procs[r]));
      } else {
        GoesOnUnlessBlocked(s, r);
      }
    }
  }
}
