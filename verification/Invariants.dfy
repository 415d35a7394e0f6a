/** What every step of the protocol keeps. */
module Invariants {
  import opened JobId
  import opened Names
  import opened Files
  import opened Protocol

  /** Processes that share a container share a lock. */
  ghost predicate Compatible(s: State) {
    forall p, q :: p in s.procs && q in s.procs && s.procs[p].id == s.procs[q].id
                   ==> s.procs[p].lock == s.procs[q].lock
  }

  /** Processes whose files coincide or nest share a lock. */
  ghost predicate FilesCompatible(s: State) {
    forall p, q :: p in s.procs && q in s.procs && !FilesApart(s.procs[p], s.procs[q])
                   ==> s.procs[p].lock == s.procs[q].lock
  }

  predicate FilesApart(q: Proc, r: Proc) { Apart(q.bundle, r.bundle) && Apart(q.pidfile, r.pidfile) }

  /** Every process uses the names its job and process give it. */
  ghost predicate Named(q: Proc) {
    && q.id == ContainerId(q.key) && q.lock == JobLockFile(q.key)
    && q.bundle == BundleOf(q.key) && q.pidfile == PidOf(q.key)
    && forall v :: v in q.vols ==> VOLUME_PREFIX <= v
  }

  /** What the environment can make of a status: nothing, or the process has exited. */
  predicate Evolved(from: Status, to: Status) { from == to || to == Stopped }

  /** The container is the one whose status was `st` when it was asked for. It can only be missing
      when a runc was left behind, and only be another one when that was a `runc run`. */
  predicate StillThere(s: State, id: Bytes, st: Status) {
    && (id in s.containers && !MayAppear(s, id) ==> Evolved(st, s.containers[id].status))
    && (id !in s.unattended ==> id in s.containers)
  }

  /** There is no container, unless a `runc run` was left behind. */
  predicate Gone(s: State, id: Bytes) { !MayAppear(s, id) ==> id !in s.containers }

  /** There is no pidfile, unless a detached `runc run` was left behind. */
  predicate Unwritten(s: State, q: Proc) { q.pidfile !in s.writers ==> q.pidfile !in s.pidfiles }

  /** Bundle and pidfile are gone; only a `runc run` left behind can have written a pidfile since. */
  predicate FilesGone(s: State, q: Proc) { q.bundle !in s.bundles && Unwritten(s, q) }

  /** Nothing of the process is left. */
  predicate NothingLeft(s: State, q: Proc) {
    q.id !in s.containers && q.bundle !in s.bundles && q.pidfile !in s.pidfiles
  }

  /** The process removed what it found: its answer was "failed" or an error. */
  predicate Removed(seen: Seen) {
    seen == SawError || (seen.Saw? && ReportedFailed(seen.status))
  }

  /** In a start or run past its stat and removal: the container is gone, or it was seen creating
      or created. */
  predicate ReadyToRun(s: State, q: Proc) {
    && q.cmd != Stop
    && (if q.seen.Saw? && !ReportedFailed(q.seen.status)
        then q.seen.status != Running && StillThere(s, q.id, q.seen.status)
        else (q.seen == SawNone || Removed(q.seen)) && Gone(s, q.id))
  }

  /** What a process between acquire and release knows about its container. */
  predicate Knows(s: State, q: Proc) {
    match q.pc
    case AtPrepare => q.res == Pending
    case AtStat => q.res == Pending
    case AtConfig => q.cmd == Stop && q.seen.Saw? && StillThere(s, q.id, q.seen.status)
    case AtSignal => q.cmd == Stop && q.seen.Saw? && StillThere(s, q.id, q.seen.status)
    case AtPoll => q.cmd == Stop && q.seen.Saw? && StillThere(s, q.id, q.seen.status)
    case AtSelect => q.cmd == Stop && q.seen.Saw? && StillThere(s, q.id, q.seen.status)
    case AtRemoveState => q.cmd != Stop && q.seen == SawError && q.id in s.statErrors
    case AtDelete =>
      if q.cmd == Stop then q.seen.Saw? && StillThere(s, q.id, q.seen.status)
      else
        && Removed(q.seen)
        && (q.seen.Saw? ==> StillThere(s, q.id, q.seen.status))
        && (q.seen == SawError ==> Gone(s, q.id) && q.id in s.statErrors)
    case AtDestroy => Gone(s, q.id) && (if q.cmd == Stop then q.seen.Saw? else Removed(q.seen))
    case AtRemovePid => Gone(s, q.id) && (if q.cmd == Stop then q.seen.Saw? else Removed(q.seen))
    case AtVolume => ReadyToRun(s, q)
    case AtShare => ReadyToRun(s, q)
    case AtBundle => ReadyToRun(s, q)
    case AtHook => ReadyToRun(s, q)
    case AtRun => ReadyToRun(s, q)
    case Attached => q.cmd == Run && StillThere(s, q.id, Running)
    case AtPost =>
      && q.res == Succeeded
      && (q.cmd == Stop ==> Gone(s, q.id))
      && (q.cmd == Start ==> StillThere(s, q.id, Running))
    case _ => true
  }

  /** What it knows about its files. */
  predicate KnowsFiles(s: State, q: Proc) {
    match q.pc
    case AtRemovePid => q.bundle !in s.bundles
    case AtVolume => Removed(q.seen) ==> FilesGone(s, q)
    case AtShare => Removed(q.seen) ==> FilesGone(s, q)
    case AtBundle => Removed(q.seen) ==> FilesGone(s, q)
    case AtHook => q.bundle in s.bundles && (Removed(q.seen) ==> Unwritten(s, q))
    case AtRun => q.bundle in s.bundles && (Removed(q.seen) ==> Unwritten(s, q))
    case Attached => q.bundle in s.bundles && (Removed(q.seen) ==> Unwritten(s, q))
    case AtPost =>
      && (q.cmd == Stop && q.seen.Saw? ==> FilesGone(s, q))
      && (q.cmd != Stop && q.seen != Saw(Running) ==> q.bundle in s.bundles)
      && (q.cmd == Start && q.seen != Saw(Running) ==> q.pidfile in s.pidfiles)
      && (q.cmd == Run && Removed(q.seen) ==> Unwritten(s, q))
    case _ => true
  }

  /** The locks a process relies on are its own. */
  predicate Owns(s: State, p: Pid)
    requires p in s.procs
  {
    var q := s.procs[p];
    && (Holding(q.pc) ==> q.lock in s.locks && s.locks[q.lock] == p)
    && q.vol <= |q.vols| && q.lock !in q.vols
    && (q.pc == AtShare ==> q.vol < |q.vols| && q.vols[q.vol] in s.locks && s.locks[q.vols[q.vol]] == p)
  }

  /** An exit status of 0 after an error only comes from a `run` whose setup failed, or whose runc
      exited with 0 and whose output could not be copied. */
  predicate HonestExit(q: Proc) {
    && (q.pc == AtLock ==> q.res == Pending)
    && (q.pc == Attached ==> q.cmd == Run)
    && (q.res.Failed? ==> (q.res.code == 0 <==> q.res.copying || (q.cmd == Run && InSetup(q.res.at))))
    && (q.res.Failed? && q.res.copying ==> q.cmd == Run && q.res.at == Attached)
  }

  /** A nil state was only dereferenced where a runc was left behind, and a running container was
      left alone. */
  predicate EndsWell(s: State, q: Proc) {
    && (q.pc == Panicked ==> q.id in s.unattended)
    && (q.cmd != Stop && q.seen == Saw(Running) ==> q.pc in {AtPost, Exiting, Exited})
  }

  predicate ProcInv(s: State, p: Pid)
    requires p in s.procs
  {
    var q := s.procs[p];
    && Owns(s, p)
    && (Holding(q.pc) ==> Knows(s, q))
    && EndsWell(s, q)
  }

  /** PostRunE released the job lock and returned nil. */
  predicate Released(q: Proc) { q.pc == Exiting && q.res == Succeeded }

  /** A lock is held by a process that took it and did not end. Unless an unlock of a volume failed,
      a process holds its job lock, until it releases it, and at most the volume lock it is using. */
  predicate LockAccounted(s: State, q: Proc, l: Bytes) {
    && q.pc != AtLock && q.pc != Exited
    && (!s.leaked ==>
          || (l == q.lock && !Released(q))
          || (q.pc == AtShare && q.vol < |q.vols| && l == q.vols[q.vol]))
  }

  ghost predicate LockInv(s: State) {
    forall l :: l in s.locks ==>
      s.locks[l] in s.procs && LockAccounted(s, s.procs[s.locks[l]], l)
  }

  /** What holds in every reachable state, whatever the names are. */
  ghost predicate BaseInv(s: State) {
    && (forall p :: p in s.procs ==> Owns(s, p) && Named(s.procs[p]) && HonestExit(s.procs[p]))
    && LockInv(s)
  }

  /** What holds in every reachable state when, besides, processes whose files meet share a lock. */
  ghost predicate FileInv(s: State) {
    forall p :: p in s.procs && Holding(s.procs[p].pc) ==> KnowsFiles(s, s.procs[p])
  }

  /** What holds in every reachable state when processes that share a container share a lock. */
  ghost predicate Inv(s: State) {
    && BaseInv(s)
    && (forall p :: p in s.procs ==> ProcInv(s, p))
    && s.orphans <= s.statErrors
  }

  // ---------------------------------------------------------------- what a step leaves alone

  /** The step changes no other process, and of its own only where it is and what it learned. */
  ghost predicate ProcsLocal(s: State, t: State, p: Pid)
    requires p in s.procs
  {
    && p in t.procs && t.procs == s.procs[p := t.procs[p]]
    && SameNames(s.procs[p], t.procs[p])
  }

  /** It changes no other container, and none at all unless its process holds its job lock. */
  ghost predicate ContainersLocal(s: State, t: State, q: Proc) {
    forall i :: i != q.id || !Holding(q.pc) ==>
      && (i in t.containers <==> i in s.containers)
      && (i in s.containers ==> t.containers[i] == s.containers[i])
      && (i in t.unattended <==> i in s.unattended) && LeftOf(t, i) == LeftOf(s, i)
      && (i in t.orphans <==> i in s.orphans)
  }

  /** It changes no file outside its own bundle and pidfile, and none without the job lock. */
  ghost predicate FilesLocal(s: State, t: State, q: Proc) {
    && (forall f :: !(q.bundle <= f) || !Holding(q.pc) ==> (f in t.bundles <==> f in s.bundles))
    && (forall f :: !(q.pidfile <= f) || !Holding(q.pc) ==>
          (f in t.pidfiles <==> f in s.pidfiles) && (f in t.writers <==> f in s.writers))
  }

  ghost predicate HistoryGrows(s: State, t: State) {
    && (forall i :: i in s.unattended ==> i in t.unattended)
    && (forall i :: i in s.statErrors ==> i in t.statErrors)
    && (forall k :: k in s.abandoned ==> k in t.abandoned)
    && (s.leaked ==> t.leaked)
  }

  /** It takes free locks, gives up its own, and leaves the locks of others alone. */
  ghost predicate LocksLocal(s: State, t: State, p: Pid) {
    && (forall l :: l in s.locks && s.locks[l] != p ==> l in t.locks && t.locks[l] == s.locks[l])
    && (forall l :: l in t.locks && t.locks[l] != p ==> l in s.locks && s.locks[l] == t.locks[l])
  }

  ghost predicate Local(s: State, t: State, p: Pid)
    requires p in s.procs
  {
    && ProcsLocal(s, t, p) && ContainersLocal(s, t, s.procs[p]) && FilesLocal(s, t, s.procs[p])
    && LocksLocal(s, t, p) && HistoryGrows(s, t)
  }

  predicate SameNames(q: Proc, r: Proc) {
    && r.cmd == q.cmd && r.key == q.key && r.id == q.id && r.lock == q.lock && r.vols == q.vols
    && r.bundle == q.bundle && r.pidfile == q.pidfile
  }

  lemma AdvanceKeepsNames(q: Proc, a: Action)
    requires !a.Stat? && !a.Poll?
    ensures SameNames(q, Advance(q, a))
  {
  }

  lemma AnsweredKeepsNames(q: Proc, seen: Seen)
    ensures SameNames(q, Answered(q, seen))
  {
  }

  lemma ActProcsLocal(s: State, p: Pid, a: Action)
    requires CanAct(s, p, a)
    ensures ProcsLocal(s, Do(s, p, a), p)
  {
    if a.Stat? {
      AnsweredKeepsNames(s.procs[p], Learned(s, s.procs[p], a.reply));
    } else if !a.Poll? {
      AdvanceKeepsNames(s.procs[p], a);
    }
  }

  lemma OneContainer(s: State, p: Pid, a: Action, i: Bytes)
    requires CanAct(s, p, a) && (i != s.procs[p].id || !Holding(s.procs[p].pc))
    ensures var t := ContainersAfter(s, s.procs[p], a);
            (i in t <==> i in s.containers) && (i in t ==> t[i] == s.containers[i])
  {
  }

  lemma ActContainersLocal(s: State, p: Pid, a: Action)
    requires CanAct(s, p, a)
    ensures ContainersLocal(s, Do(s, p, a), s.procs[p])
  {
    forall i | i != s.procs[p].id || !Holding(s.procs[p].pc)
      ensures var t := ContainersAfter(s, s.procs[p], a);
              (i in t <==> i in s.containers) && (i in t ==> t[i] == s.containers[i])
    {
      OneContainer(s, p, a, i);
    }
  }

  lemma ActFilesLocal(s: State, p: Pid, a: Action)
    requires CanAct(s, p, a)
    ensures FilesLocal(s, Do(s, p, a), s.procs[p])
  {
  }

  lemma ActLocksLocal(s: State, p: Pid, a: Action)
    requires CanAct(s, p, a) && Owns(s, p)
    ensures LocksLocal(s, Do(s, p, a), p)
  {
  }

  lemma ActIsLocal(s: State, p: Pid, a: Action)
    requires CanAct(s, p, a) && Owns(s, p)
    ensures Local(s, Do(s, p, a), p)
  {
    ActProcsLocal(s, p, a);
    ActContainersLocal(s, p, a);
    ActFilesLocal(s, p, a);
    ActLocksLocal(s, p, a);
  }

  // ---------------------------------------------------------------- locks, whatever the names are

  predicate RemovalAction(a: Action) { a.RemoveState? || a.Delete? || a.Destroy? || a.RemovePid? }

  predicate StartAction(a: Action) {
    a.LockVolume? || a.Share? || a.SetupFails? || a.SetupDone? || a.Bundle? || a.Hook? || a.RunContainer?
  }

  /** The calls that change the lock table. */
  predicate TouchesLocks(a: Action) { a.Acquire? || a.LockVolume? || a.Share? || a.Unlock? || a.Exit? || a.Kill? }

  /** A step of a process that neither takes nor needs more locks. */
  predicate NeedsNoLocks(q: Proc, r: Proc) {
    && r.vol == q.vol && r.vols == q.vols && r.lock == q.lock && r.pc !in {AtShare, AtLock, Exited}
    && q.pc !in {AtShare, Exited} && !Released(r) && (q.pc == AtLock ==> r.pc == Exiting)
    && (Holding(r.pc) ==> Holding(q.pc))
  }

  lemma StartNeedsNoLocks(s: State, p: Pid, a: Action)
    requires CanAct(s, p, a) && !TouchesLocks(a) && StartAction(a)
    ensures NeedsNoLocks(s.procs[p], Advance(s.procs[p], a))
  {
  }

  lemma AdvanceNeedsNoLocks(s: State, p: Pid, a: Action)
    requires CanAct(s, p, a) && !TouchesLocks(a) && !StartAction(a) && !a.Stat? && !a.Poll?
    ensures NeedsNoLocks(s.procs[p], Advance(s.procs[p], a))
  {
  }

  lemma AnsweredNeedsNoLocks(q: Proc, seen: Seen)
    requires q.pc == AtStat && seen != NotAsked
    ensures NeedsNoLocks(q, Answered(q, seen))
  {
  }

  lemma NextNeedsNoLocks(s: State, p: Pid, a: Action)
    requires CanAct(s, p, a) && !TouchesLocks(a)
    ensures NeedsNoLocks(s.procs[p], Next(s, p, a))
  {
    if a.Stat? {
      AnsweredNeedsNoLocks(s.procs[p], Learned(s, s.procs[p], a.reply));
    } else if StartAction(a) {
      StartNeedsNoLocks(s, p, a);
    } else if !a.Poll? {
      AdvanceNeedsNoLocks(s, p, a);
    }
  }

  /** Any other call leaves the locks, and does not move its process to where it needs more. */
  lemma LocksUntouched(s: State, p: Pid, a: Action)
    requires CanAct(s, p, a) && !TouchesLocks(a)
    ensures LocksAfter(s, p, a) == s.locks && Do(s, p, a).leaked == s.leaked
    ensures NeedsNoLocks(s.procs[p], Next(s, p, a))
  {
    NextNeedsNoLocks(s, p, a);
  }

  lemma OwnStepOwns(s: State, p: Pid, a: Action)
    requires CanAct(s, p, a) && Owns(s, p)
    ensures Owns(Do(s, p, a), p)
  {
    if !TouchesLocks(a) {
      LocksUntouched(s, p, a);
    } else {
      TouchedOwns(s, p, a);
    }
  }

  lemma TouchedOwns(s: State, p: Pid, a: Action)
    requires CanAct(s, p, a) && Owns(s, p) && TouchesLocks(a)
    ensures Owns(Do(s, p, a), p)
  {
  }

  lemma OwnStepHonest(s: State, p: Pid, a: Action)
    requires CanAct(s, p, a) && HonestExit(s.procs[p])
    ensures HonestExit(Next(s, p, a))
  {
    if RemovalAction(a) {
      RemovalHonest(s, p, a);
    } else if StartAction(a) {
      StartHonest(s, p, a);
    } else if !a.Stat? && !a.Poll? {
      OtherHonest(s, p, a);
    }
  }

  lemma RemovalHonest(s: State, p: Pid, a: Action)
    requires CanAct(s, p, a) && HonestExit(s.procs[p]) && RemovalAction(a)
    ensures HonestExit(Advance(s.procs[p], a))
  {
  }

  lemma StartHonest(s: State, p: Pid, a: Action)
    requires CanAct(s, p, a) && HonestExit(s.procs[p]) && StartAction(a)
    ensures HonestExit(Advance(s.procs[p], a))
  {
  }

  lemma OtherHonest(s: State, p: Pid, a: Action)
    requires CanAct(s, p, a) && HonestExit(s.procs[p])
    requires !RemovalAction(a) && !StartAction(a) && !a.Stat? && !a.Poll?
    ensures HonestExit(Advance(s.procs[p], a))
  {
  }

  /** The locks a process holds after its own step are its own to hold. */
  lemma OwnLocks(s: State, p: Pid, a: Action, l: Bytes)
    requires CanAct(s, p, a) && LockInv(s) && s.procs[p].vol <= |s.procs[p].vols|
    requires l in LocksAfter(s, p, a) && LocksAfter(s, p, a)[l] == p
    ensures LockAccounted(Do(s, p, a), Next(s, p, a), l)
  {
    if !TouchesLocks(a) {
      LocksUntouched(s, p, a);
      assert LockAccounted(s, s.procs[p], l);
    } else {
      OwnLocksTouched(s, p, a, l);
    }
  }

  lemma OwnLocksTouched(s: State, p: Pid, a: Action, l: Bytes)
    requires CanAct(s, p, a) && TouchesLocks(a) && s.procs[p].vol <= |s.procs[p].vols|
    requires l in s.locks && s.locks[l] == p ==> LockAccounted(s, s.procs[p], l)
    requires l in LocksAfter(s, p, a) && LocksAfter(s, p, a)[l] == p
    ensures LockAccounted(Do(s, p, a), Next(s, p, a), l)
  {
  }

  lemma OthersLocks(s: State, t: State, p: Pid, l: Bytes)
    requires p in s.procs && LockInv(s) && ProcsLocal(s, t, p) && LocksLocal(s, t, p) && (s.leaked ==> t.leaked)
    requires l in t.locks && t.locks[l] != p
    ensures t.locks[l] in t.procs && LockAccounted(t, t.procs[t.locks[l]], l)
  {
    assert t.locks[l] == s.locks[l] && LockAccounted(s, s.procs[s.locks[l]], l);
  }

  lemma LockAccountedAfter(s: State, p: Pid, a: Action, l: Bytes)
    requires CanAct(s, p, a) && Owns(s, p) && LockInv(s) && l in LocksAfter(s, p, a)
    ensures var t := Do(s, p, a); t.locks[l] in t.procs && LockAccounted(t, t.procs[t.locks[l]], l)
  {
    if LocksAfter(s, p, a)[l] == p {
      OwnLocks(s, p, a, l);
    } else {
      ActProcsLocal(s, p, a);
      ActLocksLocal(s, p, a);
      OthersLocks(s, Do(s, p, a), p, l);
    }
  }

  lemma ActKeepsLockInv(s: State, p: Pid, a: Action)
    requires CanAct(s, p, a) && Owns(s, p) && LockInv(s)
    ensures LockInv(Do(s, p, a))
  {
    forall l | l in LocksAfter(s, p, a)
      ensures var t := Do(s, p, a); t.locks[l] in t.procs && LockAccounted(t, t.procs[t.locks[l]], l)
    {
      LockAccountedAfter(s, p, a, l);
    }
  }

  lemma ActKeepsProc(s: State, p: Pid, a: Action, r: Pid)
    requires CanAct(s, p, a) && r in s.procs && Owns(s, p) && HonestExit(s.procs[p])
    requires Owns(s, r) && Named(s.procs[r]) && HonestExit(s.procs[r])
    ensures var t := Do(s, p, a); r in t.procs && Owns(t, r) && Named(t.procs[r]) && HonestExit(t.procs[r])
  {
    ActProcsLocal(s, p, a);
    if r == p {
      OwnStepOwns(s, p, a);
      OwnStepHonest(s, p, a);
    } else {
      ActLocksLocal(s, p, a);
    }
  }

  lemma ActKeepsBaseInv(s: State, p: Pid, a: Action)
    requires CanAct(s, p, a) && BaseInv(s)
    ensures BaseInv(Do(s, p, a))
  {
    ActKeepsLockInv(s, p, a);
    forall r | r in s.procs
      ensures var t := Do(s, p, a); r in t.procs && Owns(t, r) && Named(t.procs[r]) && HonestExit(t.procs[r])
    {
      ActKeepsProc(s, p, a, r);
    }
  }

  // ---------------------------------------------------------------- what the processes know

  /** Two processes never hold the same job lock, so a container in use has one user. */
  lemma OneUser(s: State, p: Pid, r: Pid)
    requires BaseInv(s) && Compatible(s) && p in s.procs && r in s.procs && p != r
    requires Holding(s.procs[p].pc) && Holding(s.procs[r].pc)
    ensures s.procs[p].id != s.procs[r].id
  {
  }

  /** Nor do they use the same files, or files inside each other's. */
  lemma OneFileUser(s: State, p: Pid, r: Pid)
    requires BaseInv(s) && FilesCompatible(s) && p in s.procs && r in s.procs && p != r
    requires Holding(s.procs[p].pc) && Holding(s.procs[r].pc)
    ensures FilesApart(s.procs[p], s.procs[r])
  {
  }

  /** What others and the environment may make of a process's container, and of its files. */
  predicate Undisturbed(s: State, t: State, q: Proc) {
    && (Gone(s, q.id) ==> Gone(t, q.id))
    && (q.id in s.containers && q.id in t.containers && !MayAppear(s, q.id) ==>
          Evolved(s.containers[q.id].status, t.containers[q.id].status))
    && (q.id in s.containers && q.id !in t.containers ==> q.id in s.unattended)
    && (q.id in t.unattended <==> q.id in s.unattended) && LeftOf(t, q.id) == LeftOf(s, q.id)
  }

  predicate FilesUndisturbed(s: State, t: State, q: Proc) {
    && (q.bundle in t.bundles <==> q.bundle in s.bundles)
    && (q.pidfile in t.writers <==> q.pidfile in s.writers)
    && (q.pidfile in s.pidfiles ==> q.pidfile in t.pidfiles)
    && (q.pidfile in t.pidfiles ==> q.pidfile in s.pidfiles || q.pidfile in s.writers)
  }

  lemma OutsideUndisturbed(s: State, e: Event, q: Proc)
    requires Enabled(s, e) && !e.Act?
    ensures Undisturbed(s, Apply(s, e), q) && FilesUndisturbed(s, Apply(s, e), q)
  {
  }

  /** What a process knows stays true. */
  lemma KnowsStable(s: State, t: State, q: Proc)
    requires Knows(s, q) && Undisturbed(s, t, q) && (q.id in s.statErrors ==> q.id in t.statErrors)
    ensures Knows(t, q)
  {
  }

  lemma LocalUndisturbed(s: State, t: State, p: Pid, r: Pid)
    requires p in s.procs && r in s.procs && p != r && Local(s, t, p)
    requires Holding(s.procs[p].pc) ==> s.procs[p].id != s.procs[r].id
    ensures t.procs[r] == s.procs[r] && Undisturbed(s, t, s.procs[r])
  {
  }

  lemma LocalFilesUndisturbed(s: State, t: State, p: Pid, r: Pid)
    requires p in s.procs && r in s.procs && p != r && FilesLocal(s, t, s.procs[p])
    requires Holding(s.procs[p].pc) ==> FilesApart(s.procs[p], s.procs[r])
    ensures FilesUndisturbed(s, t, s.procs[r])
  {
  }

  /** A step of one process keeps what every other process knows. */
  lemma OthersKeep(s: State, t: State, p: Pid, r: Pid)
    requires BaseInv(s) && Compatible(s) && p in s.procs && r in s.procs && p != r && ProcInv(s, r)
    requires Local(s, t, p)
    ensures ProcInv(t, r)
  {
    if Holding(s.procs[r].pc) {
      if Holding(s.procs[p].pc) {
        OneUser(s, p, r);
      }
      LocalUndisturbed(s, t, p, r);
      KnowsStable(s, t, s.procs[r]);
    }
  }

  lemma OwnRemovalStep(s: State, p: Pid, a: Action)
    requires CanAct(s, p, a) && ProcInv(s, p) && RemovalAction(a)
    ensures Holding(Next(s, p, a).pc) ==> Knows(Do(s, p, a), Next(s, p, a))
  {
  }

  lemma OwnVolumeStep(s: State, p: Pid, a: Action)
    requires CanAct(s, p, a) && ProcInv(s, p) && (a.LockVolume? || a.Share? || a.SetupFails? || a.SetupDone?)
    ensures Holding(Next(s, p, a).pc) ==> Knows(Do(s, p, a), Next(s, p, a))
  {
  }

  lemma OwnBundleStep(s: State, p: Pid, a: Action)
    requires CanAct(s, p, a) && ProcInv(s, p) && (a.Bundle? || a.Hook?)
    ensures Holding(Next(s, p, a).pc) ==> Knows(Do(s, p, a), Next(s, p, a))
  {
  }

  lemma OwnRunStep(s: State, p: Pid, a: Action)
    requires CanAct(s, p, a) && ProcInv(s, p) && a.RunContainer?
    ensures Holding(Next(s, p, a).pc) ==> Knows(Do(s, p, a), Next(s, p, a))
  {
  }

  lemma OwnStatStep(s: State, p: Pid, a: Action)
    requires CanAct(s, p, a) && ProcInv(s, p) && (a.Stat? || a.Poll?)
    ensures Holding(Next(s, p, a).pc) ==> Knows(Do(s, p, a), Next(s, p, a))
  {
  }

  lemma OwnOtherStep(s: State, p: Pid, a: Action)
    requires CanAct(s, p, a) && ProcInv(s, p) && HonestExit(s.procs[p])
    requires !RemovalAction(a) && !StartAction(a) && !a.Stat? && !a.Poll?
    ensures Holding(Next(s, p, a).pc) ==> Knows(Do(s, p, a), Next(s, p, a))
  {
  }

  lemma OwnStepEnds(s: State, p: Pid, a: Action)
    requires CanAct(s, p, a) && ProcInv(s, p)
    ensures EndsWell(s, Next(s, p, a))
  {
    if !a.Stat? && !a.Poll? {
      AdvanceEnds(s, p, a);
    }
  }

  lemma AdvanceEnds(s: State, p: Pid, a: Action)
    requires CanAct(s, p, a) && EndsWell(s, s.procs[p]) && !a.Stat? && !a.Poll?
    ensures EndsWell(s, Advance(s.procs[p], a))
  {
  }

  lemma OwnStep(s: State, p: Pid, a: Action)
    requires CanAct(s, p, a) && ProcInv(s, p) && HonestExit(s.procs[p])
    ensures ProcInv(Do(s, p, a), p)
  {
    OwnStepOwns(s, p, a);
    OwnStepEnds(s, p, a);
    if RemovalAction(a) {
      OwnRemovalStep(s, p, a);
    } else if a.RunContainer? {
      OwnRunStep(s, p, a);
    } else if a.Bundle? || a.Hook? {
      OwnBundleStep(s, p, a);
    } else if StartAction(a) {
      OwnVolumeStep(s, p, a);
    } else if a.Stat? || a.Poll? {
      OwnStatStep(s, p, a);
    } else {
      OwnOtherStep(s, p, a);
    }
  }

  lemma ActKeepsOrphans(s: State, p: Pid, a: Action)
    requires CanAct(s, p, a) && ProcInv(s, p) && s.orphans <= s.statErrors
    ensures Do(s, p, a).orphans <= Do(s, p, a).statErrors
  {
  }

  lemma ActKeepsInv(s: State, p: Pid, a: Action)
    requires CanAct(s, p, a) && Inv(s) && Compatible(s)
    ensures Inv(Do(s, p, a))
  {
    var t := Do(s, p, a);
    ActIsLocal(s, p, a);
    ActKeepsBaseInv(s, p, a);
    ActKeepsOrphans(s, p, a);
    OwnStep(s, p, a);
    forall r | r in t.procs ensures ProcInv(t, r) {
      if r != p {
        OthersKeep(s, t, p, r);
      }
    }
  }

  // ---------------------------------------------------------------- other events and whole runs

  lemma NewProcNamed(cmd: Command, key: Key, digests: seq<Bytes>)
    ensures var q := NewProc(cmd, key, digests); Named(q) && q.lock !in q.vols
  {
    var q := NewProc(cmd, key, digests);
    forall v | v in q.vols ensures VOLUME_PREFIX <= v && v != q.lock {
      var i :| 0 <= i < |q.vols| && q.vols[i] == v;
      LockFilesDisjoint(key, digests[i]);
    }
  }

  lemma SpawnKeepsProcs(s: State, p: Pid, q: Proc, r: Pid)
    requires p !in s.procs && Named(q) && q.lock !in q.vols && q.pc == AtLock && q.res == Pending && q.vol == 0
    requires r in s.procs ==> Owns(s, r) && Named(s.procs[r]) && HonestExit(s.procs[r])
    requires r == p || r in s.procs
    ensures var t := s.(procs := s.procs[p := q]); Owns(t, r) && Named(t.procs[r]) && HonestExit(t.procs[r])
  {
  }

  lemma SpawnKeepsLockInv(s: State, p: Pid, q: Proc)
    requires LockInv(s) && p !in s.procs
    ensures LockInv(s.(procs := s.procs[p := q]))
  {
    forall l | l in s.locks ensures s.locks[l] in s.procs && LockAccounted(s, s.procs[s.locks[l]], l) {
    }
  }

  lemma SpawnKeepsBaseInv(s: State, p: Pid, q: Proc)
    requires BaseInv(s) && p !in s.procs && Named(q) && q.lock !in q.vols
    requires q.pc == AtLock && q.res == Pending && q.vol == 0
    ensures BaseInv(s.(procs := s.procs[p := q]))
  {
    var t := s.(procs := s.procs[p := q]);
    SpawnKeepsLockInv(s, p, q);
    forall r | r in t.procs ensures Owns(t, r) && Named(t.procs[r]) && HonestExit(t.procs[r]) {
      SpawnKeepsProcs(s, p, q, r);
    }
  }

  lemma SameLocksSameBaseInv(s: State, t: State)
    requires BaseInv(s) && t.procs == s.procs && t.locks == s.locks && t.leaked == s.leaked
    ensures BaseInv(t)
  {
  }

  lemma EventKeepsBaseInv(s: State, e: Event)
    requires Enabled(s, e) && BaseInv(s)
    ensures BaseInv(Apply(s, e))
  {
    match e
    case Spawn(p, cmd, key, digests) =>
      NewProcNamed(cmd, key, digests);
      SpawnKeepsBaseInv(s, p, NewProc(cmd, key, digests));
    case Act(p, a) => ActKeepsBaseInv(s, p, a);
    case _ => SameLocksSameBaseInv(s, Apply(s, e));
  }

  /** What happens outside bpm keeps what every process knows. */
  lemma OutsideKeeps(s: State, e: Event, r: Pid)
    requires Enabled(s, e) && !e.Act? && r in s.procs && ProcInv(s, r)
    ensures ProcInv(Apply(s, e), r)
  {
    OutsideUndisturbed(s, e, s.procs[r]);
    if Holding(s.procs[r].pc) {
      KnowsStable(s, Apply(s, e), s.procs[r]);
    }
  }

  lemma EventKeepsInv(s: State, e: Event)
    requires Enabled(s, e) && Inv(s) && Compatible(s)
    ensures Inv(Apply(s, e))
  {
    EventKeepsBaseInv(s, e);
    if e.Act? {
      ActKeepsInv(s, e.p, e.a);
    } else {
      forall r | r in Apply(s, e).procs ensures ProcInv(Apply(s, e), r) {
        if r in s.procs {
          OutsideKeeps(s, e, r);
        }
      }
    }
  }

  /** Processes never disappear from the state and never change their names. */
  lemma CompatibleBefore(s: State, e: Event)
    requires Enabled(s, e) && Compatible(Apply(s, e))
    ensures Compatible(s)
  {
    var t := Apply(s, e);
    forall p | p in s.procs ensures p in t.procs && SameNames(s.procs[p], t.procs[p]) {
      if e.Act? {
        ActProcsLocal(s, e.p, e.a);
      }
    }
  }

  lemma {:induction false} CompatibleAtStart(s: State, es: seq<Event>)
    requires Valid(s, es) && Compatible(After(s, es))
    ensures Compatible(s)
    decreases es
  {
    if es != [] {
      CompatibleAtStart(Apply(s, es[0]), es[1..]);
      CompatibleBefore(s, es[0]);
    }
  }

  lemma {:induction false} RunKeepsBaseInv(s: State, es: seq<Event>)
    requires Valid(s, es) && BaseInv(s)
    ensures BaseInv(After(s, es))
    decreases es
  {
    if es != [] {
      EventKeepsBaseInv(s, es[0]);
      RunKeepsBaseInv(Apply(s, es[0]), es[1..]);
    }
  }

  lemma {:induction false} RunKeepsInv(s: State, es: seq<Event>)
    requires Valid(s, es) && Inv(s) && Compatible(After(s, es))
    ensures Inv(After(s, es))
    decreases es
  {
    if es != [] {
      CompatibleAtStart(Apply(s, es[0]), es[1..]);
      CompatibleBefore(s, es[0]);
      EventKeepsInv(s, es[0]);
      RunKeepsInv(Apply(s, es[0]), es[1..]);
    }
  }

  // ---------------------------------------------------------------- what the processes know of their files

  lemma KnowsFilesStable(s: State, t: State, q: Proc)
    requires KnowsFiles(s, q) && FilesUndisturbed(s, t, q)
    ensures KnowsFiles(t, q)
  {
  }

  /** The calls that touch files or decide what the process knows about them. */
  predicate TouchesFiles(a: Action) {
    a.Destroy? || a.RemovePid? || a.Bundle? || a.RunContainer? || a.Stat? || a.Poll?
  }

  lemma FilesUntouched(s: State, p: Pid, a: Action)
    requires CanAct(s, p, a) && !TouchesFiles(a) && Holding(Advance(s.procs[p], a).pc)
    ensures var t := Do(s, p, a); t.bundles == s.bundles && t.pidfiles == s.pidfiles && t.writers == s.writers
  {
  }

  lemma SetupKeepsFiles(s: State, q: Proc, a: Action)
    requires KnowsFiles(s, q) && (a.LockVolume? || a.Share? || a.SetupDone? || a.Hook?)
    requires if a.Share? then q.pc == AtShare else if a.Hook? then q.pc == AtHook else q.pc == AtVolume
    ensures Holding(Advance(q, a).pc) ==> KnowsFiles(s, Advance(q, a))
  {
  }

  lemma OtherCallKeepsFiles(s: State, p: Pid, a: Action)
    requires CanAct(s, p, a) && ProcInv(s, p) && !TouchesFiles(a)
    requires Holding(s.procs[p].pc) ==> KnowsFiles(s, s.procs[p])
    requires !a.LockVolume? && !a.Share? && !a.SetupDone? && !a.Hook?
    ensures Holding(Advance(s.procs[p], a).pc) ==> KnowsFiles(s, Advance(s.procs[p], a))
  {
  }

  lemma OwnFilesKept(s: State, p: Pid, a: Action)
    requires CanAct(s, p, a) && ProcInv(s, p) && (Holding(s.procs[p].pc) ==> KnowsFiles(s, s.procs[p]))
    requires !TouchesFiles(a)
    ensures Holding(Advance(s.procs[p], a).pc) ==> KnowsFiles(Do(s, p, a), Advance(s.procs[p], a))
  {
    if Holding(Advance(s.procs[p], a).pc) {
      FilesUntouched(s, p, a);
      if a.LockVolume? || a.Share? || a.SetupDone? || a.Hook? {
        SetupKeepsFiles(s, s.procs[p], a);
      } else {
        OtherCallKeepsFiles(s, p, a);
      }
      KnowsFilesStable(s, Do(s, p, a), Advance(s.procs[p], a));
    }
  }

  lemma OwnFilesChanged(s: State, p: Pid, a: Action)
    requires CanAct(s, p, a) && ProcInv(s, p) && KnowsFiles(s, s.procs[p])
    requires TouchesFiles(a)
    ensures Holding(Next(s, p, a).pc) ==> KnowsFiles(Do(s, p, a), Next(s, p, a))
  {
  }

  lemma OthersKeepFiles(s: State, p: Pid, a: Action, r: Pid)
    requires CanAct(s, p, a) && BaseInv(s) && FilesCompatible(s) && r in s.procs && r != p
    requires Holding(s.procs[r].pc) && KnowsFiles(s, s.procs[r])
    ensures KnowsFiles(Do(s, p, a), s.procs[r])
  {
    ActFilesLocal(s, p, a);
    if Holding(s.procs[p].pc) {
      OneFileUser(s, p, r);
    }
    LocalFilesUndisturbed(s, Do(s, p, a), p, r);
    KnowsFilesStable(s, Do(s, p, a), s.procs[r]);
  }

  lemma EventKeepsFileInv(s: State, e: Event)
    requires Enabled(s, e) && Inv(s) && FilesCompatible(s) && FileInv(s)
    ensures FileInv(Apply(s, e))
  {
    var t := Apply(s, e);
    if e.Act? {
      ActProcsLocal(s, e.p, e.a);
    }
    forall r | r in t.procs && Holding(t.procs[r].pc) ensures KnowsFiles(t, t.procs[r]) {
      EventKeepsFiles(s, e, r);
    }
  }

  lemma EventKeepsFiles(s: State, e: Event, r: Pid)
    requires Enabled(s, e) && Inv(s) && FilesCompatible(s) && FileInv(s)
    requires r in Apply(s, e).procs && Holding(Apply(s, e).procs[r].pc)
    ensures KnowsFiles(Apply(s, e), Apply(s, e).procs[r])
  {
    if !e.Act? {
      assert r in s.procs;
      OutsideUndisturbed(s, e, s.procs[r]);
      KnowsFilesStable(s, Apply(s, e), s.procs[r]);
    } else if r != e.p {
      OthersKeepFiles(s, e.p, e.a, r);
    } else {
      assert ProcInv(s, r);
      OwnKeepsFiles(s, r, e.a);
    }
  }

  lemma OwnKeepsFiles(s: State, p: Pid, a: Action)
    requires CanAct(s, p, a) && ProcInv(s, p) && (Holding(s.procs[p].pc) ==> KnowsFiles(s, s.procs[p]))
    ensures Holding(Next(s, p, a).pc) ==> KnowsFiles(Do(s, p, a), Next(s, p, a))
  {
    if TouchesFiles(a) {
      OwnFilesChanged(s, p, a);
    } else {
      OwnFilesKept(s, p, a);
    }
  }

  lemma FilesCompatibleBefore(s: State, e: Event)
    requires Enabled(s, e) && FilesCompatible(Apply(s, e))
    ensures FilesCompatible(s)
  {
    var t := Apply(s, e);
    forall p | p in s.procs ensures p in t.procs && SameNames(s.procs[p], t.procs[p]) {
      if e.Act? {
        ActProcsLocal(s, e.p, e.a);
      }
    }
  }

  lemma {:induction false} FilesCompatibleAtStart(s: State, es: seq<Event>)
    requires Valid(s, es) && FilesCompatible(After(s, es))
    ensures FilesCompatible(s)
    decreases es
  {
    if es != [] {
      FilesCompatibleAtStart(Apply(s, es[0]), es[1..]);
      FilesCompatibleBefore(s, es[0]);
    }
  }

  lemma {:induction false} RunKeepsFileInv(s: State, es: seq<Event>)
    requires Valid(s, es) && Inv(s) && FileInv(s) && Compatible(After(s, es)) && FilesCompatible(After(s, es))
    ensures FileInv(After(s, es))
    decreases es
  {
    if es != [] {
      CompatibleAtStart(s, es);
      FilesCompatibleAtStart(s, es);
      EventKeepsInv(s, es[0]);
      EventKeepsFileInv(s, es[0]);
      RunKeepsFileInv(Apply(s, es[0]), es[1..]);
    }
  }

  lemma ReachableFiles(s: State, p: Pid)
    requires Reachable(s) && Compatible(s) && FilesCompatible(s) && p in s.procs && Holding(s.procs[p].pc)
    ensures KnowsFiles(s, s.procs[p])
  {
    var s0, es :| Initial(s0) && Valid(s0, es) && After(s0, es) == s;
    RunKeepsFileInv(s0, es);
  }

  lemma ReachableBaseInv(s: State)
    requires Reachable(s)
    ensures BaseInv(s)
  {
    var s0, es :| Initial(s0) && Valid(s0, es) && After(s0, es) == s;
    RunKeepsBaseInv(s0, es);
  }

  lemma ReachableInv(s: State)
    requires Reachable(s) && Compatible(s)
    ensures Inv(s)
  {
    var s0, es :| Initial(s0) && Valid(s0, es) && After(s0, es) == s;
    RunKeepsInv(s0, es);
  }

  // ---------------------------------------------------------------- extending runs

  lemma {:induction false} AfterSnoc(s: State, es: seq<Event>, e: Event)
    requires Valid(s, es) && Enabled(After(s, es), e)
    ensures Valid(s, es + [e]) && After(s, es + [e]) == Apply(After(s, es), e)
    decreases es
  {
    if es == [] {
      assert es + [e] == [e];
      assert Valid(Apply(s, e), [e][1..]);
    } else {
      AfterSnoc(Apply(s, es[0]), es[1..], e);
      assert (es + [e])[1..] == es[1..] + [e];
    }
  }

  lemma ReachableStep(s: State, e: Event)
    requires Reachable(s) && Enabled(s, e)
    ensures Reachable(Apply(s, e))
  {
    var s0, es :| Initial(s0) && Valid(s0, es) && After(s0, es) == s;
    AfterSnoc(s0, es, e);
  }
}
