/** What the job lock guarantees over every interleaving of bpm processes. */
module Safety {
  import opened JobId
  import opened Names
  import opened Files
  import opened Protocol
  import opened Invariants

  /** At most one process per lock file is between acquire and release. */
  lemma LockHasOneHolder(s: State, p: Pid, r: Pid)
    requires Reachable(s) && p in s.procs && r in s.procs && p != r
    requires Holding(s.procs[p].pc) && Holding(s.procs[r].pc)
    ensures s.procs[p].lock != s.procs[r].lock
  {
    ReachableBaseInv(s);
  }

  /** Every process uses the container and the lock its key names. */
  lemma ReachableNames(s: State, p: Pid)
    requires Reachable(s) && p in s.procs
    ensures s.procs[p].id == ContainerId(s.procs[p].key) && s.procs[p].lock == JobLockFile(s.procs[p].key)
    ensures s.procs[p].bundle == BundleOf(s.procs[p].key) && s.procs[p].pidfile == PidOf(s.procs[p].key)
  {
    ReachableBaseInv(s);
    assert Named(s.procs[p]);
  }

  lemma ReachableProc(s: State, p: Pid)
    requires Reachable(s) && Compatible(s) && p in s.procs
    ensures ProcInv(s, p)
  {
    ReachableInv(s);
  }

  /** With dot-free job names, processes that share a container share a lock. */
  lemma DotFreeCompatible(s: State)
    requires Reachable(s)
    requires forall p :: p in s.procs ==> DotFree(s.procs[p].key.job)
    ensures Compatible(s)
  {
    forall p, q | p in s.procs && q in s.procs && s.procs[p].id == s.procs[q].id
      ensures s.procs[p].lock == s.procs[q].lock
    {
      ReachableNames(s, p);
      ReachableNames(s, q);
      DotFreeNames(s.procs[p].key, s.procs[q].key);
    }
  }

  /** With names that are single path elements, processes whose files meet share a lock. */
  lemma PlainFilesCompatible(s: State)
    requires Reachable(s)
    requires forall p :: p in s.procs ==> PlainNames(s.procs[p].key)
    ensures FilesCompatible(s)
  {
    forall p, q | p in s.procs && q in s.procs && !FilesApart(s.procs[p], s.procs[q])
      ensures s.procs[p].lock == s.procs[q].lock
    {
      ReachableNames(s, p);
      ReachableNames(s, q);
      if s.procs[p].key != s.procs[q].key {
        PlainFilesApart(s.procs[p].key, s.procs[q].key);
      }
    }
  }

  /** So with plain names and dot-free job names, no container and no file ever has two users, nor
      lies inside the file of another user. */
  lemma PlainOneUser(s: State, p: Pid, r: Pid)
    requires Reachable(s) && p in s.procs && r in s.procs && p != r
    requires forall q :: q in s.procs ==> DotFree(s.procs[q].key.job) && PlainNames(s.procs[q].key)
    requires Holding(s.procs[p].pc) && Holding(s.procs[r].pc)
    ensures s.procs[p].id != s.procs[r].id && FilesApart(s.procs[p], s.procs[r])
  {
    DotFreeCompatible(s);
    PlainFilesCompatible(s);
    ReachableBaseInv(s);
    OneUser(s, p, r);
    OneFileUser(s, p, r);
  }

  // ---------------------------------------------------------------- stability of what was seen

  predicate By(e: Event, p: Pid) { e.Act? && e.p == p }

  lemma OtherEventUndisturbed(s: State, e: Event, p: Pid)
    requires Enabled(s, e) && BaseInv(s) && Compatible(s) && p in s.procs && Holding(s.procs[p].pc) && !By(e, p)
    ensures p in Apply(s, e).procs && Apply(s, e).procs[p] == s.procs[p]
    ensures Undisturbed(s, Apply(s, e), s.procs[p])
  {
    if e.Act? {
      ActIsLocal(s, e.p, e.a);
      if Holding(s.procs[e.p].pc) {
        OneUser(s, e.p, p);
      }
      LocalUndisturbed(s, Apply(s, e), e.p, p);
    } else {
      OutsideUndisturbed(s, e, s.procs[p]);
    }
  }

  /** While a process holds its lock, any number of steps of others leave an absent container absent
      and a present one as it is or exited. It can only vanish when a killed bpm process left a runc
      behind, and can only appear when that was a `runc run`. */
  lemma {:induction false} StatStability(s: State, es: seq<Event>, p: Pid)
    requires Reachable(s) && Valid(s, es) && Compatible(After(s, es))
    requires p in s.procs && Holding(s.procs[p].pc)
    requires forall e :: e in es ==> !By(e, p)
    ensures p in After(s, es).procs && After(s, es).procs[p] == s.procs[p]
    ensures Undisturbed(s, After(s, es), s.procs[p])
  {
    ReachableBaseInv(s);
    RunUndisturbed(s, es, p);
  }

  lemma {:induction false} RunUndisturbed(s: State, es: seq<Event>, p: Pid)
    requires BaseInv(s) && Valid(s, es) && Compatible(After(s, es))
    requires p in s.procs && Holding(s.procs[p].pc)
    requires forall e :: e in es ==> !By(e, p)
    ensures p in After(s, es).procs && After(s, es).procs[p] == s.procs[p]
    ensures Undisturbed(s, After(s, es), s.procs[p])
    decreases es
  {
    if es != [] {
      CompatibleAtStart(s, es);
      EventKeepsBaseInv(s, es[0]);
      OtherEventUndisturbed(s, es[0], p);
      RunUndisturbed(Apply(s, es[0]), es[1..], p);
    }
  }

  lemma OtherCallLeavesFiles(s: State, r: Pid, a: Action, p: Pid)
    requires CanAct(s, r, a) && BaseInv(s) && FilesCompatible(s) && p in s.procs && Holding(s.procs[p].pc) && p != r
    ensures p in Do(s, r, a).procs && Do(s, r, a).procs[p] == s.procs[p]
    ensures FilesUndisturbed(s, Do(s, r, a), s.procs[p])
  {
    ActFilesLocal(s, r, a);
    if Holding(s.procs[r].pc) {
      OneFileUser(s, r, p);
    }
    LocalFilesUndisturbed(s, Do(s, r, a), r, p);
  }

  lemma OtherEventLeavesFiles(s: State, e: Event, p: Pid)
    requires Enabled(s, e) && BaseInv(s) && FilesCompatible(s) && p in s.procs && Holding(s.procs[p].pc)
    requires !By(e, p)
    ensures p in Apply(s, e).procs && Apply(s, e).procs[p] == s.procs[p]
    ensures FilesUndisturbed(s, Apply(s, e), s.procs[p])
  {
    if e.Act? {
      OtherCallLeavesFiles(s, e.p, e.a, p);
    } else {
      OutsideUndisturbed(s, e, s.procs[p]);
    }
  }

  /** And they leave its bundle and its pidfile alone: a pidfile can only appear when a detached
      `runc run` was left behind. */
  lemma {:induction false} FileStability(s: State, es: seq<Event>, p: Pid)
    requires Reachable(s) && Valid(s, es) && FilesCompatible(After(s, es))
    requires p in s.procs && Holding(s.procs[p].pc)
    requires forall e :: e in es ==> !By(e, p)
    ensures p in After(s, es).procs && After(s, es).procs[p] == s.procs[p]
    ensures FilesUndisturbed(s, After(s, es), s.procs[p])
    decreases es
  {
    if es != [] {
      FilesCompatibleAtStart(s, es);
      ReachableBaseInv(s);
      OtherEventLeavesFiles(s, es[0], p);
      ReachableStep(s, es[0]);
      FileStability(Apply(s, es[0]), es[1..], p);
    }
  }

  // ---------------------------------------------------------------- running containers

  /** A start or run calls RunContainer only on an absent container, or on one it saw creating or
      created, which runc then refuses to replace, unless a `runc run` was left behind. */
  lemma RunsOnlyAbsent(s: State, p: Pid)
    requires Reachable(s) && Compatible(s) && p in s.procs && s.procs[p].pc == AtRun
    ensures var q := s.procs[p];
            q.id in s.containers && !MayAppear(s, q.id) ==> q.seen == Saw(Creating) || q.seen == Saw(Created)
  {
    ReachableProc(s, p);
  }

  /** A start or run calls RemoveProcess only when it saw the container failed, and then it is
      still not running, or when StatProcess returned an error. */
  lemma RemovesOnlyFailed(s: State, p: Pid)
    requires Reachable(s) && Compatible(s) && p in s.procs && Removing(s.procs[p].pc) && s.procs[p].cmd != Stop
    ensures var q := s.procs[p];
            && Removed(q.seen)
            && (q.id in s.containers && !MayAppear(s, q.id) ==>
                  q.seen.Saw? && ReportedFailed(s.containers[q.id].status))
  {
    ReachableProc(s, p);
  }

  /** A start or run that saw its container running does nothing more to it. */
  lemma RunningIsLeftAlone(s: State, p: Pid)
    requires Reachable(s) && Compatible(s) && p in s.procs
    requires s.procs[p].cmd != Stop && s.procs[p].seen == Saw(Running)
    ensures s.procs[p].pc in {AtPost, Exiting, Exited}
  {
    ReachableProc(s, p);
  }

  predicate RunningIn(s: State, id: Bytes) { id in s.containers && s.containers[id].status == Running }

  /** The record of a running container is only ever dropped by a `stop`, by a start or run that got
      an error from StatProcess, by the `runc delete` a killed process left behind, or by a start or
      run that saw it failed before a `runc run` left behind replaced it. */
  lemma RunningIsNotLost(s: State, e: Event, id: Bytes)
    requires Reachable(s) && Compatible(s) && Enabled(s, e)
    requires RunningIn(s, id) && id !in Apply(s, e).containers
    ensures e == LeftDeletes(id) || (e.Act? && s.procs[e.p].id == id)
    ensures e.Act? ==>
              var q := s.procs[e.p];
              || (q.cmd == Stop && q.seen.Saw? && e.a.Delete?)
              || (q.cmd != Stop && q.seen == SawError && e.a == RemoveState(true))
              || (q.cmd != Stop && Removed(q.seen) && e.a.Delete? && MayAppear(s, id))
  {
    if e.Act? {
      ReachableProc(s, e.p);
    }
  }

  /** A live process loses its container record only after some start or run got an error from
      StatProcess: without such an error nothing is orphaned, so nothing runs twice. */
  lemma NoOrphansWithoutStatError(s: State, id: Bytes)
    requires Reachable(s) && Compatible(s) && id !in s.statErrors
    ensures id !in s.orphans
  {
    ReachableInv(s);
  }

  /** A container is only ever started where none exists, or by the `runc run` that a killed process
      left behind. */
  lemma RunningOnlyFromAbsent(s: State, e: Event, id: Bytes)
    requires Enabled(s, e) && !RunningIn(s, id) && RunningIn(Apply(s, e), id)
    ensures if MayAppear(s, id) && !e.Act?
            then e == LeftLaunches(id, Running) || e == LeftProceeds(id, Running)
            else id !in s.containers && e.Act? && e.a.RunContainer? && s.procs[e.p].id == id
  {
  }

  // ---------------------------------------------------------------- polling in stop

  /** ContainerState yields no nil state inside StopProcess unless a bpm process was killed while it
      waited for a runc to delete or run that container, so the dereference is safe. */
  lemma PollIsSafe(s: State, p: Pid)
    requires Reachable(s) && Compatible(s) && p in s.procs && s.procs[p].id !in s.unattended
    ensures s.procs[p].pc != Panicked
    ensures s.procs[p].pc == AtPoll ==> !ReplyPossible(s, s.procs[p].id, NilReply)
  {
    ReachableProc(s, p);
  }

  // ---------------------------------------------------------------- cleanup

  /** RemoveProcess deletes the container before the bundle before the pidfile. */
  lemma CleanupOrder(s: State, p: Pid)
    requires Reachable(s) && Compatible(s) && p in s.procs
    ensures var q := s.procs[p];
            && (q.pc == AtDestroy || q.pc == AtRemovePid ==> Gone(s, q.id))
            && (q.pc == AtRemovePid && FilesCompatible(s) ==> q.bundle !in s.bundles)
  {
    ReachableProc(s, p);
    if FilesCompatible(s) && Holding(s.procs[p].pc) {
      ReachableFiles(s, p);
    }
  }

  /** A stop that saw a container and is about to return nil leaves neither container nor bundle
      nor pidfile, whatever StopProcess returned. One that saw none leaves no container. Container
      and pidfile can only be there if a `runc run` was left behind. */
  lemma StopCleansUp(s: State, p: Pid)
    requires Reachable(s) && Compatible(s) && p in s.procs && s.procs[p].pc == AtPost && s.procs[p].cmd == Stop
    ensures Gone(s, s.procs[p].id)
    ensures s.procs[p].seen.Saw? && FilesCompatible(s) ==> FilesGone(s, s.procs[p])
  {
    ReachableProc(s, p);
    if FilesCompatible(s) {
      ReachableFiles(s, p);
    }
  }

  /** A start that is about to return nil leaves a container that runs or has exited since. */
  lemma StartLeavesContainer(s: State, p: Pid)
    requires Reachable(s) && Compatible(s) && p in s.procs && s.procs[p].pc == AtPost && s.procs[p].cmd == Start
    ensures s.procs[p].id !in s.unattended ==> s.procs[p].id in s.containers
    ensures s.procs[p].id in s.containers && !MayAppear(s, s.procs[p].id) ==>
              Evolved(Running, s.containers[s.procs[p].id].status)
  {
    ReachableProc(s, p);
  }

  /** A start that is about to return nil, and did not find its container running, leaves bundle and
      pidfile; a run leaves its bundle and writes no pidfile. */
  lemma StartLeavesFiles(s: State, p: Pid)
    requires Reachable(s) && Compatible(s) && FilesCompatible(s) && p in s.procs && s.procs[p].pc == AtPost
    requires s.procs[p].cmd != Stop && s.procs[p].seen != Saw(Running)
    ensures s.procs[p].bundle in s.bundles
    ensures s.procs[p].cmd == Start ==> s.procs[p].pidfile in s.pidfiles
    ensures s.procs[p].cmd == Run && Removed(s.procs[p].seen) ==> Unwritten(s, s.procs[p])
  {
    ReachableFiles(s, p);
  }

  /** Every error makes bpm exit with a status other than 0, except two: `run` exits with 0 when its
      setup failed, and when runc exited with 0 but its output could not be copied. */
  lemma ErrorExitStatus(s: State, p: Pid)
    requires Reachable(s) && p in s.procs && s.procs[p].res.Failed?
    ensures var q := s.procs[p];
            q.res.code == 0 <==> q.cmd == Run && (InSetup(q.res.at) || (q.res.at == Attached && q.res.copying))
  {
    ReachableBaseInv(s);
  }

  /** A command that succeeded and ran PostRunE, and any process that ended, holds no lock. */
  lemma LocksAreReleased(s: State, p: Pid, l: Bytes)
    requires Reachable(s) && p in s.procs && l in s.locks
    requires s.procs[p].pc == Exited || (Released(s.procs[p]) && !s.leaked)
    ensures s.locks[l] != p
  {
    ReachableBaseInv(s);
    assert LockAccounted(s, s.procs[s.locks[l]], l);
  }

  /** CreateBundle meets an old bundle only where nothing was removed before: StatProcess found no
      container, or one that was creating or created. */
  lemma StaleBundle(s: State, p: Pid)
    requires Reachable(s) && Compatible(s) && FilesCompatible(s) && p in s.procs && s.procs[p].pc == AtBundle
    requires s.procs[p].bundle in s.bundles
    ensures s.procs[p].seen in {SawNone, Saw(Creating), Saw(Created)}
  {
    ReachableProc(s, p);
    ReachableFiles(s, p);
  }

  // ---------------------------------------------------------------- stale pidfiles

  /** A removal of this key is going on. */
  ghost predicate RemovalGoingOn(s: State, k: Key) {
    exists p :: p in s.procs && s.procs[p].key == k && Removing(s.procs[p].pc)
  }

  /** A removal of this key failed or was killed before, or a runc was left behind. */
  predicate Blemished(s: State, k: Key) { k in s.abandoned || ContainerId(k) in s.unattended }

  ghost predicate PidfileAccounted(s: State, k: Key) {
    PidOf(k) in s.pidfiles ==> ContainerId(k) in s.containers || Blemished(s, k) || RemovalGoingOn(s, k)
  }

  /** Different keys have different containers, and pidfiles that do not meet. */
  ghost predicate Separate(keys: set<Key>) {
    forall a, b :: a in keys && b in keys && a != b ==>
      ContainerId(a) != ContainerId(b) && Apart(PidOf(a), PidOf(b))
  }

  lemma PlainKeysAreSeparate(keys: set<Key>)
    requires forall k :: k in keys ==> DotFree(k.job) && PlainNames(k)
    ensures Separate(keys)
  {
    forall a, b | a in keys && b in keys && a != b
      ensures ContainerId(a) != ContainerId(b) && Apart(PidOf(a), PidOf(b))
    {
      DotFreeNames(a, b);
      PlainFilesApart(a, b);
    }
  }

  ghost predicate KeysIn(s: State, keys: set<Key>) { forall p :: p in s.procs ==> s.procs[p].key in keys }

  /** Pidfiles are accounted for; a `run` is attached next to one only if it is stale; and a pidfile
      that may still be written belongs to a container whose runc was left behind. */
  ghost predicate Tidy(s: State, keys: set<Key>) {
    && (forall k :: k in keys ==> PidfileAccounted(s, k))
    && (forall p :: p in s.procs && s.procs[p].pc == Attached && s.procs[p].pidfile in s.pidfiles
                    ==> Blemished(s, s.procs[p].key))
    && (forall k :: k in keys && PidOf(k) in s.writers ==> ContainerId(k) in s.unattended)
  }

  lemma SeparateCompatible(s: State, keys: set<Key>)
    requires Reachable(s) && Separate(keys) && KeysIn(s, keys)
    ensures Compatible(s)
  {
    forall p, q | p in s.procs && q in s.procs && s.procs[p].id == s.procs[q].id
      ensures s.procs[p].lock == s.procs[q].lock
    {
      ReachableNames(s, p);
      ReachableNames(s, q);
    }
  }

  lemma BlemishStays(s: State, e: Event, k: Key)
    requires Enabled(s, e) && Blemished(s, k)
    ensures Blemished(Apply(s, e), k)
  {
  }

  /** A step that is not part of a removal accounts for its process's pidfile. */
  lemma OwnPidfileKept(s: State, p: Pid, a: Action)
    requires CanAct(s, p, a) && !Removing(Next(s, p, a).pc) && s.procs[p].pc != Attached
    requires s.procs[p].pidfile in s.pidfiles ==> s.procs[p].id in s.containers || Removing(s.procs[p].pc)
    ensures var t := Do(s, p, a);
            s.procs[p].pidfile in t.pidfiles ==> s.procs[p].id in t.containers || s.procs[p].key in t.abandoned
  {
    if RemovalAction(a) {
      RemovalPidfile(s, p, a);
    } else if !StartAction(a) {
      OtherActionPidfile(s, p, a);
    }
  }

  lemma OtherActionPidfile(s: State, p: Pid, a: Action)
    requires CanAct(s, p, a) && !RemovalAction(a) && !StartAction(a) && s.procs[p].pc != Attached
    ensures Do(s, p, a).pidfiles == s.pidfiles && Do(s, p, a).containers == s.containers
    ensures a.Kill? && Removing(s.procs[p].pc) ==> s.procs[p].key in Do(s, p, a).abandoned
    ensures !a.Kill? ==> !Removing(s.procs[p].pc)
  {
  }

  lemma RemovalPidfile(s: State, p: Pid, a: Action)
    requires CanAct(s, p, a) && RemovalAction(a) && !Removing(Next(s, p, a).pc)
    requires s.procs[p].pidfile in s.pidfiles ==> s.procs[p].id in s.containers || Removing(s.procs[p].pc)
    ensures var t := Do(s, p, a);
            s.procs[p].pidfile in t.pidfiles ==> s.procs[p].id in t.containers || s.procs[p].key in t.abandoned
  {
  }

  /** A `run` gets attached only where no container is. */
  lemma AttachedPidfile(s: State, p: Pid, a: Action)
    requires CanAct(s, p, a) && ProcInv(s, p) && Next(s, p, a).pc == Attached
    ensures s.procs[p].pc == AtRun && s.procs[p].id !in s.containers && Do(s, p, a).pidfiles == s.pidfiles
  {
    assert a == RunContainer(RunOk);
  }

  /** Why the pidfile of a process is there. */
  lemma OwnPidfileReason(s: State, p: Pid)
    requires p in s.procs && BaseInv(s) && Compatible(s) && PidfileAccounted(s, s.procs[p].key)
    requires s.procs[p].pidfile in s.pidfiles && !Blemished(s, s.procs[p].key)
    ensures || s.procs[p].id in s.containers || Removing(s.procs[p].pc)
            || (!Holding(s.procs[p].pc) && RemovalGoingOn(s, s.procs[p].key))
  {
    assert Named(s.procs[p]);
    if RemovalGoingOn(s, s.procs[p].key) && Holding(s.procs[p].pc) {
      OnlyOwnRemoval(s, p);
    }
  }

  /** The step of a process accounts for its own pidfile. */
  lemma OwnPidfile(s: State, p: Pid, a: Action)
    requires CanAct(s, p, a) && BaseInv(s) && Compatible(s) && PidfileAccounted(s, s.procs[p].key)
    requires s.procs[p].pc == Attached && s.procs[p].pidfile in s.pidfiles ==> Blemished(s, s.procs[p].key)
    ensures PidfileAccounted(Do(s, p, a), s.procs[p].key)
  {
    if Blemished(s, s.procs[p].key) {
      BlemishStays(s, Act(p, a), s.procs[p].key);
    } else {
      if s.procs[p].pidfile in s.pidfiles {
        OwnPidfileReason(s, p);
      }
      assert Named(s.procs[p]);
      OwnPidfileWithReason(s, p, a);
    }
  }

  lemma OwnPidfileWithReason(s: State, p: Pid, a: Action)
    requires CanAct(s, p, a) && Named(s.procs[p])
    requires s.procs[p].pidfile in s.pidfiles ==>
               && s.procs[p].pc != Attached
               && (|| s.procs[p].id in s.containers || Removing(s.procs[p].pc)
                   || (!Holding(s.procs[p].pc) && RemovalGoingOn(s, s.procs[p].key)))
    ensures PidfileAccounted(Do(s, p, a), s.procs[p].key)
  {
    if !Holding(s.procs[p].pc) && RemovalGoingOn(s, s.procs[p].key) {
      RemovalStays(s, p, a, s.procs[p].key);
    }
    OwnPidfileUnblemished(s, p, a);
  }

  lemma OwnPidfileUnblemished(s: State, p: Pid, a: Action)
    requires CanAct(s, p, a) && Named(s.procs[p])
    requires var q := s.procs[p];
             q.pidfile in s.pidfiles ==>
               && q.pc != Attached
               && (|| q.id in s.containers || Removing(q.pc)
                   || (!Holding(q.pc) && RemovalGoingOn(Do(s, p, a), q.key)))
    ensures PidfileAccounted(Do(s, p, a), s.procs[p].key)
  {
    var q, t := s.procs[p], Do(s, p, a);
    if Removing(Next(s, p, a).pc) {
      ActProcsLocal(s, p, a);
      assert t.procs[p].key == q.key;
    } else if Holding(q.pc) && q.pc != Attached {
      OwnPidfileKept(s, p, a);
    } else {
      OwnPidfileIdle(s, p, a);
    }
  }

  lemma OwnPidfileIdle(s: State, p: Pid, a: Action)
    requires CanAct(s, p, a) && (!Holding(s.procs[p].pc) || s.procs[p].pc == Attached)
    ensures Do(s, p, a).pidfiles == s.pidfiles
    ensures !Holding(s.procs[p].pc) ==> Do(s, p, a).containers == s.containers
  {
    assert a.Acquire? || a.LockFails? || a.Exit? || a.Kill? || a.ContainerReturns?;
    assert a.ContainerReturns? ==> Holding(s.procs[p].pc);
  }

  /** A `run` gets attached next to a pidfile only if that pidfile was stale already. */
  lemma OwnAttached(s: State, p: Pid, a: Action)
    requires CanAct(s, p, a) && Inv(s) && Compatible(s) && PidfileAccounted(s, s.procs[p].key)
    requires Next(s, p, a).pc == Attached && s.procs[p].pidfile in Do(s, p, a).pidfiles
    ensures Blemished(Do(s, p, a), s.procs[p].key)
  {
    var q := s.procs[p];
    assert ProcInv(s, p) && Named(q);
    AttachedPidfile(s, p, a);
    if RemovalGoingOn(s, q.key) {
      OnlyOwnRemoval(s, p);
    }
    BlemishStays(s, Act(p, a), q.key);
  }

  /** While a process holds its lock, a removal of its key can only be its own. */
  lemma OnlyOwnRemoval(s: State, p: Pid)
    requires BaseInv(s) && Compatible(s) && p in s.procs && Holding(s.procs[p].pc)
    requires RemovalGoingOn(s, s.procs[p].key)
    ensures Removing(s.procs[p].pc)
  {
    var r :| r in s.procs && s.procs[r].key == s.procs[p].key && Removing(s.procs[r].pc);
    if r != p {
      assert Named(s.procs[p]) && Named(s.procs[r]);
      OneUser(s, p, r);
    }
  }

  /** A removal by others goes on whatever an idle process does. */
  lemma RemovalStays(s: State, p: Pid, a: Action, k: Key)
    requires CanAct(s, p, a) && !Removing(s.procs[p].pc) && RemovalGoingOn(s, k)
    ensures RemovalGoingOn(Do(s, p, a), k)
  {
    var r :| r in s.procs && s.procs[r].key == k && Removing(s.procs[r].pc);
    var t := Do(s, p, a);
    assert r in t.procs && t.procs[r] == s.procs[r];
  }

  /** The step of a process keeps the pidfiles of others accounted for. */
  lemma OtherPidfile(s: State, p: Pid, a: Action, k: Key)
    requires CanAct(s, p, a) && PidfileAccounted(s, k) && k != s.procs[p].key
    requires s.procs[p].id != ContainerId(k) && Apart(s.procs[p].pidfile, PidOf(k))
    ensures PidfileAccounted(Do(s, p, a), k)
  {
    ActFilesLocal(s, p, a);
    if PidOf(k) in s.pidfiles {
      if Blemished(s, k) {
        BlemishStays(s, Act(p, a), k);
      } else if RemovalGoingOn(s, k) {
        OtherRemovalStays(s, p, a, k);
      } else {
        ActContainersLocal(s, p, a);
      }
    }
  }

  lemma OtherRemovalStays(s: State, p: Pid, a: Action, k: Key)
    requires CanAct(s, p, a) && k != s.procs[p].key && RemovalGoingOn(s, k)
    ensures RemovalGoingOn(Do(s, p, a), k)
  {
    var r :| r in s.procs && s.procs[r].key == k && Removing(s.procs[r].pc);
    assert Do(s, p, a).procs[r] == s.procs[r];
  }

  lemma ActKeepsAccounted(s: State, p: Pid, a: Action, keys: set<Key>, k: Key)
    requires CanAct(s, p, a) && Inv(s) && Compatible(s) && Tidy(s, keys) && KeysIn(s, keys)
    requires Separate(keys) && k in keys
    ensures PidfileAccounted(Do(s, p, a), k)
  {
    assert PidfileAccounted(s, k) && Named(s.procs[p]) && s.procs[p].key in keys;
    if k == s.procs[p].key {
      OwnPidfile(s, p, a);
    } else {
      OtherPidfile(s, p, a, k);
    }
  }

  lemma WriterIsLeft(s: State, p: Pid, a: Action, f: Path)
    requires CanAct(s, p, a) && f in Do(s, p, a).writers && f !in s.writers
    ensures f == s.procs[p].pidfile && s.procs[p].id in Do(s, p, a).unattended
  {
  }

  lemma ActKeepsWriters(s: State, p: Pid, a: Action, k: Key)
    requires CanAct(s, p, a) && Named(s.procs[p])
    requires k == s.procs[p].key || Apart(PidOf(k), s.procs[p].pidfile)
    requires PidOf(k) in s.writers ==> ContainerId(k) in s.unattended
    requires PidOf(k) in Do(s, p, a).writers
    ensures ContainerId(k) in Do(s, p, a).unattended
  {
    if PidOf(k) in s.writers {
      assert Blemished(s, k);
    } else {
      WriterIsLeft(s, p, a, PidOf(k));
    }
  }

  lemma ActKeepsAttached(s: State, p: Pid, a: Action, keys: set<Key>, r: Pid)
    requires CanAct(s, p, a) && Inv(s) && Compatible(s) && Tidy(s, keys) && KeysIn(s, keys) && Separate(keys)
    requires var t := Do(s, p, a); r in t.procs && t.procs[r].pc == Attached && t.procs[r].pidfile in t.pidfiles
    ensures Blemished(Do(s, p, a), Do(s, p, a).procs[r].key)
  {
    ActProcsLocal(s, p, a);
    if r == p {
      assert s.procs[p].key in keys && PidfileAccounted(s, s.procs[p].key);
      OwnAttached(s, p, a);
    } else {
      assert Named(s.procs[p]) && Named(s.procs[r]) && s.procs[p].key in keys && s.procs[r].key in keys;
      OtherAttached(s, p, a, r);
    }
  }

  lemma OtherAttached(s: State, p: Pid, a: Action, r: Pid)
    requires CanAct(s, p, a) && BaseInv(s) && Compatible(s) && r in s.procs && r != p
    requires s.procs[r].pc == Attached && (s.procs[r].pidfile in s.pidfiles ==> Blemished(s, s.procs[r].key))
    requires s.procs[r].key == s.procs[p].key || Apart(s.procs[p].pidfile, s.procs[r].pidfile)
    ensures s.procs[r].pidfile in Do(s, p, a).pidfiles ==> Blemished(Do(s, p, a), s.procs[r].key)
  {
    ActFilesLocal(s, p, a);
    if s.procs[r].key == s.procs[p].key && Holding(s.procs[p].pc) {
      assert Named(s.procs[p]) && Named(s.procs[r]);
      OneUser(s, p, r);
    }
    if s.procs[r].pidfile in Do(s, p, a).pidfiles {
      BlemishStays(s, Act(p, a), s.procs[r].key);
    }
  }

  lemma ActKeepsTidy(s: State, p: Pid, a: Action, keys: set<Key>)
    requires CanAct(s, p, a) && Inv(s) && Compatible(s) && Tidy(s, keys) && KeysIn(s, keys) && Separate(keys)
    ensures Tidy(Do(s, p, a), keys)
  {
    var t := Do(s, p, a);
    forall k | k in keys ensures PidfileAccounted(t, k) {
      ActKeepsAccounted(s, p, a, keys, k);
    }
    forall k | k in keys && PidOf(k) in t.writers ensures ContainerId(k) in t.unattended {
      assert Named(s.procs[p]);
      assert s.procs[p].key in keys;
      ActKeepsWriters(s, p, a, k);
    }
    forall r | r in t.procs && t.procs[r].pc == Attached && t.procs[r].pidfile in t.pidfiles
      ensures Blemished(t, t.procs[r].key)
    {
      ActKeepsAttached(s, p, a, keys, r);
    }
  }

  lemma RemovalOutside(s: State, e: Event, k: Key)
    requires Enabled(s, e) && !e.Act? && RemovalGoingOn(s, k)
    ensures RemovalGoingOn(Apply(s, e), k)
  {
    var r :| r in s.procs && s.procs[r].key == k && Removing(s.procs[r].pc);
    assert Apply(s, e).procs[r] == s.procs[r];
  }

  /** What happens outside bpm keeps the pidfiles accounted for. */
  lemma OutsidePidfile(s: State, e: Event, k: Key)
    requires Enabled(s, e) && !e.Act? && PidfileAccounted(s, k)
    requires PidOf(k) in s.writers ==> ContainerId(k) in s.unattended
    ensures PidfileAccounted(Apply(s, e), k)
  {
    if RemovalGoingOn(s, k) {
      RemovalOutside(s, e, k);
    }
  }

  lemma OutsideAttached(s: State, e: Event, r: Pid)
    requires Enabled(s, e) && !e.Act? && r in s.procs && s.procs[r].pc == Attached
    requires s.procs[r].pidfile in s.pidfiles ==> Blemished(s, s.procs[r].key)
    requires s.procs[r].pidfile in s.writers ==> ContainerId(s.procs[r].key) in s.unattended
    ensures s.procs[r].pidfile in Apply(s, e).pidfiles ==> Blemished(Apply(s, e), s.procs[r].key)
  {
  }

  lemma OutsideKeepsTidy(s: State, e: Event, keys: set<Key>)
    requires Enabled(s, e) && !e.Act? && BaseInv(s) && Tidy(s, keys) && KeysIn(s, keys)
    ensures Tidy(Apply(s, e), keys)
  {
    var t := Apply(s, e);
    forall k | k in keys ensures PidfileAccounted(t, k) {
      OutsidePidfile(s, e, k);
    }
    forall r | r in t.procs && t.procs[r].pc == Attached && t.procs[r].pidfile in t.pidfiles
      ensures Blemished(t, t.procs[r].key)
    {
      assert r in s.procs && s.procs[r] == t.procs[r] && Named(s.procs[r]);
      OutsideAttached(s, e, r);
    }
  }

  lemma EventKeepsTidy(s: State, e: Event, keys: set<Key>)
    requires Enabled(s, e) && Inv(s) && Compatible(s) && Tidy(s, keys) && KeysIn(s, keys) && Separate(keys)
    ensures Tidy(Apply(s, e), keys)
  {
    if e.Act? {
      ActKeepsTidy(s, e.p, e.a, keys);
    } else {
      OutsideKeepsTidy(s, e, keys);
    }
  }

  lemma EventKeepsKeys(s: State, e: Event, keys: set<Key>)
    requires Enabled(s, e) && KeysIn(s, keys)
    requires e.Spawn? ==> e.key in keys
    ensures KeysIn(Apply(s, e), keys)
  {
    if e.Act? {
      ActProcsLocal(s, e.p, e.a);
    }
  }

  lemma {:induction false} RunKeepsTidy(s: State, es: seq<Event>, keys: set<Key>)
    requires Reachable(s) && Valid(s, es) && Tidy(s, keys) && KeysIn(s, keys) && Separate(keys)
    requires forall e :: e in es && e.Spawn? ==> e.key in keys
    ensures Tidy(After(s, es), keys)
    decreases es
  {
    if es != [] {
      SeparateCompatible(s, keys);
      ReachableInv(s);
      EventKeepsTidy(s, es[0], keys);
      EventKeepsKeys(s, es[0], keys);
      ReachableStep(s, es[0]);
      RunKeepsTidy(Apply(s, es[0]), es[1..], keys);
    }
  }

  /** Among keys whose containers differ and whose pidfiles do not meet, a pidfile without its
      container means that a removal of that key is going on, that one failed or was killed before, or
      that a bpm process was killed while it waited for a runc on that container. */
  lemma StalePidfile(s0: State, es: seq<Event>, keys: set<Key>, k: Key)
    requires Initial(s0) && Valid(s0, es) && Separate(keys) && k in keys
    requires forall a :: a in keys && PidOf(a) in s0.pidfiles ==> ContainerId(a) in s0.containers
    requires forall e :: e in es && e.Spawn? ==> e.key in keys
    requires var s := After(s0, es); PidOf(k) in s.pidfiles && ContainerId(k) !in s.containers
    ensures var s := After(s0, es); RemovalGoingOn(s, k) || k in s.abandoned || ContainerId(k) in s.unattended
  {
    assert Reachable(s0) by {
      assert Valid(s0, []) && After(s0, []) == s0;
    }
    RunKeepsTidy(s0, es, keys);
    assert PidfileAccounted(After(s0, es), k);
  }
}
