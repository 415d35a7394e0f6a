/** Runs that show where the guarantees end. Each is a family over every key. */
module Witnesses {
  import opened JobId
  import opened Names
  import opened Files
  import opened Protocol
  import opened Invariants
  import opened Safety
  import opened Deadlock

  /** A host on which no bpm ran yet, with the files of these keys. */
  function Fresh(containers: map<Bytes, Container>, keys: set<Key>): State {
    var bundles, pidfiles := set k | k in keys :: BundleOf(k), set k | k in keys :: PidOf(k);
    State(map[], map[], containers, bundles, pidfiles, map[], {}, {}, {}, {}, false)
  }

  lemma FreshReachable(containers: map<Bytes, Container>, keys: set<Key>)
    ensures Reachable(Fresh(containers, keys))
  {
    var s := Fresh(containers, keys);
    assert Initial(s) && Valid(s, []) && After(s, []) == s;
  }

  lemma Go(s: State, e: Event) returns (t: State)
    requires Reachable(s) && Enabled(s, e)
    ensures t == Apply(s, e) && Reachable(t)
  {
    t := Apply(s, e);
    ReachableStep(s, e);
  }

  // ---------------------------------------------------------------- stretches of runs

  /** The state with a process somewhere else. */
  function Put(s: State, p: Pid, q: Proc): State { s.(procs := s.procs[p := q]) }

  lemma PutTwice(s: State, p: Pid, q: Proc, r: Proc)
    ensures Put(Put(s, p, q), p, r) == Put(s, p, r)
  {
    assert s.procs[p := q][p := r] == s.procs[p := r];
  }

  /** The calls that change nothing but where their process is. */
  predicate Private(q: Proc, a: Action) {
    || a.Prepare? || a.Config? || a.Signal? || a.SetupDone? || a.SetupFails? || a.Hook? || a.Poll?
    || (a.Stat? && (a.reply != ErrorReply || q.cmd == Stop))
  }

  lemma PrivateNext(s: State, p: Pid, a: Action)
    requires CanAct(s, p, a) && Private(s.procs[p], a)
    ensures Do(s, p, a) == Put(s, p, Next(s, p, a))
  {
  }

  lemma Move(s: State, p: Pid, a: Action) returns (t: State)
    requires Reachable(s) && CanAct(s, p, a) && Private(s.procs[p], a)
    ensures Reachable(t) && t == Put(s, p, Next(s, p, a))
  {
    PrivateNext(s, p, a);
    t := Go(s, Act(p, a));
  }

  function LockedBy(s: State, p: Pid, q: Proc): State {
    Put(s, p, q).(locks := s.locks[q.lock := p])
  }

  lemma Lock(s: State, p: Pid, cmd: Command, k: Key, digests: seq<Bytes>) returns (t: State)
    requires Reachable(s) && p !in s.procs && JobLockFile(k) !in s.locks
    ensures Reachable(t) && t == LockedBy(s, p, NewProc(cmd, k, digests).(pc := AtPrepare))
  {
    var q := NewProc(cmd, k, digests);
    t := Go(s, Spawn(p, cmd, k, digests));
    PutTwice(s, p, q, q.(pc := AtPrepare));
    t := Go(t, Act(p, Acquire));
  }

  /** A new process takes a free lock and comes to ask for the state. */
  lemma Enter(s: State, p: Pid, cmd: Command, k: Key, digests: seq<Bytes>) returns (t: State)
    requires Reachable(s) && p !in s.procs && JobLockFile(k) !in s.locks
    ensures Reachable(t) && t == LockedBy(s, p, NewProc(cmd, k, digests).(pc := AtStat))
  {
    var q := NewProc(cmd, k, digests);
    t := Lock(s, p, cmd, k, digests);
    PutTwice(LockedBy(s, p, q), p, q.(pc := AtPrepare), q.(pc := AtStat));
    PutTwice(s, p, q.(pc := AtPrepare), q.(pc := AtStat));
    t := Move(t, p, Prepare(true));
  }

  /** One process that holds its lock and is about to ask for the state. */
  lemma Asking(cmd: Command, k: Key, digests: seq<Bytes>, containers: map<Bytes, Container>, keys: set<Key>)
    returns (s: State)
    ensures Reachable(s) && s == LockedBy(Fresh(containers, keys), 0, NewProc(cmd, k, digests).(pc := AtStat))
  {
    FreshReachable(containers, keys);
    s := Enter(Fresh(containers, keys), 0, cmd, k, digests);
  }

  lemma MakeBundle(s: State, p: Pid) returns (t: State)
    requires Reachable(s) && CanAct(s, p, Bundle(true, true))
    ensures Reachable(t) && t == Put(s, p, s.procs[p].(pc := AtHook)).(bundles := s.bundles + {s.procs[p].bundle})
  {
    t := Go(s, Act(p, Bundle(true, true)));
  }

  lemma SetUp(s: State, p: Pid) returns (t: State)
    requires Reachable(s) && CanAct(s, p, SetupDone)
    ensures Reachable(t) && t == Put(s, p, s.procs[p].(pc := AtRun)).(bundles := s.bundles + {s.procs[p].bundle})
  {
    var q := s.procs[p];
    t := Move(s, p, SetupDone);
    PutTwice(s, p, q.(pc := AtBundle), q.(pc := AtHook));
    t := MakeBundle(t, p);
    PutTwice(s, p, q.(pc := AtHook), q.(pc := AtRun));
    t := Move(t, p, Hook(true));
  }

  function Launched(q: Proc): Proc { if q.cmd == Run then q.(pc := Attached) else Done(q) }

  lemma StartIt(s: State, p: Pid) returns (t: State)
    requires Reachable(s) && p in s.procs && s.procs[p].pc == AtRun && s.procs[p].id !in s.containers
    ensures Reachable(t) && t.procs == s.procs[p := Launched(s.procs[p])]
    ensures t.containers == s.containers[s.procs[p].id := Container(Running, true)]
    ensures t.locks == s.locks && t.orphans == s.orphans && t.statErrors == s.statErrors
  {
    t := Go(s, Act(p, RunContainer(RunOk)));
  }

  /** From the setup of a process to its running container. */
  lemma Launch(s: State, p: Pid) returns (t: State)
    requires Reachable(s) && CanAct(s, p, SetupDone) && s.procs[p].id !in s.containers
    ensures Reachable(t) && t.procs == s.procs[p := Launched(s.procs[p])]
    ensures t.containers == s.containers[s.procs[p].id := Container(Running, true)]
    ensures t.locks == s.locks && t.orphans == s.orphans && t.statErrors == s.statErrors
  {
    var q := s.procs[p].(pc := AtRun);
    t := SetUp(s, p);
    assert t.procs[p] == q && Launched(q) == Launched(s.procs[p]);
    PutTwice(s, p, q, Launched(q));
    t := StartIt(t, p);
  }

  /** A stop that finds its container signals it, and is about to do something next. */
  lemma Signalled(s: State, p: Pid, ok: bool) returns (t: State)
    requires Reachable(s) && CanAct(s, p, Stat(StateReply)) && s.procs[p].cmd == Stop
    ensures Reachable(t)
    ensures var seen := Saw(s.containers[s.procs[p].id].status);
            t == Put(s, p, s.procs[p].(seen := seen, pc := if ok then AtPoll else AtDelete))
  {
    var q := s.procs[p].(seen := Saw(s.containers[s.procs[p].id].status));
    t := Move(s, p, Stat(StateReply));
    PutTwice(s, p, q.(pc := AtConfig), q.(pc := AtSignal));
    t := Move(t, p, Config(true));
    PutTwice(s, p, q.(pc := AtSignal), q.(pc := if ok then AtPoll else AtDelete));
    t := Move(t, p, Signal(ok));
  }

  lemma KillIt(s: State, p: Pid) returns (t: State)
    requires Reachable(s) && p in s.procs && InRunc(s.procs[p].pc)
    requires forall l :: l in s.locks ==> s.locks[l] == p
    ensures Reachable(t) && t.procs.Keys == s.procs.Keys && t.locks == map[] && t.containers == s.containers
    ensures LeftOf(t, s.procs[p].id) == LeftBehind(s.procs[p], LeftOf(s, s.procs[p].id))
  {
    t := Go(s, Act(p, Kill));
  }

  // ---------------------------------------------------------------- names

  /** In every run, processes of these two keys never use one container at the same time. */
  ghost predicate LockProtects(a: Key, b: Key) {
    forall s, p, r :: Reachable(s) && p in s.procs && r in s.procs && p != r
                      && s.procs[p].key == a && s.procs[r].key == b
                      && Holding(s.procs[p].pc) && Holding(s.procs[r].pc)
                      ==> s.procs[p].id != s.procs[r].id
  }

  lemma TwoHolders(a: Key, b: Key) returns (s: State)
    requires JobLockFile(a) != JobLockFile(b)
    ensures Reachable(s) && 0 in s.procs && 1 in s.procs
    ensures s.procs[0].key == a && s.procs[1].key == b
    ensures Holding(s.procs[0].pc) && Holding(s.procs[1].pc)
  {
    FreshReachable(map[], {});
    s := Go(Fresh(map[], {}), Spawn(0, Start, a, []));
    s := Go(s, Act(0, Acquire));
    s := Go(s, Spawn(1, Stop, b, []));
    s := Go(s, Act(1, Acquire));
  }

  /** The job lock protects a shared container exactly when both keys name it in the same form. */
  lemma LockProtectsIff(a: Key, b: Key)
    ensures LockProtects(a, b) <==> (ContainerId(a) == ContainerId(b) ==> SameForm(a, b))
  {
    if ContainerId(a) == ContainerId(b) {
      SharedContainerLock(a, b);
    }
    if ContainerId(a) == ContainerId(b) ==> SameForm(a, b) {
      forall s, p, r | Reachable(s) && p in s.procs && r in s.procs && p != r
                       && s.procs[p].key == a && s.procs[r].key == b
                       && Holding(s.procs[p].pc) && Holding(s.procs[r].pc)
        ensures s.procs[p].id != s.procs[r].id
      {
        LockHasOneHolder(s, p, r);
        ReachableNames(s, p);
        ReachableNames(s, r);
      }
    } else {
      var s := TwoHolders(a, b);
      ReachableNames(s, 0);
      ReachableNames(s, 1);
    }
  }

  /** In every run, no call of a process of the second key changes whether a process of the first one
      that holds its lock has its bundle and its pidfile. */
  ghost predicate FilesProtected(a: Key, b: Key) {
    forall s, p, r, act :: Reachable(s) && p in s.procs && p != r && CanAct(s, r, act)
                           && s.procs[p].key == a && s.procs[r].key == b && Holding(s.procs[p].pc)
                           ==> SameFiles(s, Do(s, r, act), a)
  }

  predicate SameFiles(s: State, t: State, k: Key) {
    (BundleOf(k) in t.bundles <==> BundleOf(k) in s.bundles) && (PidOf(k) in t.pidfiles <==> PidOf(k) in s.pidfiles)
  }

  lemma OtherCallKeepsFiles(s: State, p: Pid, r: Pid, a: Action)
    requires Reachable(s) && p in s.procs && p != r && CanAct(s, r, a) && Holding(s.procs[p].pc)
    requires || s.procs[p].lock == s.procs[r].lock
             || (!(s.procs[r].bundle <= s.procs[p].bundle) && !(s.procs[r].pidfile <= s.procs[p].pidfile))
    ensures SameFiles(s, Do(s, r, a), s.procs[p].key)
  {
    ReachableNames(s, p);
    ActFilesLocal(s, r, a);
    if s.procs[p].lock == s.procs[r].lock && Holding(s.procs[r].pc) {
      LockHasOneHolder(s, p, r);
    }
  }

  /** A holder of the first lock with its files, while a stop of the second key removes its own. */
  lemma Removes(a: Key, b: Key) returns (s: State)
    requires JobLockFile(a) != JobLockFile(b)
    ensures Reachable(s) && 0 in s.procs && s.procs[0].key == a && Holding(s.procs[0].pc)
    ensures 1 in s.procs && s.procs[1].key == b && s.procs[1].pc == AtDestroy
    ensures s.procs[1].bundle == BundleOf(b) && s.procs[1].pidfile == PidOf(b)
    ensures BundleOf(a) in s.bundles && PidOf(a) in s.pidfiles
  {
    s := Asking(Start, a, [], map[ContainerId(b) := Container(Stopped, true)], {a});
    s := Enter(s, 1, Stop, b, []);
    s := Signalled(s, 1, false);
    s := DeleteIt(s, 1);
  }

  lemma DeleteIt(s: State, p: Pid) returns (t: State)
    requires Reachable(s) && p in s.procs && s.procs[p].pc == AtDelete
    ensures Reachable(t) && t.procs == s.procs[p := s.procs[p].(pc := AtDestroy)]
    ensures t.bundles == s.bundles && t.pidfiles == s.pidfiles
  {
    t := Go(s, Act(p, Delete(true, false)));
  }

  lemma DestroyIt(s: State, p: Pid) returns (t: State)
    requires Reachable(s) && p in s.procs && s.procs[p].pc == AtDestroy
    ensures CanAct(s, p, Destroy(true)) && t == Do(s, p, Destroy(true)) && Reachable(t)
    ensures t.procs == s.procs[p := s.procs[p].(pc := AtRemovePid)]
    ensures t.bundles == RemoveAll(s.bundles, s.procs[p].bundle) && t.pidfiles == s.pidfiles
  {
    t := Go(s, Act(p, Destroy(true)));
  }

  lemma RemovePidIt(s: State, p: Pid) returns (t: State)
    requires p in s.procs && s.procs[p].pc == AtRemovePid
    ensures CanAct(s, p, RemovePid(true)) && t == Do(s, p, RemovePid(true))
    ensures t.pidfiles == RemoveAll(s.pidfiles, s.procs[p].pidfile)
  {
    t := Do(s, p, RemovePid(true));
  }

  lemma NotProtected(s: State, p: Pid, r: Pid, act: Action)
    requires Reachable(s) && p in s.procs && p != r && CanAct(s, r, act) && Holding(s.procs[p].pc)
    requires !SameFiles(s, Do(s, r, act), s.procs[p].key)
    ensures !FilesProtected(s.procs[p].key, s.procs[r].key)
  {
  }

  lemma UnprotectedFiles(a: Key, b: Key)
    requires JobLockFile(a) != JobLockFile(b) && (BundleOf(b) <= BundleOf(a) || PidOf(b) <= PidOf(a))
    ensures !FilesProtected(a, b)
  {
    var s := Removes(a, b);
    var t := DestroyIt(s, 1);
    if BundleOf(b) <= BundleOf(a) {
      NotProtected(s, 0, 1, Destroy(true));
    } else {
      var u := RemovePidIt(t, 1);
      NotProtected(t, 0, 1, RemovePid(true));
    }
  }

  /** The job lock protects the files of the first key against the second exactly if both keys take
      one lock, or no file of the first lies at or below the same file of the second. */
  lemma FilesProtectedIff(a: Key, b: Key)
    ensures FilesProtected(a, b) <==>
            Dotted(a) == Dotted(b) || (!(BundleOf(b) <= BundleOf(a)) && !(PidOf(b) <= PidOf(a)))
  {
    JobLockFileEquality(a, b);
    if JobLockFile(a) == JobLockFile(b) || (!(BundleOf(b) <= BundleOf(a)) && !(PidOf(b) <= PidOf(a))) {
      forall s, p, r, act | Reachable(s) && p in s.procs && p != r && CanAct(s, r, act)
                            && s.procs[p].key == a && s.procs[r].key == b && Holding(s.procs[p].pc)
        ensures SameFiles(s, Do(s, r, act), a)
      {
        ReachableNames(s, p);
        ReachableNames(s, r);
        OtherCallKeepsFiles(s, p, r, act);
      }
    } else {
      UnprotectedFiles(a, b);
    }
  }

  // ---------------------------------------------------------------- stat errors

  /** One error from StatProcess is enough to orphan a running process. */
  lemma StatErrorOrphans(k: Key) returns (s: State)
    ensures Reachable(s) && ContainerId(k) in s.orphans && ContainerId(k) in s.statErrors
    ensures s.containers == map[] && 0 in s.procs && s.procs[0].key == k && s.procs[0].id == ContainerId(k)
    ensures s.procs[0].pc == AtDelete && s.procs[0].cmd == Start && s.procs[0].vols == [] && s.procs[0].vol == 0
  {
    s := Asking(Start, k, [], map[ContainerId(k) := Container(Running, true)], {k});
    s := Go(s, Act(0, Stat(ErrorReply)));
    s := Go(s, Act(0, RemoveState(true)));
    assert s.containers == map[];
  }

  /** And to start a second one beside it. */
  lemma StatErrorDoubles(k: Key) returns (s: State)
    ensures Reachable(s) && ContainerId(k) in s.orphans && RunningIn(s, ContainerId(k))
    ensures ContainerId(k) in s.statErrors && 0 in s.procs && s.procs[0].key == k
  {
    s := StatErrorOrphans(k);
    s := Go(s, Act(0, Delete(true, false)));
    s := Go(s, Act(0, Destroy(true)));
    s := Go(s, Act(0, RemovePid(true)));
    s := Launch(s, 0);
  }

  // ---------------------------------------------------------------- runc processes left behind

  lemma AttachedRun(k: Key) returns (s: State)
    ensures Reachable(s) && s.procs.Keys == {0} && s.procs[0].pc == Attached && s.procs[0].id == ContainerId(k)
    ensures s.procs[0].cmd == Run && s.locks == map[JobLockFile(k) := 0]
    ensures s.containers == map[ContainerId(k) := Container(Running, true)]
  {
    s := Asking(Run, k, [], map[], {});
    s := Move(s, 0, Stat(NilReply));
    s := Launch(s, 0);
  }

  /** A second stop has asked for the state and polls. */
  lemma SecondStop(s: State, k: Key) returns (t: State)
    requires Reachable(s) && s.procs.Keys == {0} && s.locks == map[]
    requires ContainerId(k) in s.containers && s.containers[ContainerId(k)].readable
    ensures Reachable(t) && 1 in t.procs && t.procs[1].key == k && t.procs[1].id == ContainerId(k)
    ensures t.procs[1].cmd == Stop && t.procs[1].pc == AtPoll
    ensures t.containers == s.containers && t.unattended == s.unattended
  {
    t := Enter(s, 1, Stop, k, []);
    t := Signalled(t, 1, true);
  }

  /** A second stop finds no container and succeeds. */
  lemma LateStop(s: State, k: Key) returns (t: State)
    requires Reachable(s) && s.procs.Keys == {0} && s.locks == map[] && ContainerId(k) !in s.containers
    ensures Reachable(t) && 1 in t.procs && t.procs[1].key == k && t.procs[1].cmd == Stop
    ensures t.procs[1].pc == AtPost && t.procs[1].res == Succeeded
    ensures t.containers == s.containers && t.unattended == s.unattended
    ensures t.bundles == s.bundles && t.pidfiles == s.pidfiles
  {
    t := Enter(s, 1, Stop, k, []);
    t := Move(t, 1, Stat(NilReply));
  }

  lemma PollsNil(s: State, p: Pid) returns (t: State)
    requires Reachable(s) && p in s.procs && s.procs[p].pc == AtPoll && s.procs[p].id !in s.containers
    ensures Reachable(t) && t == Put(s, p, s.procs[p].(pc := Panicked))
  {
    t := Move(s, p, Poll(NilReply));
  }

  lemma KilledRun(k: Key) returns (s: State)
    ensures Reachable(s) && s.procs.Keys == {0} && s.locks == map[] && LeftOf(s, ContainerId(k)).attends
    ensures s.containers == map[ContainerId(k) := Container(Running, true)]
  {
    s := AttachedRun(k);
    s := KillIt(s, 0);
  }

  lemma ExitAndRemove(s: State, id: Bytes) returns (t: State)
    requires Reachable(s) && id in s.containers && Alive(s.containers[id].status) && LeftOf(s, id).attends
    ensures Reachable(t) && t.procs == s.procs && id !in t.containers
  {
    t := Go(s, ContainerExits(id));
    t := Go(t, LeftRemoves(id));
  }

  /** After a `bpm run` is killed while attached, a later stop can dereference a nil state. */
  lemma KilledRunPanicsStop(k: Key) returns (s: State)
    ensures Reachable(s) && 1 in s.procs && s.procs[1].cmd == Stop && s.procs[1].pc == Panicked
    ensures s.procs[1].key == k
  {
    s := KilledRun(k);
    s := SecondStop(s, k);
    s := ExitAndRemove(s, ContainerId(k));
    s := PollsNil(s, 1);
  }

  /** After a stop is killed while runc deletes the container, a second stop can, too. */
  lemma KilledStopPanicsStop(k: Key) returns (s: State)
    ensures Reachable(s) && 1 in s.procs && s.procs[1].cmd == Stop && s.procs[1].pc == Panicked
    ensures s.procs[1].key == k
  {
    s := Asking(Stop, k, [], map[ContainerId(k) := Container(Running, true)], {k});
    s := Signalled(s, 0, false);
    s := KillIt(s, 0);
    s := SecondStop(s, k);
    s := Go(s, LeftDeletes(ContainerId(k)));
    s := PollsNil(s, 1);
  }

  lemma StartAtRun(k: Key) returns (s: State)
    ensures Reachable(s) && s.procs.Keys == {0} && s.procs[0].pc == AtRun && s.procs[0].id == ContainerId(k)
    ensures s.procs[0].cmd == Start && s.locks == map[JobLockFile(k) := 0] && s.containers == map[]
  {
    s := Asking(Start, k, [], map[], {});
    s := Move(s, 0, Stat(NilReply));
    s := SetUp(s, 0);
  }

  lemma KilledStart(k: Key) returns (s: State)
    ensures Reachable(s) && s.procs.Keys == {0} && s.locks == map[] && s.containers == map[]
    ensures MayAppear(s, ContainerId(k))
  {
    s := StartAtRun(k);
    s := KillIt(s, 0);
  }

  lemma Appear(s: State, id: Bytes) returns (t: State)
    requires Reachable(s) && MayAppear(s, id) && id !in s.containers
    ensures Reachable(t) && RunningIn(t, id) && t.procs == s.procs
  {
    t := Go(s, LeftLaunches(id, Running));
  }

  /** After a start is killed while runc runs the container, a stop can succeed and the container
      run nevertheless. */
  lemma KilledStartOutlivesStop(k: Key) returns (s: State)
    ensures Reachable(s) && 1 in s.procs && s.procs[1].cmd == Stop && s.procs[1].key == k
    ensures s.procs[1].pc == AtPost && s.procs[1].res == Succeeded && RunningIn(s, ContainerId(k))
  {
    s := KilledStart(k);
    s := LateStop(s, k);
    s := Appear(s, ContainerId(k));
  }

  // ---------------------------------------------------------------- half-failed removals

  lemma HalfRemoved(k: Key) returns (s: State)
    ensures Reachable(s) && s.procs.Keys == {0} && s.locks == map[] && s.containers == map[]
    ensures BundleOf(k) in s.bundles && PidOf(k) in s.pidfiles
  {
    s := Asking(Stop, k, [], map[ContainerId(k) := Container(Stopped, true)], {k});
    s := Signalled(s, 0, false);
    s := Go(s, Act(0, Delete(true, false)));
    s := Go(s, Act(0, Destroy(false)));
    s := Go(s, Act(0, Exit));
  }

  /** After a removal that failed half way, a second stop succeeds and leaves bundle and pidfile. */
  lemma StopSucceedsOverRemains(k: Key) returns (s: State)
    ensures Reachable(s) && 1 in s.procs && s.procs[1].cmd == Stop && s.procs[1].pc == AtPost
    ensures s.procs[1].res == Succeeded && BundleOf(k) in s.bundles && PidOf(k) in s.pidfiles
  {
    s := HalfRemoved(k);
    s := LateStop(s, k);
  }

  // ---------------------------------------------------------------- volume locks that stay locked

  /** If unlocking a volume fails, a process can block on a lock of its own. */
  lemma LeakedLockDeadlocks(k: Key, digest: Bytes) returns (s: State)
    ensures Reachable(s) && s.leaked && s.procs.Keys == {0} && Blocked(s, 0)
    ensures forall l :: l in s.locks ==> s.locks[l] == 0
  {
    LockFilesDisjoint(k, digest);
    s := Asking(Start, k, [digest, digest], map[], {});
    s := Move(s, 0, Stat(NilReply));
    s := Leak(s, 0, VolumeLockFile(digest));
  }

  lemma Leak(s: State, p: Pid, l: Bytes) returns (t: State)
    requires Reachable(s) && p in s.procs && s.procs[p].pc == AtVolume && s.procs[p].vol < |s.procs[p].vols|
    requires s.procs[p].vols[s.procs[p].vol] == l && l !in s.locks
    ensures Reachable(t) && t.leaked && t.locks == s.locks[l := p] && t.procs.Keys == s.procs.Keys
    ensures t.procs[p].pc == AtVolume && t.procs[p].vols == s.procs[p].vols && t.procs[p].vol == s.procs[p].vol + 1
  {
    t := TakeVolume(s, p);
    t := ShareAndLeak(t, p);
  }

  lemma ShareAndLeak(s: State, p: Pid) returns (t: State)
    requires Reachable(s) && p in s.procs && s.procs[p].pc == AtShare && s.procs[p].vol < |s.procs[p].vols|
    ensures Reachable(t) && t.leaked && t.locks == s.locks
    ensures t.procs == s.procs[p := s.procs[p].(pc := AtVolume, vol := s.procs[p].vol + 1)]
  {
    ShareLeaks(s, p);
    t := Go(s, Act(p, Share(true, false)));
  }

  lemma ShareLeaks(s: State, p: Pid)
    requires p in s.procs && s.procs[p].pc == AtShare && s.procs[p].vol < |s.procs[p].vols|
    ensures CanAct(s, p, Share(true, false))
    ensures var q := s.procs[p];
            Do(s, p, Share(true, false)) == Put(s, p, q.(pc := AtVolume, vol := q.vol + 1)).(leaked := true)
  {
    var q := s.procs[p];
    assert Next(s, p, Share(true, false)) == q.(pc := AtVolume, vol := q.vol + 1);
  }

  lemma TakeVolume(s: State, p: Pid) returns (t: State)
    requires Reachable(s) && p in s.procs && s.procs[p].pc == AtVolume && s.procs[p].vol < |s.procs[p].vols|
    requires s.procs[p].vols[s.procs[p].vol] !in s.locks
    ensures Reachable(t) && t.locks == s.locks[s.procs[p].vols[s.procs[p].vol] := p]
    ensures t.procs == s.procs[p := s.procs[p].(pc := AtShare)]
  {
    t := Go(s, Act(p, LockVolume));
  }

  // ---------------------------------------------------------------- exit statuses

  /** A `run` whose setup fails reports an error and exits with status 0. */
  lemma FailedRunExitsZero(k: Key) returns (s: State)
    ensures Reachable(s) && 0 in s.procs && s.procs[0].cmd == Run && s.procs[0].res == Failed(0, AtVolume, false)
  {
    s := Asking(Run, k, [], map[], {});
    s := Move(s, 0, Stat(NilReply));
    s := Move(s, 0, SetupFails);
  }

  /** So does a `run` whose runc exits with 0 while its output cannot be copied. */
  lemma UncopiedRunExitsZero(k: Key) returns (s: State)
    ensures Reachable(s) && 0 in s.procs && s.procs[0].cmd == Run && s.procs[0].res == Failed(0, Attached, true)
  {
    s := AttachedRun(k);
    s := Go(s, ContainerExits(ContainerId(k)));
    s := Go(s, Act(0, ContainerReturns(0, true, false)));
  }
}
