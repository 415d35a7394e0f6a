/** Any number of `bpm start`, `bpm stop` and `bpm run` processes over one set of containers,
    bundles, pidfiles and lock files, as a state machine with one step per client call:
    src/bpm/commands/{start,stop,run,root}.go and src/bpm/runc/lifecycle/lifecycle.go. */
module Protocol {
  import opened JobId
  import opened Names
  import opened Files

  type Pid = nat

  // ---------------------------------------------------------------- data

  /** The statuses of the OCI runtime specification, and runc's own "paused". */
  datatype Status = Creating | Created | Running | Paused | Stopped

  /** A container record of runc. An unreadable one makes `runc state` fail. */
  datatype Container = Container(status: Status, readable: bool)

  datatype Command = Start | Stop | Run

  /** What StatProcess told a bpm process. */
  datatype Seen = NotAsked | SawNone | Saw(status: Status) | SawError

  /** The client call a bpm process makes next. */
  datatype Pc =
    | AtLock | AtPrepare | AtStat | AtConfig
    | AtRemoveState | AtDelete | AtDestroy | AtRemovePid
    | AtVolume | AtShare | AtBundle | AtHook | AtRun | Attached
    | AtSignal | AtPoll | AtSelect
    | AtPost | Exiting | Panicked | Exited

  /** How a process ended. `copying` marks the one error that comes from copying the output of a
      runc that itself exited with 0; a killed process has the result it had before. */
  datatype Result =
    | Pending | Succeeded
    | Failed(code: int, at: Pc, copying: bool)
    | Killed(at: Pc, before: Result)

  /** What the runc processes may still do to a container whose bpm processes were killed while they
      waited for them: a runc child outlives bpm and does not inherit the lock.
      - deletes: a `runc delete --force` may remove the container;
      - launches: a `runc run` may create it, start it and, if that fails, remove it;
      - attends: a foreground runc may remove it once it has exited. */
  datatype Survivors = Survivors(deletes: bool, launches: bool, attends: bool)

  const NO_SURVIVORS := Survivors(false, false, false)

  /** A bpm process: its container ID, its bundle and pidfile, the job lock file and the lock files of
      its shared volumes in order; the next call; the volume it is at; and how it ended. */
  datatype Proc = Proc(
    cmd: Command, key: Key, id: Bytes, bundle: Path, pidfile: Path, lock: Bytes, vols: seq<Bytes>,
    pc: Pc, seen: Seen, vol: nat, res: Result)

  /** The shared state. `unattended` says what runc processes were left behind, per container, and
      `writers` which pidfiles they may write. The last four fields only record history:
      - orphans: containers whose record was dropped while their process was alive;
      - abandoned: keys for which some removal failed or was killed half way;
      - statErrors: containers for which some start or run got an error from StatProcess;
      - leaked: some volume lock could not be unlocked. */
  datatype State = State(
    procs: map<Pid, Proc>,
    locks: map<Bytes, Pid>,
    containers: map<Bytes, Container>,
    bundles: set<Path>,
    pidfiles: set<Path>,
    unattended: map<Bytes, Survivors>,
    writers: set<Path>,
    orphans: set<Bytes>,
    abandoned: set<Key>,
    statErrors: set<Bytes>,
    leaked: bool)

  datatype StatReply = StateReply | NilReply | ErrorReply

  datatype RunReply = RunOk | RunError(code: int, left: LeftOver)

  /** What a failed `runc run` leaves of a container. */
  datatype LeftOver = Nothing | Left(status: Status)

  /** One client call of a bpm process, with the reply it got. */
  datatype Action =
    | Acquire | LockFails
    | Prepare(ok: bool)
    | Stat(reply: StatReply)
    | Config(ok: bool)
    | RemoveState(ok: bool)
    | Delete(ok: bool, killed: bool)
    | Destroy(ok: bool)
    | RemovePid(ok: bool)
    | LockVolume | Share(ok: bool, unlocked: bool) | SetupFails | SetupDone
    | Bundle(ok: bool, made: bool)
    | Hook(ok: bool)
    | RunContainer(run: RunReply)
    | ContainerReturns(status: int, removed: bool, copied: bool)
    | Signal(ok: bool)
    | Poll(reply: StatReply)
    | Tick | Timeout
    | Unlock(ok: bool)
    | Exit
    | Kill

  datatype Event =
    | Spawn(p: Pid, cmd: Command, key: Key, digests: seq<Bytes>)
    | Act(p: Pid, a: Action)
    | ContainerExits(id: Bytes)
    | RecordBreaks(id: Bytes)
    | LeftDeletes(id: Bytes)
    | LeftRemoves(id: Bytes)
    | LeftLaunches(id: Bytes, status: Status)
    | LeftProceeds(id: Bytes, status: Status)
    | LeftWritesPidfile(pidfile: Path)

  // ---------------------------------------------------------------- helpers

  predicate Alive(st: Status) { st != Stopped }

  /** StatProcess reports "failed" for every status that is not creating, created or running. */
  predicate ReportedFailed(st: Status) { st == Stopped || st == Paused }

  predicate Removing(pc: Pc) { pc == AtDelete || pc == AtDestroy || pc == AtRemovePid }

  predicate InSetup(pc: Pc) { pc == AtVolume || pc == AtShare || pc == AtBundle || pc == AtHook }

  /** The process is between acquiring and releasing its job lock. */
  predicate Holding(pc: Pc) { pc !in {AtLock, Exiting, Panicked, Exited} }

  function NewProc(cmd: Command, key: Key, digests: seq<Bytes>): Proc {
    var vols := seq(|digests|, i requires 0 <= i < |digests| => VolumeLockFile(digests[i]));
    Proc(cmd, key, ContainerId(key), BundleOf(key), PidOf(key), JobLockFile(key), vols,
         AtLock, NotAsked, 0, Pending)
  }

  /** RunE returned an error: PostRunE is skipped and the process goes on to exit. */
  function Failing(q: Proc, code: int): Proc { q.(pc := Exiting, res := Failed(code, q.pc, false)) }

  /** Runc exited with 0, but os/exec could not copy its output: RunContainer returns the status 0
      together with the error. */
  function FailingCopy(q: Proc): Proc { q.(pc := Exiting, res := Failed(0, q.pc, true)) }

  function Done(q: Proc): Proc { q.(pc := AtPost, res := Succeeded) }

  /** The exit status of a process whose setupProcess failed: RunProcess then returns status 0
      together with the error. */
  function SetupCode(cmd: Command): int { if cmd == Run then 0 else 1 }

  // ---------------------------------------------------------------- steps of one process

  /** The replies the foreign parts can give. Every client call may fail; `runc state` describes
      a readable container, or reports that none exists. */
  predicate ReplyPossible(s: State, id: Bytes, reply: StatReply) {
    match reply
    case StateReply => id in s.containers && s.containers[id].readable
    case NilReply => id !in s.containers
    case ErrorReply => true
  }

  predicate CanAct(s: State, p: Pid, a: Action)
  {
    p in s.procs &&
    var q := s.procs[p];
    match a
    case Acquire => q.pc == AtLock && q.lock !in s.locks
    case LockFails => q.pc == AtLock
    case Prepare(_) => q.pc == AtPrepare
    case Stat(reply) => q.pc == AtStat && ReplyPossible(s, q.id, reply)
    case Config(_) => q.pc == AtConfig
    case RemoveState(_) => q.pc == AtRemoveState
    case Delete(_, _) => q.pc == AtDelete
    case Destroy(_) => q.pc == AtDestroy
    case RemovePid(_) => q.pc == AtRemovePid
    case LockVolume => q.pc == AtVolume && q.vol < |q.vols| && q.vols[q.vol] !in s.locks
    case Share(_, _) => q.pc == AtShare && q.vol < |q.vols|
    case SetupFails => q.pc == AtVolume
    case SetupDone => q.pc == AtVolume && q.vol == |q.vols|
    case Bundle(_, _) => q.pc == AtBundle
    case Hook(_) => q.pc == AtHook
    case RunContainer(r) => q.pc == AtRun && (if r.RunOk? then q.id !in s.containers else r.code != 0)
    case ContainerReturns(status, removed, _) =>
      && q.pc == Attached
      && (q.id in s.containers && Alive(s.containers[q.id].status) ==> status != 0 && !removed)
    case Signal(_) => q.pc == AtSignal
    case Poll(reply) => q.pc == AtPoll && ReplyPossible(s, q.id, reply)
    case Tick => q.pc == AtSelect
    case Timeout => q.pc == AtSelect
    case Unlock(_) => q.pc == AtPost
    case Exit => q.pc == Exiting || q.pc == Panicked
    case Kill => q.pc != Exited
  }

  /** What an answer of StatProcess tells a process. */
  function Learned(s: State, q: Proc, reply: StatReply): Seen
    requires ReplyPossible(s, q.id, reply)
  {
    match reply
    case NilReply => SawNone
    case ErrorReply => SawError
    case StateReply => Saw(s.containers[q.id].status)
  }

  /** The branch each command takes on the answer of StatProcess. */
  function Answered(q: Proc, seen: Seen): Proc {
    var r := q.(seen := seen);
    match seen
    case NotAsked => r
    case SawNone => if q.cmd == Stop then Done(r) else r.(pc := AtVolume)
    case SawError => if q.cmd == Stop then Failing(r, 1) else r.(pc := AtRemoveState)
    case Saw(st) =>
      if q.cmd == Stop then r.(pc := AtConfig)
      else if st == Running then Done(r)
      else if ReportedFailed(st) then r.(pc := AtDelete)
      else r.(pc := AtVolume)
  }

  /** The branch of StopProcess on one ContainerState call: a nil state is dereferenced. */
  function AfterPoll(s: State, q: Proc, reply: StatReply): Pc
    requires ReplyPossible(s, q.id, reply)
  {
    match reply
    case NilReply => Panicked
    case ErrorReply => AtSelect
    case StateReply => if s.containers[q.id].status == Stopped then AtDelete else AtSelect
  }

  /** Where the process is after a call other than asking for the state. */
  function Advance(q: Proc, a: Action): Proc
    requires !a.Stat? && !a.Poll?
  {
    match a
    case Acquire => q.(pc := AtPrepare)
    case LockFails => Failing(q, 1)
    case Prepare(ok) => if ok then q.(pc := AtStat) else Failing(q, 1)
    case Config(ok) => if ok then q.(pc := AtSignal) else Failing(q, 1)
    case RemoveState(ok) => if ok then q.(pc := AtDelete) else Failing(q, 1)
    case Delete(ok, _) => if ok then q.(pc := AtDestroy) else Failing(q, 1)
    case Destroy(ok) => if ok then q.(pc := AtRemovePid) else Failing(q, 1)
    case RemovePid(ok) =>
      if !ok then Failing(q, 1) else if q.cmd == Stop then Done(q) else q.(pc := AtVolume)
    case LockVolume => q.(pc := AtShare)
    case Share(ok, _) => if ok then q.(pc := AtVolume, vol := q.vol + 1) else Failing(q, SetupCode(q.cmd))
    case SetupFails => Failing(q, SetupCode(q.cmd))
    case SetupDone => q.(pc := AtBundle)
    case Bundle(ok, _) => if ok then q.(pc := AtHook) else Failing(q, SetupCode(q.cmd))
    case Hook(ok) => if ok then q.(pc := AtRun) else Failing(q, SetupCode(q.cmd))
    case RunContainer(RunOk) => if q.cmd == Run then q.(pc := Attached) else Done(q)
    case RunContainer(RunError(code, _)) => Failing(q, if q.cmd == Run then code else 1)
    case ContainerReturns(status, _, copied) =>
      if status != 0 then Failing(q, status) else if copied then Done(q) else FailingCopy(q)
    case Signal(ok) => q.(pc := if ok then AtPoll else AtDelete)
    case Tick => q.(pc := AtPoll)
    case Timeout => q.(pc := AtDelete)
    case Unlock(ok) => if ok then q.(pc := Exiting) else Failing(q, 1)
    case Exit => q.(pc := Exited)
    case Kill => q.(pc := Exited, res := Killed(q.pc, q.res))
  }

  /** Where the process is after a call. */
  function Next(s: State, p: Pid, a: Action): Proc
    requires CanAct(s, p, a)
  {
    var q := s.procs[p];
    match a
    case Stat(reply) => Answered(q, Learned(s, q, reply))
    case Poll(reply) => q.(pc := AfterPoll(s, q, reply))
    case _ => Advance(q, a)
  }

  /** The lock table after a call. The kernel releases the locks of a process that ends. */
  function LocksAfter(s: State, p: Pid, a: Action): map<Bytes, Pid>
    requires CanAct(s, p, a)
  {
    var q := s.procs[p];
    match a
    case Acquire => s.locks[q.lock := p]
    case LockVolume => s.locks[q.vols[q.vol] := p]
    case Share(_, unlocked) => if unlocked then s.locks - {q.vols[q.vol]} else s.locks
    case Unlock(ok) => if ok then s.locks - {q.lock} else s.locks
    case Exit => map l | l in s.locks && s.locks[l] != p :: s.locks[l]
    case Kill => map l | l in s.locks && s.locks[l] != p :: s.locks[l]
    case _ => s.locks
  }

  /** The containers after a call: removing state.json drops the record, a failed forced delete
      may have killed the process, runc refuses to run an ID that exists, and a foreground runc
      removes its container if it can. */
  function ContainersAfter(s: State, q: Proc, a: Action): map<Bytes, Container> {
    match a
    case RemoveState(ok) => if ok then s.containers - {q.id} else s.containers
    case Delete(ok, killed) =>
      if ok then s.containers - {q.id}
      else if killed && q.id in s.containers then s.containers[q.id := s.containers[q.id].(status := Stopped)]
      else s.containers
    case RunContainer(RunOk) => s.containers[q.id := Container(Running, true)]
    case RunContainer(RunError(_, left)) =>
      if q.id !in s.containers && left.Left? then s.containers[q.id := Container(left.status, true)]
      else s.containers
    case ContainerReturns(_, removed, _) => if removed then s.containers - {q.id} else s.containers
    case _ => s.containers
  }

  /** os.RemoveAll removes a path and everything below it. */
  function RemoveAll(files: set<Path>, p: Path): set<Path> { set f | f in files && !(p <= f) }

  function BundlesAfter(s: State, q: Proc, a: Action): set<Path> {
    match a
    case Destroy(ok) => if ok then RemoveAll(s.bundles, q.bundle) else s.bundles
    case Bundle(ok, made) => if ok || made then s.bundles + {q.bundle} else s.bundles
    case _ => s.bundles
  }

  function PidfilesAfter(s: State, q: Proc, a: Action): set<Path> {
    match a
    case RemovePid(ok) => if ok then RemoveAll(s.pidfiles, q.pidfile) else s.pidfiles
    case RunContainer(RunOk) => if q.cmd == Start then s.pidfiles + {q.pidfile} else s.pidfiles
    case _ => s.pidfiles
  }

  function OrphansAfter(s: State, q: Proc, a: Action): set<Bytes> {
    if a == RemoveState(true) && q.id in s.containers && Alive(s.containers[q.id].status)
    then s.orphans + {q.id} else s.orphans
  }

  function LeftOf(s: State, id: Bytes): Survivors {
    if id in s.unattended then s.unattended[id] else NO_SURVIVORS
  }

  /** The calls in which bpm waits for a runc that changes containers. */
  predicate InRunc(pc: Pc) { pc == AtDelete || pc == AtRun || pc == Attached }

  /** What is left once a process is killed in such a call. */
  function LeftBehind(q: Proc, left: Survivors): Survivors {
    match q.pc
    case AtDelete => left.(deletes := true)
    case AtRun => if q.cmd == Run then left.(launches := true, attends := true) else left.(launches := true)
    case _ => left.(attends := true)
  }

  function UnattendedAfter(s: State, q: Proc, a: Action): map<Bytes, Survivors> {
    if a.Kill? && InRunc(q.pc) then s.unattended[q.id := LeftBehind(q, LeftOf(s, q.id))] else s.unattended
  }

  /** A runc left behind may create the container. */
  predicate MayAppear(s: State, id: Bytes) { LeftOf(s, id).launches }

  /** A detached `runc run` left behind may still write the pidfile. */
  function WritersAfter(s: State, q: Proc, a: Action): set<Path> {
    if a.Kill? && q.pc == AtRun && q.cmd == Start then s.writers + {q.pidfile} else s.writers
  }

  /** The call did not end well: the command returned an error or the process was killed. */
  predicate Breaks(a: Action) {
    a.Kill? || (a.Delete? && !a.ok) || (a.Destroy? && !a.ok) || (a.RemovePid? && !a.ok)
  }

  function Do(s: State, p: Pid, a: Action): State
    requires CanAct(s, p, a)
  {
    var q := s.procs[p];
    State(
      s.procs[p := Next(s, p, a)],
      LocksAfter(s, p, a),
      ContainersAfter(s, q, a),
      BundlesAfter(s, q, a),
      PidfilesAfter(s, q, a),
      UnattendedAfter(s, q, a),
      WritersAfter(s, q, a),
      OrphansAfter(s, q, a),
      if Breaks(a) && Removing(q.pc) then s.abandoned + {q.key} else s.abandoned,
      if a == Stat(ErrorReply) && q.cmd != Stop then s.statErrors + {q.id} else s.statErrors,
      s.leaked || (a.Share? && !a.unlocked))
  }

  // ---------------------------------------------------------------- events and runs

  /** A `runc run` that is under way removes a container it could not start; a foreground runc
      removes one that has exited. */
  predicate Removable(left: Survivors, st: Status) {
    (st == Stopped && (left.attends || left.launches)) || ((st == Creating || st == Created) && left.launches)
  }

  predicate Proceeds(from: Status, to: Status) {
    (from == Creating && (to == Created || to == Running)) || (from == Created && to == Running)
  }

  /** A container's process may end at any time and its record may become unreadable. Only the runc
      processes that killed bpm processes left behind change containers on their own. */
  predicate Enabled(s: State, e: Event) {
    match e
    case Spawn(p, _, _, _) => p !in s.procs
    case Act(p, a) => CanAct(s, p, a)
    case ContainerExits(id) => id in s.containers && Alive(s.containers[id].status)
    case RecordBreaks(id) => id in s.containers
    case LeftDeletes(id) => id in s.containers && LeftOf(s, id).deletes
    case LeftRemoves(id) => id in s.containers && Removable(LeftOf(s, id), s.containers[id].status)
    case LeftLaunches(id, _) => id !in s.containers && LeftOf(s, id).launches
    case LeftProceeds(id, st) =>
      id in s.containers && LeftOf(s, id).launches && Proceeds(s.containers[id].status, st)
    case LeftWritesPidfile(f) => f in s.writers
  }

  function WithStatus(s: State, id: Bytes, st: Status): State
    requires id in s.containers
  {
    s.(containers := s.containers[id := s.containers[id].(status := st)])
  }

  function Apply(s: State, e: Event): State
    requires Enabled(s, e)
  {
    match e
    case Spawn(p, cmd, key, digests) => s.(procs := s.procs[p := NewProc(cmd, key, digests)])
    case Act(p, a) => Do(s, p, a)
    case ContainerExits(id) => WithStatus(s, id, Stopped)
    case RecordBreaks(id) => s.(containers := s.containers[id := s.containers[id].(readable := false)])
    case LeftDeletes(id) => s.(containers := s.containers - {id})
    case LeftRemoves(id) => s.(containers := s.containers - {id})
    case LeftLaunches(id, st) => s.(containers := s.containers[id := Container(st, true)])
    case LeftProceeds(id, st) => WithStatus(s, id, st)
    case LeftWritesPidfile(f) => s.(pidfiles := s.pidfiles + {f})
  }

  predicate Valid(s: State, es: seq<Event>)
    decreases es
  {
    es == [] || (Enabled(s, es[0]) && Valid(Apply(s, es[0]), es[1..]))
  }

  function After(s: State, es: seq<Event>): State
    requires Valid(s, es)
    decreases es
  {
    if es == [] then s else After(Apply(s, es[0]), es[1..])
  }

  /** No bpm process has run yet; containers, bundles and pidfiles may be there already. */
  predicate Initial(s: State) {
    && s.procs == map[] && s.locks == map[]
    && s.unattended == map[] && s.writers == {}
    && s.orphans == {} && s.abandoned == {} && s.statErrors == {} && !s.leaked
  }

  ghost predicate Reachable(s: State) {
    exists s0, es :: Initial(s0) && Valid(s0, es) && After(s0, es) == s
  }
}
