/** What other bpm processes, containers and runc processes left behind make, exactly, of the container
    and the files of a process that holds its job lock. */
module Interference {
  import opened JobId
  import opened Files
  import opened Protocol
  import opened Invariants
  import opened Safety

  /** What a process may want to know about its container and files. */
  datatype Question =
    | Present(id: Bytes) | Living(id: Bytes) | Orphaned(id: Bytes)
    | HasBundle(f: Path) | HasPidfile(f: Path)

  predicate Answer(c: Question, s: State) {
    match c
    case Present(id) => id in s.containers
    case Living(id) => id in s.containers && Alive(s.containers[id].status)
    case Orphaned(id) => id in s.orphans
    case HasBundle(f) => f in s.bundles
    case HasPidfile(f) => f in s.pidfiles
  }

  predicate About(c: Question, q: Proc) {
    match c
    case HasBundle(f) => f == q.bundle
    case HasPidfile(f) => f == q.pidfile
    case _ => c.id == q.id
  }

  predicate AboutFiles(c: Question) { c.HasBundle? || c.HasPidfile? }

  /** Processes that could change the answer share a lock. */
  ghost predicate CompatibleFor(c: Question, s: State) {
    if AboutFiles(c) then FilesCompatible(s) else Compatible(s)
  }

  /** The events that make the answer yes. All of them are of a `runc run` left behind. */
  predicate TurnsOn(c: Question, e: Event) {
    match c
    case Present(id) => e.LeftLaunches? && e.id == id
    case Living(id) => e.LeftLaunches? && e.id == id && Alive(e.status)
    case HasPidfile(f) => e == LeftWritesPidfile(f)
    case _ => false
  }

  /** The events that make the answer no. */
  predicate TurnsOff(c: Question, e: Event) {
    match c
    case Present(id) => e == LeftDeletes(id) || e == LeftRemoves(id)
    case Living(id) => e == ContainerExits(id) || e == LeftDeletes(id) || e == LeftRemoves(id)
    case _ => false
  }

  /** The answer was yes and no event turned it off, or one turned it on and none after it off. */
  ghost predicate Latched(c: Question, before: bool, es: seq<Event>) {
    || (before && NoneTurnsOff(c, es, 0))
    || exists i :: 0 <= i < |es| && TurnsOn(c, es[i]) && NoneTurnsOff(c, es, i + 1)
  }

  predicate NoneTurnsOff(c: Question, es: seq<Event>, from: nat) {
    forall j :: from <= j < |es| ==> !TurnsOff(c, es[j])
  }

  lemma NoneTurnsOffTail(c: Question, es: seq<Event>, i: nat)
    requires i < |es|
    ensures NoneTurnsOff(c, es[1..], i) <==> NoneTurnsOff(c, es, i + 1)
  {
    if NoneTurnsOff(c, es[1..], i) {
      forall j | i + 1 <= j < |es| ensures !TurnsOff(c, es[j]) {
        assert es[j] == es[1..][j - 1];
      }
    }
  }

  /** The first event, then the rest. */
  lemma LatchedStep(c: Question, before: bool, es: seq<Event>)
    requires es != []
    ensures Latched(c, before, es) <==> Latched(c, TurnsOn(c, es[0]) || (before && !TurnsOff(c, es[0])), es[1..])
  {
    NoneTurnsOffTail(c, es, 0);
    forall i | 0 <= i < |es| - 1
      ensures (TurnsOn(c, es[1..][i]) && NoneTurnsOff(c, es[1..], i + 1)) <==>
              (TurnsOn(c, es[i + 1]) && NoneTurnsOff(c, es, i + 2))
    {
      NoneTurnsOffTail(c, es, i + 1);
    }
    if i :| 0 <= i < |es| && TurnsOn(c, es[i]) && NoneTurnsOff(c, es, i + 1) {
      if i > 0 {
        assert es[1..][i - 1] == es[i];
      }
    }
    if i :| 0 <= i < |es[1..]| && TurnsOn(c, es[1..][i]) && NoneTurnsOff(c, es[1..], i + 1) {
      assert es[i + 1] == es[1..][i];
    }
  }

  // ---------------------------------------------------------------- one event

  /** The event is of another process or the environment, or a call of `p` in StopProcess that does
      not end in the nil dereference. */
  predicate Watching(e: Event, p: Pid) {
    By(e, p) ==>
      e.a == Config(true) || e.a.Signal? || e.a.Tick? || e.a.Timeout? || (e.a.Poll? && e.a.reply != NilReply)
  }

  /** The process goes on watching, and the answer is as told. */
  predicate Watched(t: State, p: Pid, q: Proc, c: Question, answer: bool) {
    && p in t.procs && SameNames(q, t.procs[p]) && Holding(t.procs[p].pc)
    && (Answer(c, t) <==> answer)
  }

  lemma OwnCallWatches(s: State, p: Pid, a: Action, c: Question)
    requires CanAct(s, p, a) && Holding(s.procs[p].pc) && Watching(Act(p, a), p)
    ensures Watched(Do(s, p, a), p, s.procs[p], c, Answer(c, s))
  {
    var t := Do(s, p, a);
    assert t.containers == s.containers && t.orphans == s.orphans;
    assert t.bundles == s.bundles && t.pidfiles == s.pidfiles;
  }

  lemma OtherCallIsElsewhere(s: State, p: Pid, r: Pid, a: Action, c: Question)
    requires CanAct(s, r, a) && p in s.procs && p != r && Holding(s.procs[p].pc) && About(c, s.procs[p])
    requires Holding(s.procs[r].pc) ==> NoConflict(c, s.procs[r], s.procs[p])
    ensures Watched(Do(s, r, a), p, s.procs[p], c, Answer(c, s))
  {
    ActProcsLocal(s, r, a);
    ActContainersLocal(s, r, a);
    ActFilesLocal(s, r, a);
  }

  predicate NoConflict(c: Question, q: Proc, r: Proc) {
    if AboutFiles(c) then FilesApart(q, r) else q.id != r.id
  }

  lemma OneHolder(s: State, p: Pid, r: Pid, c: Question)
    requires Reachable(s) && CompatibleFor(c, s) && p in s.procs && r in s.procs && p != r
    requires Holding(s.procs[p].pc) && Holding(s.procs[r].pc)
    ensures NoConflict(c, s.procs[r], s.procs[p])
  {
    ReachableBaseInv(s);
    if AboutFiles(c) {
      OneFileUser(s, r, p);
    } else {
      OneUser(s, r, p);
    }
  }

  lemma OutsideAnswers(s: State, e: Event, p: Pid, c: Question)
    requires Enabled(s, e) && !e.Act? && p in s.procs && Holding(s.procs[p].pc)
    ensures Watched(Apply(s, e), p, s.procs[p], c, TurnsOn(c, e) || (Answer(c, s) && !TurnsOff(c, e)))
  {
    if c.Present? {
      OutsidePresence(s, e, c.id);
    } else if c.Living? {
      OutsideLife(s, e, c.id);
    }
  }

  lemma OutsidePresence(s: State, e: Event, id: Bytes)
    requires Enabled(s, e) && !e.Act?
    ensures var c := Present(id); Answer(c, Apply(s, e)) <==> TurnsOn(c, e) || (Answer(c, s) && !TurnsOff(c, e))
  {
  }

  lemma OutsideLife(s: State, e: Event, id: Bytes)
    requires Enabled(s, e) && !e.Act?
    ensures var c := Living(id); Answer(c, Apply(s, e)) <==> TurnsOn(c, e) || (Answer(c, s) && !TurnsOff(c, e))
  {
  }

  lemma EventAnswers(s: State, e: Event, p: Pid, c: Question)
    requires Enabled(s, e) && Reachable(s) && CompatibleFor(c, s)
    requires p in s.procs && Holding(s.procs[p].pc) && Watching(e, p) && About(c, s.procs[p])
    ensures Watched(Apply(s, e), p, s.procs[p], c, TurnsOn(c, e) || (Answer(c, s) && !TurnsOff(c, e)))
  {
    if !e.Act? {
      OutsideAnswers(s, e, p, c);
    } else if e.p == p {
      OwnCallWatches(s, p, e.a, c);
    } else {
      if Holding(s.procs[e.p].pc) {
        OneHolder(s, p, e.p, c);
      }
      OtherCallIsElsewhere(s, p, e.p, e.a, c);
    }
  }

  // ---------------------------------------------------------------- whole runs

  /** While a process holds its lock, the events of a run decide every answer about its container
      and files, and the steps of other bpm processes do not matter at all. */
  lemma {:induction false} RunAnswers(s: State, es: seq<Event>, p: Pid, c: Question)
    requires Reachable(s) && Valid(s, es) && CompatibleFor(c, After(s, es))
    requires p in s.procs && Holding(s.procs[p].pc) && About(c, s.procs[p])
    requires forall e :: e in es ==> Watching(e, p)
    ensures Watched(After(s, es), p, s.procs[p], c, Latched(c, Answer(c, s), es))
    decreases es
  {
    if es != [] {
      if AboutFiles(c) {
        FilesCompatibleAtStart(s, es);
      } else {
        CompatibleAtStart(s, es);
      }
      ReachableStep(s, es[0]);
      assert es[0] in es;
      EventAnswers(s, es[0], p, c);
      RunAnswers(Apply(s, es[0]), es[1..], p, c);
      LatchedStep(c, Answer(c, s), es);
    }
  }
}
