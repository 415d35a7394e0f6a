/** When `bpm stop` keeps its promises, and when a start or run orphans a process, exactly:
    src/bpm/commands/{stop,root}.go and src/bpm/runc/lifecycle/lifecycle.go, over every run of other
    processes in between. */
module Stopping {
  import opened Protocol
  import opened Invariants
  import opened Safety
  import opened Interference

  // ---------------------------------------------------------------- the poll loop

  lemma Described(s: State, p: Pid)
    requires CanAct(s, p, Stat(StateReply)) && s.procs[p].cmd == Stop
    ensures var t := Do(s, p, Stat(StateReply));
            && p in t.procs && t.procs[p].pc == AtConfig && t.procs[p].id == s.procs[p].id
            && s.procs[p].id in t.containers
  {
  }

  lemma NilPollPossible(s: State, p: Pid)
    requires p in s.procs && s.procs[p].pc == AtPoll
    ensures CanAct(s, p, Poll(NilReply)) <==> s.procs[p].id !in s.containers
  {
  }

  /** From the moment StatProcess described a container, however long StopProcess signals and polls
      and whatever others do, the next ContainerState call can return the nil state that is
      dereferenced exactly if a runc left behind by a killed bpm process removed the container in
      between and none created it again. */
  lemma NilPollIff(s: State, es: seq<Event>, p: Pid)
    requires Reachable(s) && p in s.procs && s.procs[p].pc == AtStat && s.procs[p].cmd == Stop
    requires Enabled(s, Act(p, Stat(StateReply)))
    requires Valid(Apply(s, Act(p, Stat(StateReply))), es)
    requires forall e :: e in es ==> Watching(e, p)
    requires var t := After(Apply(s, Act(p, Stat(StateReply))), es);
             Compatible(t) && p in t.procs && t.procs[p].pc == AtPoll
    ensures var t := After(Apply(s, Act(p, Stat(StateReply))), es);
            CanAct(t, p, Poll(NilReply)) <==> !Latched(Present(s.procs[p].id), true, es)
  {
    var asked := Apply(s, Act(p, Stat(StateReply)));
    ReachableStep(s, Act(p, Stat(StateReply)));
    Described(s, p);
    RunAnswers(asked, es, p, Present(s.procs[p].id));
    NilPollPossible(After(asked, es), p);
  }

  // ---------------------------------------------------------------- what a stop leaves

  lemma FoundNone(s: State, p: Pid)
    requires CanAct(s, p, Stat(NilReply)) && s.procs[p].cmd == Stop
    ensures var t := Do(s, p, Stat(NilReply));
            && t == s.(procs := s.procs[p := t.procs[p]]) && s.procs[p].id !in s.containers
            && t.procs[p] == Done(s.procs[p].(seen := SawNone))
  {
  }

  lemma OthersLeaveIt(s: State, es: seq<Event>, p: Pid)
    requires Reachable(s) && Valid(s, es) && Compatible(After(s, es)) && FilesCompatible(After(s, es))
    requires p in s.procs && Holding(s.procs[p].pc) && forall e :: e in es ==> !By(e, p)
    ensures p in After(s, es).procs && After(s, es).procs[p] == s.procs[p]
    ensures var t, q := After(s, es), s.procs[p];
            && (q.id in t.containers <==> Latched(Present(q.id), q.id in s.containers, es))
            && (q.bundle in t.bundles <==> q.bundle in s.bundles)
            && (q.pidfile in t.pidfiles <==> Latched(HasPidfile(q.pidfile), q.pidfile in s.pidfiles, es))
  {
    FileStability(s, es, p);
    RunAnswers(s, es, p, Present(s.procs[p].id));
    RunAnswers(s, es, p, HasPidfile(s.procs[p].pidfile));
  }

  /** A stop that finds no container succeeds without removing anything: until it releases the lock,
      nothing is left exactly if neither bundle nor pidfile was there when it asked, and no `runc run`
      left behind created the container or the pidfile since. */
  lemma StopOverNothing(s: State, es: seq<Event>, p: Pid)
    requires Reachable(s) && p in s.procs && s.procs[p].pc == AtStat && s.procs[p].cmd == Stop
    requires Enabled(s, Act(p, Stat(NilReply)))
    requires Valid(Apply(s, Act(p, Stat(NilReply))), es)
    requires var t := After(Apply(s, Act(p, Stat(NilReply))), es); Compatible(t) && FilesCompatible(t)
    requires forall e :: e in es ==> !By(e, p)
    ensures var t, q := After(Apply(s, Act(p, Stat(NilReply))), es), s.procs[p];
            && p in t.procs && t.procs[p].pc == AtPost && t.procs[p].res == Succeeded
            && (NothingLeft(t, t.procs[p]) <==>
                  && !Latched(Present(q.id), false, es)
                  && q.bundle !in s.bundles
                  && !Latched(HasPidfile(q.pidfile), q.pidfile in s.pidfiles, es))
  {
    ReachableStep(s, Act(p, Stat(NilReply)));
    FoundNone(s, p);
    OthersLeaveIt(Apply(s, Act(p, Stat(NilReply))), es, p);
  }

  // ---------------------------------------------------------------- what a stat error costs

  lemma GotError(s: State, p: Pid)
    requires CanAct(s, p, Stat(ErrorReply)) && s.procs[p].cmd != Stop
    ensures var t := Do(s, p, Stat(ErrorReply));
            && t.containers == s.containers && t.orphans == s.orphans && p in t.procs
            && t.procs[p] == s.procs[p].(seen := SawError, pc := AtRemoveState)
  {
  }

  lemma RemovingStateOrphans(s: State, p: Pid)
    requires p in s.procs && s.procs[p].pc == AtRemoveState
    ensures CanAct(s, p, RemoveState(true))
    ensures var id := s.procs[p].id;
            id in Do(s, p, RemoveState(true)).orphans <==> id in s.orphans || Answer(Living(id), s)
  {
  }

  /** A start or run that got an error from StatProcess, and then drops the state file after whatever
      others did, orphans a process exactly if the container was alive when it asked and neither
      exited nor was removed since, or a `runc run` left behind created a live one that lasted. */
  lemma OrphanIff(s: State, es: seq<Event>, p: Pid)
    requires Reachable(s) && p in s.procs && s.procs[p].pc == AtStat && s.procs[p].cmd != Stop
    requires Valid(Apply(s, Act(p, Stat(ErrorReply))), es)
    requires Compatible(After(Apply(s, Act(p, Stat(ErrorReply))), es))
    requires forall e :: e in es ==> !By(e, p)
    ensures var t, id := After(Apply(s, Act(p, Stat(ErrorReply))), es), s.procs[p].id;
            && CanAct(t, p, RemoveState(true))
            && (id in Do(t, p, RemoveState(true)).orphans <==>
                  id in s.orphans || Latched(Living(id), Answer(Living(id), s), es))
  {
    var asked, id := Apply(s, Act(p, Stat(ErrorReply))), s.procs[p].id;
    ReachableStep(s, Act(p, Stat(ErrorReply)));
    GotError(s, p);
    StatStability(asked, es, p);
    RunAnswers(asked, es, p, Living(id));
    RunAnswers(asked, es, p, Orphaned(id));
    RemovingStateOrphans(After(asked, es), p);
  }
}
