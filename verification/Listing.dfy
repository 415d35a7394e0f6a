/** `bpm list`: src/bpm/commands/list.go, with the status strings of
    src/bpm/runc/lifecycle/lifecycle.go and the decoding of src/bpm/presenters/presenters.go. */
module Listing {
  import opened JobId
  import opened Names

  /** A row of the listing. */
  datatype Process = Process(name: Bytes, pid: int, status: string)

  const FAILED := "failed"
  const STOPPED := "stopped"
  const RUNNING := "running"
  const CREATING := "creating"
  const CREATED := "created"

  // ---------------------------------------------------------------- statuses

  /** containerStateToString: the status of the OCI specification as bpm reports it. */
  function StateToString(state: string): string {
    if state == CREATING then CREATING
    else if state == CREATED then CREATED
    else if state == RUNNING then RUNNING
    else FAILED
  }

  /** containerStateFromString: its default case yields the model's "failed", not a state. */
  function StateFromString(status: string): string {
    if status == CREATING then CREATING
    else if status == CREATED then CREATED
    else if status == RUNNING then RUNNING
    else if status == FAILED then STOPPED
    else FAILED
  }

  /** What StatProcess and ListProcesses report agree for every status string of runc. */
  lemma StatusesAgree(status: string)
    ensures StateToString(StateFromString(status)) == StateToString(status)
  {
  }

  datatype ContainerState = ContainerState(id: Bytes, pid: int, status: string)

  function StatReport(c: ContainerState): Process { Process(c.id, c.pid, StateToString(c.status)) }

  /** ListProcesses: an append loop. It reports each container as StatProcess would. */
  method ListProcesses(containers: seq<ContainerState>) returns (processes: seq<Process>)
    ensures |processes| == |containers|
    ensures forall i :: 0 <= i < |containers| ==> processes[i] == StatReport(containers[i])
  {
    processes := [];
    for i := 0 to |containers|
      invariant |processes| == i && forall j :: 0 <= j < i ==> processes[j] == StatReport(containers[j])
    {
      var c := containers[i];
      StatusesAgree(c.status);
      processes := processes + [Process(c.id, c.pid, StateToString(StateFromString(c.status)))];
    }
  }

  // ---------------------------------------------------------------- rows

  datatype Job = Job(name: Bytes, processes: seq<Bytes>)

  function JobKeys(job: Bytes, processes: seq<Bytes>): seq<Key> {
    seq(|processes|, i requires 0 <= i < |processes| => Key(job, processes[i]))
  }

  function KeysOf(jobs: seq<Job>): seq<Key> {
    if jobs == [] then [] else KeysOf(jobs[..|jobs| - 1]) + JobKeys(jobs[|jobs| - 1].name, jobs[|jobs| - 1].processes)
  }

  function StoppedRow(k: Key): Process { Process(ContainerId(k), 0, STOPPED) }

  function RowsOf(keys: seq<Key>): seq<Process> {
    seq(|keys|, i requires 0 <= i < |keys| => StoppedRow(keys[i]))
  }

  /** One stopped row per configured process. */
  method ConfiguredRows(jobs: seq<Job>) returns (rows: seq<Process>)
    ensures rows == RowsOf(KeysOf(jobs))
  {
    rows := [];
    for i := 0 to |jobs|
      invariant rows == RowsOf(KeysOf(jobs[..i]))
    {
      rows := AppendRows(rows, KeysOf(jobs[..i]), jobs[i].name, jobs[i].processes);
      assert jobs[..i + 1][..i] == jobs[..i];
    }
    assert jobs[..|jobs|] == jobs;
  }

  /** The inner loop, over the processes of one job. */
  method AppendRows(before: seq<Process>, ghost keys: seq<Key>, job: Bytes, processes: seq<Bytes>)
    returns (rows: seq<Process>)
    requires before == RowsOf(keys)
    ensures rows == RowsOf(keys + JobKeys(job, processes))
  {
    rows := before;
    for j := 0 to |processes|
      invariant rows == RowsOf(keys + JobKeys(job, processes[..j]))
    {
      var k := Key(job, processes[j]);
      assert keys + JobKeys(job, processes[..j + 1]) == keys + JobKeys(job, processes[..j]) + [k];
      RowsSnoc(keys + JobKeys(job, processes[..j]), k);
      rows := rows + [Process(ContainerId(k), 0, STOPPED)];
    }
    assert processes[..|processes|] == processes;
  }

  lemma RowsSnoc(keys: seq<Key>, k: Key)
    ensures RowsOf(keys + [k]) == RowsOf(keys) + [StoppedRow(k)]
  {
  }

  // ---------------------------------------------------------------- merging

  /** The rows with the first one of that name replaced. */
  function Update(rows: seq<Process>, p: Process): seq<Process> {
    if rows == [] then []
    else if rows[0].name == p.name then [p] + rows[1..]
    else [rows[0]] + Update(rows[1..], p)
  }

  function Merge(rows: seq<Process>, running: seq<Process>): seq<Process>
    decreases |running|
  {
    if running == [] then rows else Merge(Update(rows, running[0]), running[1..])
  }

  /** What updateProcess returns besides the rows: nothing, the error it prints about an extra
      process, or the out-of-range slice of Decode. */
  datatype Note = Updated | Extra(name: Bytes) | ExtraUnreadable | DecodePanics

  function NoteOn(rows: seq<Process>, p: Process): Note {
    if exists i :: 0 <= i < |rows| && rows[i].name == p.name then Updated
    else
      match Decode(p.name)
      case Decoded(name) => Extra(name)
      case Invalid => ExtraUnreadable
      case SliceOutOfRange => DecodePanics
  }

  lemma {:induction false} UpdateAt(rows: seq<Process>, p: Process, i: nat)
    requires i <= |rows| && (forall j :: 0 <= j < i ==> rows[j].name != p.name)
    requires i < |rows| ==> rows[i].name == p.name
    ensures Update(rows, p) == if i < |rows| then rows[i := p] else rows
  {
    if i > 0 {
      UpdateAt(rows[1..], p, i - 1);
      assert rows == [rows[0]] + rows[1..];
    }
  }

  /** updateProcess: overwrites the first entry of that name in place. */
  method UpdateProcess(rows: array<Process>, p: Process) returns (note: Note)
    modifies rows
    ensures rows[..] == Update(old(rows[..]), p)
    ensures note == NoteOn(old(rows[..]), p)
  {
    for i := 0 to rows.Length
      invariant rows[..] == old(rows[..]) && forall j :: 0 <= j < i ==> rows[j].name != p.name
    {
      if rows[i].name == p.name {
        UpdateAt(rows[..], p, i);
        assert rows[..][i].name == p.name;
        rows[i] := p;
        return Updated;
      }
    }
    UpdateAt(rows[..], p, rows.Length);
    var decoded := DecodeId(p.name);
    match decoded
    case Decoded(name) => note := Extra(name);
    case Invalid => note := ExtraUnreadable;
    case SliceOutOfRange => note := DecodePanics;
  }

  /** The merge loop of listContainers. It ends early exactly when some reported container has no
      row and an ID on which Decode slices out of range. */
  method MergeRunning(rows: array<Process>, running: seq<Process>) returns (ok: bool)
    modifies rows
    ensures ok ==> rows[..] == Merge(old(rows[..]), running)
    ensures ok <==> forall i :: 0 <= i < |running| ==> NoteOn(old(rows[..]), running[i]) != DecodePanics
  {
    ghost var was := rows[..];
    for i := 0 to |running|
      invariant Merge(rows[..], running[i..]) == Merge(was, running) && SameNames(was, rows[..])
      invariant forall j :: 0 <= j < i ==> NoteOn(was, running[j]) != DecodePanics
    {
      assert running[i..][1..] == running[i + 1..] && running[i..][0] == running[i];
      NoteNeedsNames(was, rows[..], running[i]);
      UpdateMeaning(rows[..], running[i]);
      var note := UpdateProcess(rows, running[i]);
      if note == DecodePanics {
        return false;
      }
    }
    return true;
  }

  lemma NoteNeedsNames(a: seq<Process>, b: seq<Process>, p: Process)
    requires SameNames(a, b)
    ensures NoteOn(a, p) == NoteOn(b, p)
  {
    if i :| 0 <= i < |a| && a[i].name == p.name {
      assert b[i].name == p.name;
    }
    if i :| 0 <= i < |b| && b[i].name == p.name {
      assert a[i].name == p.name;
    }
  }

  // ---------------------------------------------------------------- what the listing shows

  predicate FirstOf(rows: seq<Process>, i: int) {
    0 <= i < |rows| && forall j :: 0 <= j < i ==> rows[j].name != rows[i].name
  }

  /** `r` is the last of the reported processes with this name. */
  predicate LastOf(running: seq<Process>, name: Bytes, r: int) {
    0 <= r < |running| && running[r].name == name && forall j :: r < j < |running| ==> running[j].name != name
  }

  predicate NoneOf(running: seq<Process>, name: Bytes) {
    forall j :: 0 <= j < |running| ==> running[j].name != name
  }

  predicate SameNames(a: seq<Process>, b: seq<Process>) {
    |a| == |b| && forall i :: 0 <= i < |a| ==> a[i].name == b[i].name
  }

  /** One update changes at most the first row of its name, and no name. */
  lemma {:induction false} UpdateMeaning(rows: seq<Process>, p: Process)
    ensures SameNames(rows, Update(rows, p))
    ensures forall i :: 0 <= i < |rows| ==>
              Update(rows, p)[i] == if FirstOf(rows, i) && rows[i].name == p.name then p else rows[i]
  {
    if rows != [] && rows[0].name != p.name {
      var rest := rows[1..];
      UpdateMeaning(rest, p);
      forall i | 1 <= i < |rows| && rows[i].name == p.name ensures FirstOf(rows, i) <==> FirstOf(rest, i - 1) {
        if FirstOf(rest, i - 1) {
          forall j | 0 <= j < i ensures rows[j].name != rows[i].name {
            assert j > 0 ==> rows[j] == rest[j - 1];
          }
        }
        if FirstOf(rows, i) {
          assert forall j :: 0 <= j < i - 1 ==> rest[j] == rows[j + 1];
        }
      }
    }
  }

  /** The listing keeps its rows and their names. */
  lemma {:induction false} MergeKeepsNames(rows: seq<Process>, running: seq<Process>)
    ensures SameNames(rows, Merge(rows, running))
    decreases |running|
  {
    if running != [] {
      UpdateMeaning(rows, running[0]);
      MergeKeepsNames(Update(rows, running[0]), running[1..]);
    }
  }

  /** A row whose name nobody reported, or that is not the first of its name, is left alone. */
  lemma {:induction false} MergeLeavesAlone(rows: seq<Process>, running: seq<Process>, i: nat)
    requires i < |rows| && (NoneOf(running, rows[i].name) || !FirstOf(rows, i))
    ensures i < |Merge(rows, running)| && Merge(rows, running)[i] == rows[i]
    decreases |running|
  {
    if running != [] {
      var next := Update(rows, running[0]);
      UpdateMeaning(rows, running[0]);
      assert FirstOf(next, i) <==> FirstOf(rows, i);
      MergeLeavesAlone(next, running[1..], i);
    }
  }

  /** The first row of a name shows the container of that name that was reported last. */
  lemma {:induction false} MergeShowsLast(rows: seq<Process>, running: seq<Process>, i: nat, r: int)
    requires i < |rows| && FirstOf(rows, i) && LastOf(running, rows[i].name, r)
    ensures i < |Merge(rows, running)| && Merge(rows, running)[i] == running[r]
    decreases |running|
  {
    var next, rest := Update(rows, running[0]), running[1..];
    UpdateMeaning(rows, running[0]);
    assert FirstOf(next, i);
    if r > 0 {
      assert LastOf(rest, next[i].name, r - 1);
      MergeShowsLast(next, rest, i, r - 1);
    } else {
      MergeLeavesAlone(next, rest, i);
    }
  }

  /** Every row decodes to the job name, or to the job and process names, it was built from: printing
      the listing never fails, whatever is running. */
  lemma RowsDecode(keys: seq<Key>, running: seq<Process>, i: nat)
    requires i < |keys|
    ensures i < |Merge(RowsOf(keys), running)|
    ensures Decode(Merge(RowsOf(keys), running)[i].name)
            == Decoded(if keys[i].job == keys[i].process then keys[i].job else keys[i].job + DOT + keys[i].process)
  {
    MergeKeepsNames(RowsOf(keys), running);
    assert RowsOf(keys)[i].name == ContainerId(keys[i]);
    ContainerIdDecodes(keys[i]);
  }

  /** What the listing says about a configured process, in words: the last container reported under its
      ID decides, with its own status if it is creating, created or running and "failed" otherwise; and
      it is "stopped" with no PID if none was reported. */
  lemma ListingShows(keys: seq<Key>, containers: seq<ContainerState>, running: seq<Process>, i: nat)
    requires i < |keys| && FirstOf(RowsOf(keys), i)
    requires |running| == |containers| && forall j :: 0 <= j < |running| ==> running[j] == StatReport(containers[j])
    ensures i < |Merge(RowsOf(keys), running)|
    ensures (forall j :: 0 <= j < |containers| ==> containers[j].id != ContainerId(keys[i])) ==>
              Merge(RowsOf(keys), running)[i] == Process(ContainerId(keys[i]), 0, "stopped")
    ensures forall r :: LastReport(containers, ContainerId(keys[i]), r) ==>
              Merge(RowsOf(keys), running)[i]
              == Process(ContainerId(keys[i]), containers[r].pid, InWords(containers[r].status))
  {
    var rows, id := RowsOf(keys), ContainerId(keys[i]);
    MergeKeepsNames(rows, running);
    if forall j :: 0 <= j < |containers| ==> containers[j].id != id {
      MergeLeavesAlone(rows, running, i);
    }
    forall r | LastReport(containers, id, r)
      ensures Merge(rows, running)[i] == Process(id, containers[r].pid, InWords(containers[r].status))
    {
      assert LastOf(running, id, r);
      MergeShowsLast(rows, running, i, r);
      StatusInWords(containers[r].status);
    }
  }

  predicate LastReport(containers: seq<ContainerState>, id: Bytes, r: int) {
    0 <= r < |containers| && containers[r].id == id && forall j :: r < j < |containers| ==> containers[j].id != id
  }

  function InWords(status: string): string {
    if status in {"creating", "created", "running"} then status else "failed"
  }

  lemma StatusInWords(status: string)
    ensures StateToString(status) == InWords(status)
  {
  }
}
