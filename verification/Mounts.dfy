/** The mounts of a container: src/bpm/runc/adapter/mount.go and the mount assembly of BuildSpec in
    src/bpm/runc/adapter/adapter.go. */
module Mounts {
  import opened Paths
  import JobConfig

  datatype Mount = Mount(destination: string, source: string, kind: string, options: seq<string>)

  // ---------------------------------------------------------------- single mounts

  datatype MountOptions = MountOptions(rbind: bool, exec: bool, suid: bool, dev: bool, writable: bool)

  /** The most restrictive options. */
  const RESTRICTED := MountOptions(false, false, false, false, false)

  function Opts(o: MountOptions): seq<string> {
    [if o.rbind then "rbind" else "bind",
     if o.exec then "exec" else "noexec",
     if o.suid then "suid" else "nosuid",
     if o.dev then "dev" else "nodev",
     if o.writable then "rw" else "ro"]
  }

  function Bind(from: string, to: string, o: MountOptions): Mount { Mount(to, from, "bind", Opts(o)) }

  function IdentityMount(path: string, o: MountOptions): Mount { Bind(path, path, o) }

  // ---------------------------------------------------------------- the lists BuildSpec adds

  datatype BoshPath = BoshPath(external: string, internal: string)

  datatype JobDirs = JobDirs(
    tmp: BoshPath, dataPackages: BoshPath, packages: BoshPath, job: BoshPath, log: BoshPath,
    data: BoshPath, store: BoshPath)

  const EXECUTABLE := RESTRICTED.(exec := true)
  const SHARED_WRITABLE := RESTRICTED.(rbind := true, writable := true)

  function SystemMounts(resolvConf: bool, systemdResolved: bool): seq<Mount> {
    [IdentityMount("/bin", EXECUTABLE), IdentityMount("/etc", EXECUTABLE), IdentityMount("/lib", EXECUTABLE),
     IdentityMount("/lib64", EXECUTABLE), IdentityMount("/sbin", EXECUTABLE), IdentityMount("/usr", EXECUTABLE)]
    + (if resolvConf then [IdentityMount("/run/resolvconf", RESTRICTED)] else [])
    + (if systemdResolved then [IdentityMount("/run/systemd/resolve", RESTRICTED)] else [])
  }

  function BoshMount(dir: BoshPath, o: MountOptions): Mount { Bind(dir.external, dir.internal, o) }

  function BoshMounts(dirs: JobDirs, mountData: bool, mountStore: bool): seq<Mount> {
    [Bind(dirs.tmp.external, "/tmp", SHARED_WRITABLE),
     Bind(dirs.tmp.external, "/var/tmp", SHARED_WRITABLE),
     BoshMount(dirs.tmp, SHARED_WRITABLE),
     BoshMount(dirs.dataPackages, EXECUTABLE),
     BoshMount(dirs.packages, EXECUTABLE),
     BoshMount(dirs.job, EXECUTABLE),
     BoshMount(dirs.log, SHARED_WRITABLE)]
    + (if mountData then [BoshMount(dirs.data, SHARED_WRITABLE)] else [])
    + (if mountStore then [BoshMount(dirs.store, SHARED_WRITABLE)] else [])
  }

  function UserMount(v: JobConfig.Volume): Mount {
    IdentityMount(v.path, RESTRICTED.(rbind := true, exec := v.allowExecutions, writable := v.writable))
  }

  /** userProvidedIdentityMounts: one mount per volume, in order. */
  method UserMounts(vols: seq<JobConfig.Volume>) returns (ms: seq<Mount>)
    ensures ms == MountsOf(vols)
  {
    ms := [];
    for i := 0 to |vols|
      invariant |ms| == i && forall j :: 0 <= j < i ==> ms[j] == UserMount(vols[j])
    {
      var o := RESTRICTED.(rbind := true);
      if vols[i].allowExecutions {
        o := o.(exec := true);
      }
      if vols[i].writable {
        o := o.(writable := true);
      }
      ms := ms + [IdentityMount(vols[i].path, o)];
    }
  }

  // ---------------------------------------------------------------- unrestricted volumes

  datatype GlobResult = Matches(paths: seq<string>) | GlobError

  function Retarget(v: JobConfig.Volume, paths: seq<string>): seq<JobConfig.Volume> {
    seq(|paths|, i requires 0 <= i < |paths| => v.(path := paths[i]))
  }

  /** Every volume replaced by one per match of its pattern; a glob error fails the whole expansion. */
  datatype Expansion = Expanded(vols: seq<JobConfig.Volume>) | ExpansionFailed

  function Expand(vols: seq<JobConfig.Volume>, glob: string -> GlobResult): Expansion {
    if vols == [] then Expanded([])
    else
      var g := glob(vols[0].path);
      if g.GlobError? then ExpansionFailed
      else
        var rest := Expand(vols[1..], glob);
        Followed(Retarget(vols[0], g.paths), rest)
  }

  /** The volumes expanded so far, followed by an expansion of the rest. */
  function Followed(out: seq<JobConfig.Volume>, rest: Expansion): Expansion {
    if rest.ExpansionFailed? then rest else Expanded(out + rest.vols)
  }

  /** globExpandVolumes: nested loops over volumes and matches. */
  method GlobExpandVolumes(vols: seq<JobConfig.Volume>, glob: string -> GlobResult) returns (e: Expansion)
    ensures e == Expand(vols, glob)
  {
    var out: seq<JobConfig.Volume> := [];
    for i := 0 to |vols|
      invariant Expand(vols, glob) == Followed(out, Expand(vols[i..], glob))
    {
      assert vols[i..][1..] == vols[i + 1..] && vols[i..][0] == vols[i];
      var g := glob(vols[i].path);
      if g.GlobError? {
        return ExpansionFailed;
      }
      FollowedTwice(out, Retarget(vols[i], g.paths), Expand(vols[i + 1..], glob));
      out := AppendMatches(out, vols[i], g.paths);
    }
    return Expanded(out);
  }

  lemma FollowedTwice(a: seq<JobConfig.Volume>, b: seq<JobConfig.Volume>, rest: Expansion)
    ensures Followed(a, Followed(b, rest)) == Followed(a + b, rest)
  {
    if rest.Expanded? {
      assert a + (b + rest.vols) == a + b + rest.vols;
    }
  }

  /** The inner loop: one copy of the volume per match. */
  method AppendMatches(vols: seq<JobConfig.Volume>, v: JobConfig.Volume, paths: seq<string>)
    returns (out: seq<JobConfig.Volume>)
    ensures out == vols + Retarget(v, paths)
  {
    out := vols;
    for j := 0 to |paths|
      invariant out == vols + Retarget(v, paths[..j])
    {
      out := out + [v.(path := paths[j])];
      assert Retarget(v, paths[..j + 1]) == Retarget(v, paths[..j]) + [v.(path := paths[j])];
    }
    assert paths[..|paths|] == paths;
  }

  /** The volume is another one, retargeted at a match of its pattern. */
  predicate MatchOf(w: JobConfig.Volume, v: JobConfig.Volume, glob: string -> GlobResult) {
    glob(v.path).Matches? && w.path in glob(v.path).paths && w == v.(path := w.path)
  }

  lemma RetargetMeaning(v: JobConfig.Volume, glob: string -> GlobResult)
    requires glob(v.path).Matches?
    ensures forall w :: w in Retarget(v, glob(v.path).paths) <==> MatchOf(w, v, glob)
  {
    var paths := glob(v.path).paths;
    forall w | MatchOf(w, v, glob) ensures w in Retarget(v, paths) {
      var i :| 0 <= i < |paths| && paths[i] == w.path;
      assert Retarget(v, paths)[i] == w;
    }
  }

  /** The expansion fails exactly if some pattern does; else it holds exactly the matches. */
  lemma {:induction false} ExpandMeaning(vols: seq<JobConfig.Volume>, glob: string -> GlobResult)
    ensures Expand(vols, glob).ExpansionFailed? <==> exists v :: v in vols && glob(v.path).GlobError?
    ensures Expand(vols, glob).Expanded? ==>
              forall w :: w in Expand(vols, glob).vols <==> exists v :: v in vols && MatchOf(w, v, glob)
    decreases |vols|
  {
    if vols != [] {
      ExpandMeaning(vols[1..], glob);
      assert vols == [vols[0]] + vols[1..];
      assert vols[0] in vols;
      if glob(vols[0].path).Matches? {
        RetargetMeaning(vols[0], glob);
      }
    }
  }

  /** The path is a destination of one of the mounts or lies below one. */
  predicate Covered(path: string, ms: seq<Mount>) {
    exists i :: 0 <= i < |ms| && (path == ms[i].destination || Under(path, ms[i].destination, '/'))
  }

  /** The volumes that no mount covers, in order. */
  function Uncovered(ms: seq<Mount>, vols: seq<JobConfig.Volume>): seq<JobConfig.Volume> {
    if vols == [] then []
    else (if Covered(vols[0].path, ms) then [] else [vols[0]]) + Uncovered(ms, vols[1..])
  }

  /** filterVolumesUnderBoshMounts: comparing path parts is comparing path prefixes. */
  method FilterVolumes(boshMounts: seq<Mount>, vols: seq<JobConfig.Volume>) returns (kept: seq<JobConfig.Volume>)
    ensures kept == Uncovered(boshMounts, vols)
  {
    kept := [];
    for i := 0 to |vols|
      invariant Uncovered(boshMounts, vols) == kept + Uncovered(boshMounts, vols[i..])
    {
      assert vols[i..][1..] == vols[i + 1..];
      var covered := IsCovered(vols[i].path, boshMounts);
      assert vols[i..][0] == vols[i];
      ghost var rest := Uncovered(boshMounts, vols[i + 1..]);
      assert kept + ((if covered then [] else [vols[i]]) + rest) == (kept + if covered then [] else [vols[i]]) + rest;
      if !covered {
        kept := kept + [vols[i]];
      }
    }
  }

  /** The inner loop of the filter. */
  method IsCovered(path: string, boshMounts: seq<Mount>) returns (covered: bool)
    ensures covered <==> Covered(path, boshMounts)
  {
    covered := false;
    for j := 0 to |boshMounts|
      invariant covered <==> Covered(path, boshMounts[..j])
    {
      var boshParts := Split(boshMounts[j].destination, '/');
      var volumeParts := Split(path, '/');
      ComponentPrefix(path, boshMounts[j].destination, '/');
      CoveredByOneMore(path, boshMounts, j);
      if |boshParts| <= |volumeParts| {
        if boshParts == volumeParts[..|boshParts|] {
          covered := true;
        }
      }
    }
    assert boshMounts[..|boshMounts|] == boshMounts;
  }

  lemma CoveredByOneMore(path: string, ms: seq<Mount>, n: nat)
    requires n < |ms|
    ensures Covered(path, ms[..n + 1]) <==>
            Covered(path, ms[..n]) || path == ms[n].destination || Under(path, ms[n].destination, '/')
  {
    var more := ms[..n + 1];
    assert more[n] == ms[n];
    forall i | 0 <= i < n ensures more[i] == ms[..n][i] {
    }
  }

  /** The filter keeps exactly the volumes that no mount covers. */
  lemma {:induction false} UncoveredMeaning(ms: seq<Mount>, vols: seq<JobConfig.Volume>)
    ensures forall v :: v in Uncovered(ms, vols) <==> v in vols && !Covered(v.path, ms)
    decreases |vols|
  {
    if vols != [] {
      UncoveredMeaning(ms, vols[1..]);
      assert vols == [vols[0]] + vols[1..];
    }
  }

  // ---------------------------------------------------------------- first wins

  function Keep(set': map<string, Mount>, m: Mount): map<string, Mount> {
    if m.destination in set' then set' else set'[m.destination := m]
  }

  function FirstByDestination(ms: seq<Mount>): map<string, Mount> {
    if ms == [] then map[] else Keep(FirstByDestination(ms[..|ms| - 1]), ms[|ms| - 1])
  }

  predicate IsFirst(ms: seq<Mount>, i: int) {
    0 <= i < |ms| && forall j :: 0 <= j < i ==> ms[j].destination != ms[i].destination
  }

  predicate HasDestination(ms: seq<Mount>, d: string) {
    exists i :: 0 <= i < |ms| && ms[i].destination == d
  }

  lemma {:induction false} KeysAreDestinations(ms: seq<Mount>, d: string)
    ensures d in FirstByDestination(ms) <==> HasDestination(ms, d)
  {
    if ms != [] {
      var n := |ms| - 1;
      KeysAreDestinations(ms[..n], d);
      if HasDestination(ms[..n], d) {
        var i :| 0 <= i < n && ms[..n][i].destination == d;
        assert ms[i].destination == d;
      }
      if HasDestination(ms, d) && ms[n].destination != d {
        var i :| 0 <= i < |ms| && ms[i].destination == d;
        assert ms[..n][i].destination == d;
      }
    }
  }

  lemma {:induction false} FirstIsKept(ms: seq<Mount>, i: int)
    requires IsFirst(ms, i)
    ensures ms[i].destination in FirstByDestination(ms) && FirstByDestination(ms)[ms[i].destination] == ms[i]
    decreases |ms|
  {
    var n := |ms| - 1;
    var front := ms[..n];
    if i == n {
      KeysAreDestinations(front, ms[n].destination);
      assert forall j :: 0 <= j < n ==> front[j].destination == ms[j].destination;
    } else {
      assert front[i] == ms[i] && forall j :: 0 <= j < i ==> front[j] == ms[j];
      FirstIsKept(front, i);
    }
  }

  /** The map holds the first mount of every destination and nothing else. */
  lemma FirstWins(ms: seq<Mount>)
    ensures forall i :: IsFirst(ms, i) ==>
              ms[i].destination in FirstByDestination(ms) && FirstByDestination(ms)[ms[i].destination] == ms[i]
    ensures forall d :: d in FirstByDestination(ms) ==>
              exists i :: IsFirst(ms, i) && ms[i].destination == d
  {
    forall i | IsFirst(ms, i)
      ensures ms[i].destination in FirstByDestination(ms) && FirstByDestination(ms)[ms[i].destination] == ms[i]
    {
      FirstIsKept(ms, i);
    }
    forall d | d in FirstByDestination(ms) ensures exists i :: IsFirst(ms, i) && ms[i].destination == d {
      KeysAreDestinations(ms, d);
      var j :| 0 <= j < |ms| && ms[j].destination == d;
      var i := FirstExists(ms, j);
    }
  }

  lemma {:induction false} FirstExists(ms: seq<Mount>, j: nat) returns (i: nat)
    requires j < |ms|
    ensures IsFirst(ms, i) && ms[i].destination == ms[j].destination && i <= j
  {
    i := 0;
    while ms[i].destination != ms[j].destination
      invariant i <= j && forall k :: 0 <= k < i ==> ms[k].destination != ms[j].destination
      decreases j - i
    {
      i := i + 1;
    }
  }

  // ---------------------------------------------------------------- depth order

  function Depth(m: Mount): nat { |Split(m.destination, '/')| }

  predicate SortedByDepth(ms: seq<Mount>) {
    forall i, j :: 0 <= i < j < |ms| ==> Depth(ms[i]) <= Depth(ms[j])
  }

  function Insert(m: Mount, ms: seq<Mount>): seq<Mount> {
    if ms == [] || Depth(m) <= Depth(ms[0]) then [m] + ms else [ms[0]] + Insert(m, ms[1..])
  }

  function Sorted(ms: seq<Mount>): seq<Mount> {
    if ms == [] then [] else Insert(ms[0], Sorted(ms[1..]))
  }

  lemma {:induction false} InsertAddsOne(m: Mount, ms: seq<Mount>)
    ensures multiset(Insert(m, ms)) == multiset(ms) + multiset{m}
  {
    if ms != [] && Depth(m) > Depth(ms[0]) {
      InsertAddsOne(m, ms[1..]);
      assert ms == [ms[0]] + ms[1..];
    }
  }

  lemma {:induction false} InsertKeepsOrder(m: Mount, ms: seq<Mount>, bound: nat)
    requires SortedByDepth(ms) && bound <= Depth(m) && (ms == [] || bound <= Depth(ms[0]))
    ensures SortedByDepth(Insert(m, ms)) && forall i :: 0 <= i < |Insert(m, ms)| ==> bound <= Depth(Insert(m, ms)[i])
  {
    if ms != [] && Depth(m) > Depth(ms[0]) {
      InsertKeepsOrder(m, ms[1..], Depth(ms[0]));
    }
  }

  lemma {:induction false} SortedExists(ms: seq<Mount>)
    ensures SortedByDepth(Sorted(ms)) && multiset(Sorted(ms)) == multiset(ms)
  {
    if ms != [] {
      SortedExists(ms[1..]);
      InsertAddsOne(ms[0], Sorted(ms[1..]));
      InsertKeepsOrder(ms[0], Sorted(ms[1..]), 0);
      assert ms == [ms[0]] + ms[1..];
    }
  }

  /** sort.Slice by depth: some ordered permutation, not necessarily a stable one. */
  method SortSlice(ms: seq<Mount>) returns (out: seq<Mount>)
    ensures SortedByDepth(out) && multiset(out) == multiset(ms)
  {
    SortedExists(ms);
    out :| SortedByDepth(out) && multiset(out) == multiset(ms);
  }

  // ---------------------------------------------------------------- dedupMounts

  predicate DistinctDestinations(ms: seq<Mount>) {
    forall i, j :: 0 <= i < j < |ms| ==> ms[i].destination != ms[j].destination
  }

  /** The list holds exactly the first mount of every destination of `all`, shallow ones first. */
  ghost predicate MountList(all: seq<Mount>, out: seq<Mount>) {
    && DistinctDestinations(out)
    && (forall m :: m in out <==> exists i :: IsFirst(all, i) && all[i] == m)
    && SortedByDepth(out)
  }

  class DedupMounts {
    var set': map<string, Mount>
    ghost var added: seq<Mount>

    ghost predicate Valid()
      reads this
    {
      set' == FirstByDestination(added)
    }

    constructor ()
      ensures Valid() && added == []
    {
      set' := map[];
      added := [];
    }

    method AddMounts(ms: seq<Mount>)
      requires Valid()
      modifies this
      ensures Valid() && added == old(added) + ms
    {
      for i := 0 to |ms|
        invariant added == old(added) + ms[..i] && Valid()
      {
        var dst := ms[i].destination;
        FirstByDestinationSnoc(added, ms[i]);
        assert old(added) + ms[..i + 1] == old(added) + ms[..i] + [ms[i]];
        added := added + [ms[i]];
        if dst in set' {
          continue;
        }
        set' := set'[dst := ms[i]];
      }
    }

    /** The mounts of the map in whatever order it yields them, then sorted by depth. */
    method Mounts() returns (out: seq<Mount>)
      requires Valid()
      ensures MountList(added, out)
    {
      var ms: seq<Mount> := [];
      var left := set'.Keys;
      while left != {}
        invariant left <= set'.Keys && DistinctDestinations(ms)
        invariant forall m :: m in ms <==> m.destination in set' && m.destination !in left && set'[m.destination] == m
      {
        var d :| d in left;
        DestinationOfKey(added, d);
        ms := ms + [set'[d]];
        left := left - {d};
      }
      out := SortSlice(ms);
      FirstWins(added);
      PermutedMeaning(ms, out);
    }
  }

  lemma FirstByDestinationSnoc(ms: seq<Mount>, m: Mount)
    ensures FirstByDestination(ms + [m]) == Keep(FirstByDestination(ms), m)
  {
    assert (ms + [m])[..|ms|] == ms;
  }

  lemma DestinationOfKey(all: seq<Mount>, d: string)
    requires d in FirstByDestination(all)
    ensures FirstByDestination(all)[d].destination == d
  {
    FirstWins(all);
  }

  /** A permutation has the same elements, and no destination twice if there was none. */
  lemma PermutedMeaning(ms: seq<Mount>, out: seq<Mount>)
    requires DistinctDestinations(ms) && multiset(out) == multiset(ms)
    ensures DistinctDestinations(out) && forall m :: m in out <==> m in ms
  {
    forall m ensures m in out <==> m in ms {
      assert m in multiset(out) <==> m in multiset(ms);
    }
    forall i, j | 0 <= i < j < |out| ensures out[i].destination != out[j].destination {
      TwiceInMultiset(out, i, j);
      OnceInMultiset(ms, out[i]);
      assert out[i] in ms && out[j] in ms;
    }
  }

  lemma TwiceInMultiset(ms: seq<Mount>, i: nat, j: nat)
    requires i < j < |ms|
    ensures ms[i] == ms[j] ==> multiset(ms)[ms[i]] >= 2
  {
    assert ms == ms[..i] + [ms[i]] + ms[i + 1..j] + [ms[j]] + ms[j + 1..];
  }

  lemma {:induction false} OnceInMultiset(ms: seq<Mount>, m: Mount)
    requires DistinctDestinations(ms)
    ensures multiset(ms)[m] <= 1
  {
    if ms != [] {
      var n := |ms| - 1;
      OnceInMultiset(ms[..n], m);
      assert ms == ms[..n] + [ms[n]];
      if ms[n] == m {
        assert m !in ms[..n];
      }
    }
  }

  // ---------------------------------------------------------------- what the order means

  /** A mount below another one comes after it. */
  lemma AncestorsFirst(all: seq<Mount>, out: seq<Mount>, i: nat, j: nat)
    requires MountList(all, out) && i < |out| && j < |out|
    requires Under(out[j].destination, out[i].destination, '/')
    ensures i < j
  {
    ComponentPrefix(out[j].destination, out[i].destination, '/');
  }

  /** The root splits into two parts like each of its children: it comes before everything that
      has at least two components. */
  lemma RootBeforeDeeper(all: seq<Mount>, out: seq<Mount>, i: nat, j: nat)
    requires MountList(all, out) && i < |out| && j < |out|
    requires out[i].destination == "/" && PlainBelowRoot(out[j].destination) && Depth(out[j]) > 2
    ensures i < j
  {
    ShortPaths();
  }

  function Swapped(ms: seq<Mount>, i: nat, j: nat): seq<Mount>
    requires i < |ms| && j < |ms|
  {
    ms[i := ms[j]][j := ms[i]]
  }

  lemma SwapKeepsMembers(ms: seq<Mount>, i: nat, j: nat)
    requires i < |ms| && j < |ms|
    ensures forall m :: m in Swapped(ms, i, j) <==> m in ms
  {
    var out := Swapped(ms, i, j);
    forall m | m in ms ensures m in out {
      var k :| 0 <= k < |ms| && ms[k] == m;
      assert out[if k == i then j else if k == j then i else k] == m;
    }
  }

  /** The order of two mounts of the same depth is left open: if a list can be built, the one with
      both swapped can be built, too. */
  lemma SameDepthMaySwap(all: seq<Mount>, out: seq<Mount>, i: nat, j: nat)
    requires MountList(all, out) && i < |out| && j < |out| && Depth(out[i]) == Depth(out[j])
    ensures MountList(all, Swapped(out, i, j))
  {
    var ms := Swapped(out, i, j);
    SwapKeepsMembers(out, i, j);
    forall k, l | 0 <= k < l < |ms| ensures ms[k].destination != ms[l].destination {
      assert ms[k] == out[if k == i then j else if k == j then i else k];
      assert ms[l] == out[if l == i then j else if l == j then i else l];
    }
    forall k, l | 0 <= k < l < |ms| ensures Depth(ms[k]) <= Depth(ms[l]) {
      assert Depth(ms[k]) == Depth(out[k]) && Depth(ms[l]) == Depth(out[l]);
    }
  }

  // ---------------------------------------------------------------- BuildSpec's list

  datatype BuildResult = Built(mounts: seq<Mount>) | BuildFailed

  /** Whether a directory of the host exists; checking may fail otherwise. */
  datatype DirCheck = Exists | Missing | CheckFailed

  datatype Request = Request(
    resolvConf: DirCheck, systemdResolved: DirCheck, dirs: JobDirs, ephemeralDisk: bool, persistentDisk: bool,
    additional: seq<JobConfig.Volume>, unrestricted: seq<JobConfig.Volume>)

  function MountsOf(vols: seq<JobConfig.Volume>): seq<Mount> {
    seq(|vols|, i requires 0 <= i < |vols| => UserMount(vols[i]))
  }

  /** What comes before the unrestricted volumes: system, bosh and additional mounts. */
  function RestrictedMounts(r: Request): seq<Mount> {
    SystemMounts(r.resolvConf.Exists?, r.systemdResolved.Exists?)
    + BoshMounts(r.dirs, r.ephemeralDisk, r.persistentDisk) + MountsOf(r.additional)
  }

  function UnrestrictedMounts(r: Request, expanded: seq<JobConfig.Volume>): seq<Mount> {
    MountsOf(Uncovered(BoshMounts(r.dirs, r.ephemeralDisk, r.persistentDisk), expanded))
  }

  // ---------------------------------------------------------------- what the mounts allow

  /** What a container gets at a destination. */
  datatype Grant = Grant(destination: string, source: string, recursive: bool, executable: bool, writable: bool)

  /** One of two options is there: the first if `on`, else the second. */
  predicate Chosen(options: seq<string>, yes: string, no: string, on: bool) {
    (yes in options <==> on) && (no in options <==> !on)
  }

  predicate Granted(m: Mount, g: Grant) {
    && m.destination == g.destination && m.source == g.source && m.kind == "bind"
    && Chosen(m.options, "rbind", "bind", g.recursive)
    && Chosen(m.options, "exec", "noexec", g.executable)
    && Chosen(m.options, "rw", "ro", g.writable)
    && Chosen(m.options, "suid", "nosuid", false) && Chosen(m.options, "dev", "nodev", false)
  }

  lemma BindGrants(from: string, to: string, o: MountOptions)
    requires !o.suid && !o.dev
    ensures Granted(Bind(from, to, o), Grant(to, from, o.rbind, o.exec, o.writable))
  {
    var options := Opts(o);
    assert |options| == 5 && options[0][|options[0]| - 1] == 'd' && options[1][|options[1]| - 1] == 'c';
    assert options[2] == "nosuid" && options[3] == "nodev" && |options[4]| == 2;
    ChosenFirst(options, o);
    ChosenLast(options, o);
  }

  lemma ChosenFirst(options: seq<string>, o: MountOptions)
    requires options == Opts(o) && !o.suid && !o.dev
    ensures Chosen(options, "rbind", "bind", o.rbind) && Chosen(options, "exec", "noexec", o.exec)
  {
    assert "rbind"[0] == 'r' && "bind"[0] == 'b' && "exec"[0] == 'e' && "noexec"[2] == 'e' && "nosuid"[2] == 's';
    assert options[0] == if o.rbind then "rbind" else "bind";
    assert options[1] == if o.exec then "exec" else "noexec";
  }

  lemma ChosenLast(options: seq<string>, o: MountOptions)
    requires options == Opts(o) && !o.suid && !o.dev
    ensures Chosen(options, "rw", "ro", o.writable)
    ensures Chosen(options, "suid", "nosuid", false) && Chosen(options, "dev", "nodev", false)
  {
    assert "rw"[1] == 'w' && "ro"[1] == 'o' && "suid"[0] == 's' && "bind"[0] == 'b' && "exec"[0] == 'e';
    assert "noexec"[2] == 'e' && "nosuid"[2] == 's' && "rbind"[0] == 'r' && "nodev"[0] == 'n';
    assert options[2] == "nosuid" && options[3] == "nodev" && options[4] == if o.writable then "rw" else "ro";
  }

  /** The host's programs and libraries can be read and executed; resolver directories only read. */
  function SystemGrants(r: Request): seq<Grant> {
    [Grant("/bin", "/bin", false, true, false), Grant("/etc", "/etc", false, true, false),
     Grant("/lib", "/lib", false, true, false), Grant("/lib64", "/lib64", false, true, false),
     Grant("/sbin", "/sbin", false, true, false), Grant("/usr", "/usr", false, true, false)]
    + (if r.resolvConf.Exists? then [Grant("/run/resolvconf", "/run/resolvconf", false, false, false)] else [])
    + (if r.systemdResolved.Exists?
       then [Grant("/run/systemd/resolve", "/run/systemd/resolve", false, false, false)] else [])
  }

  /** Temporary, log, data and store directories can be written, packages and the job executed. */
  function BoshGrants(r: Request): seq<Grant> {
    var d := r.dirs;
    [Grant("/tmp", d.tmp.external, true, false, true), Grant("/var/tmp", d.tmp.external, true, false, true),
     Grant(d.tmp.internal, d.tmp.external, true, false, true),
     Grant(d.dataPackages.internal, d.dataPackages.external, false, true, false),
     Grant(d.packages.internal, d.packages.external, false, true, false),
     Grant(d.job.internal, d.job.external, false, true, false),
     Grant(d.log.internal, d.log.external, true, false, true)]
    + (if r.ephemeralDisk then [Grant(d.data.internal, d.data.external, true, false, true)] else [])
    + (if r.persistentDisk then [Grant(d.store.internal, d.store.external, true, false, true)] else [])
  }

  /** A volume can be written and executed as it says. */
  function VolumeGrants(vols: seq<JobConfig.Volume>): seq<Grant> {
    seq(|vols|, i requires 0 <= i < |vols| =>
      Grant(vols[i].path, vols[i].path, true, vols[i].allowExecutions, vols[i].writable))
  }

  /** In this order: the system, bosh, additional volumes, and unrestricted ones that bosh does not cover. */
  function Grants(r: Request, expanded: seq<JobConfig.Volume>): seq<Grant> {
    SystemGrants(r) + BoshGrants(r) + VolumeGrants(r.additional)
    + VolumeGrants(Uncovered(BoshMounts(r.dirs, r.ephemeralDisk, r.persistentDisk), expanded))
  }

  predicate AllGranted(ms: seq<Mount>, gs: seq<Grant>) {
    |ms| == |gs| && forall i :: 0 <= i < |ms| ==> Granted(ms[i], gs[i])
  }

  lemma AllGrantedAppend(a: seq<Mount>, b: seq<Mount>, g: seq<Grant>, h: seq<Grant>)
    requires AllGranted(a, g) && AllGranted(b, h)
    ensures AllGranted(a + b, g + h)
  {
  }

  lemma SystemGranted(r: Request)
    ensures AllGranted(SystemMounts(r.resolvConf.Exists?, r.systemdResolved.Exists?), SystemGrants(r))
  {
    BindGrants("/bin", "/bin", EXECUTABLE);
    BindGrants("/etc", "/etc", EXECUTABLE);
    BindGrants("/lib", "/lib", EXECUTABLE);
    BindGrants("/lib64", "/lib64", EXECUTABLE);
    BindGrants("/sbin", "/sbin", EXECUTABLE);
    BindGrants("/usr", "/usr", EXECUTABLE);
    BindGrants("/run/resolvconf", "/run/resolvconf", RESTRICTED);
    BindGrants("/run/systemd/resolve", "/run/systemd/resolve", RESTRICTED);
  }

  lemma BoshGranted(r: Request)
    ensures AllGranted(BoshMounts(r.dirs, r.ephemeralDisk, r.persistentDisk), BoshGrants(r))
  {
    var d := r.dirs;
    BindGrants(d.tmp.external, "/tmp", SHARED_WRITABLE);
    BindGrants(d.tmp.external, "/var/tmp", SHARED_WRITABLE);
    BindGrants(d.tmp.external, d.tmp.internal, SHARED_WRITABLE);
    BindGrants(d.dataPackages.external, d.dataPackages.internal, EXECUTABLE);
    BindGrants(d.packages.external, d.packages.internal, EXECUTABLE);
    BindGrants(d.job.external, d.job.internal, EXECUTABLE);
    BindGrants(d.log.external, d.log.internal, SHARED_WRITABLE);
    BindGrants(d.data.external, d.data.internal, SHARED_WRITABLE);
    BindGrants(d.store.external, d.store.internal, SHARED_WRITABLE);
  }

  lemma VolumesGranted(vols: seq<JobConfig.Volume>)
    ensures AllGranted(MountsOf(vols), VolumeGrants(vols))
  {
    forall i | 0 <= i < |vols| ensures Granted(MountsOf(vols)[i], VolumeGrants(vols)[i]) {
      var v := vols[i];
      BindGrants(v.path, v.path, RESTRICTED.(rbind := true, exec := v.allowExecutions, writable := v.writable));
    }
  }

  lemma AddedAreGranted(r: Request, expanded: seq<JobConfig.Volume>)
    ensures AllGranted(RestrictedMounts(r) + UnrestrictedMounts(r, expanded), Grants(r, expanded))
  {
    var system, bosh := SystemMounts(r.resolvConf.Exists?, r.systemdResolved.Exists?),
                        BoshMounts(r.dirs, r.ephemeralDisk, r.persistentDisk);
    SystemGranted(r);
    BoshGranted(r);
    VolumesGranted(r.additional);
    VolumesGranted(Uncovered(bosh, expanded));
    AllGrantedAppend(system, bosh, SystemGrants(r), BoshGrants(r));
    AllGrantedAppend(system + bosh, MountsOf(r.additional),
                     SystemGrants(r) + BoshGrants(r), VolumeGrants(r.additional));
    AllGrantedAppend(RestrictedMounts(r), UnrestrictedMounts(r, expanded),
                     SystemGrants(r) + BoshGrants(r) + VolumeGrants(r.additional),
                     VolumeGrants(Uncovered(bosh, expanded)));
  }

  /** The grant is the first for its destination. */
  predicate FirstGrant(gs: seq<Grant>, i: int) {
    0 <= i < |gs| && forall j :: 0 <= j < i ==> gs[j].destination != gs[i].destination
  }

  lemma FirstAlike(all: seq<Mount>, gs: seq<Grant>, i: nat)
    requires AllGranted(all, gs) && i < |all|
    ensures IsFirst(all, i) <==> FirstGrant(gs, i)
  {
    assert forall j :: 0 <= j < |all| ==> Granted(all[j], gs[j]);
    assert forall j :: 0 <= j < |all| ==> all[j].destination == gs[j].destination;
  }

  /** The list gives, at every destination, exactly what the first grant for it says. */
  lemma ListGrants(r: Request, expanded: seq<JobConfig.Volume>, out: seq<Mount>)
    requires MountList(RestrictedMounts(r) + UnrestrictedMounts(r, expanded), out)
    ensures GivesFirst(out, Grants(r, expanded))
  {
    var all, gs := RestrictedMounts(r) + UnrestrictedMounts(r, expanded), Grants(r, expanded);
    AddedAreGranted(r, expanded);
    forall m | m in out ensures exists i :: FirstGrant(gs, i) && Granted(m, gs[i]) {
      var i :| IsFirst(all, i) && all[i] == m;
      FirstAlike(all, gs, i);
      assert Granted(m, gs[i]);
    }
    forall i | FirstGrant(gs, i) ensures exists m :: m in out && Granted(m, gs[i]) {
      FirstAlike(all, gs, i);
      assert all[i] in out && Granted(all[i], gs[i]);
    }
  }

  lemma DestinationOnce(out: seq<Mount>, m: Mount, n: Mount)
    requires DistinctDestinations(out) && m in out && n in out && m.destination == n.destination
    ensures m == n
  {
    var i :| 0 <= i < |out| && out[i] == m;
    var j :| 0 <= j < |out| && out[j] == n;
  }

  /** The mount at a destination is what its first grant says. */
  lemma MountAt(r: Request, expanded: seq<JobConfig.Volume>, out: seq<Mount>, m: Mount, i: int)
    requires MountList(RestrictedMounts(r) + UnrestrictedMounts(r, expanded), out) && m in out
    requires FirstGrant(Grants(r, expanded), i) && Grants(r, expanded)[i].destination == m.destination
    ensures Granted(m, Grants(r, expanded)[i])
  {
    ListGrants(r, expanded, out);
    GivenAt(out, Grants(r, expanded), m, i);
  }

  lemma GivenAt(out: seq<Mount>, gs: seq<Grant>, m: Mount, i: int)
    requires DistinctDestinations(out) && EveryFirst(out, gs) && m in out
    requires FirstGrant(gs, i) && gs[i].destination == m.destination
    ensures Granted(m, gs[i])
  {
    var n :| n in out && Granted(n, gs[i]);
    DestinationOnce(out, m, n);
  }

  lemma GivenBy(out: seq<Mount>, gs: seq<Grant>, m: Mount) returns (g: Grant)
    requires OnlyFirst(out, gs) && m in out
    ensures g in gs && Granted(m, g)
  {
    var i :| FirstGrant(gs, i) && Granted(m, gs[i]);
    g := gs[i];
  }

  /** The host's directories are mounted read-only from themselves, whatever else asks for them. */
  lemma SystemWins(r: Request, expanded: seq<JobConfig.Volume>, out: seq<Mount>, m: Mount)
    requires MountList(RestrictedMounts(r) + UnrestrictedMounts(r, expanded), out) && m in out
    requires m.destination in {"/bin", "/etc", "/lib", "/lib64", "/sbin", "/usr"}
    ensures m.source == m.destination && "ro" in m.options && "rw" !in m.options && "exec" in m.options
  {
    var d := m.destination;
    var k := if d == "/bin" then 0 else if d == "/etc" then 1 else if d == "/lib" then 2
             else if d == "/lib64" then 3 else if d == "/sbin" then 4 else 5;
    SixDestinations(r);
    SystemComesFirst(r, expanded);
    MountAt(r, expanded, out, m, k);
  }

  lemma SystemComesFirst(r: Request, expanded: seq<JobConfig.Volume>)
    ensures |Grants(r, expanded)| >= 6 && forall j :: 0 <= j < 6 ==> Grants(r, expanded)[j] == SystemGrants(r)[j]
  {
  }

  lemma SixDestinations(r: Request)
    ensures forall j, k :: 0 <= j < k < 6 ==> SystemGrants(r)[j].destination != SystemGrants(r)[k].destination
    ensures forall j :: 0 <= j < 6 ==>
              var g := SystemGrants(r)[j]; g.source == g.destination && g.executable && !g.writable
  {
    assert "/bin"[1] == 'b' && "/etc"[1] == 'e' && "/lib"[1] == 'l' && "/usr"[1] == 'u';
  }

  /** Where no system or bosh mount is, the first volume for a destination decides: additional volumes
      before unrestricted ones, each in order. */
  lemma VolumeWins(r: Request, expanded: seq<JobConfig.Volume>, out: seq<Mount>, m: Mount, i: nat)
    requires MountList(RestrictedMounts(r) + UnrestrictedMounts(r, expanded), out) && m in out
    requires forall g :: g in SystemGrants(r) + BoshGrants(r) ==> g.destination != m.destination
    requires var vols := VolumesInOrder(r, expanded);
             && i < |vols| && vols[i].path == m.destination
             && forall j :: 0 <= j < i ==> vols[j].path != m.destination
    ensures var v := VolumesInOrder(r, expanded)[i];
            && m.source == m.destination
            && ("rw" in m.options <==> v.writable) && ("ro" in m.options <==> !v.writable)
            && ("exec" in m.options <==> v.allowExecutions) && ("noexec" in m.options <==> !v.allowExecutions)
  {
    var fixed := SystemGrants(r) + BoshGrants(r);
    GrantsInOrder(r, expanded);
    FirstAfter(fixed, VolumesInOrder(r, expanded), i, m.destination);
    MountAt(r, expanded, out, m, |fixed| + i);
  }

  function VolumesInOrder(r: Request, expanded: seq<JobConfig.Volume>): seq<JobConfig.Volume> {
    r.additional + Uncovered(BoshMounts(r.dirs, r.ephemeralDisk, r.persistentDisk), expanded)
  }

  lemma VolumeGrantsAppend(a: seq<JobConfig.Volume>, b: seq<JobConfig.Volume>)
    ensures VolumeGrants(a + b) == VolumeGrants(a) + VolumeGrants(b)
  {
  }

  lemma GrantsInOrder(r: Request, expanded: seq<JobConfig.Volume>)
    ensures Grants(r, expanded) == SystemGrants(r) + BoshGrants(r) + VolumeGrants(VolumesInOrder(r, expanded))
  {
    VolumeGrantsAppend(r.additional, Uncovered(BoshMounts(r.dirs, r.ephemeralDisk, r.persistentDisk), expanded));
  }

  lemma FirstAfter(fixed: seq<Grant>, vols: seq<JobConfig.Volume>, i: nat, d: string)
    requires i < |vols| && vols[i].path == d && forall j :: 0 <= j < i ==> vols[j].path != d
    requires forall g :: g in fixed ==> g.destination != d
    ensures var gs := fixed + VolumeGrants(vols);
            FirstGrant(gs, |fixed| + i) && gs[|fixed| + i] == VolumeGrants(vols)[i]
  {
    var gs := fixed + VolumeGrants(vols);
    forall j | 0 <= j < |fixed| + i ensures gs[j].destination != d {
      if j < |fixed| {
        assert gs[j] in fixed;
      } else {
        assert gs[j] == VolumeGrants(vols)[j - |fixed|];
      }
    }
  }

  /** The directories of a job that can be written. */
  predicate WritableDir(r: Request, destination: string, source: string) {
    || (destination in {"/tmp", "/var/tmp", r.dirs.tmp.internal} && source == r.dirs.tmp.external)
    || (destination == r.dirs.log.internal && source == r.dirs.log.external)
    || (r.ephemeralDisk && destination == r.dirs.data.internal && source == r.dirs.data.external)
    || (r.persistentDisk && destination == r.dirs.store.internal && source == r.dirs.store.external)
  }

  lemma GrantOrigins(r: Request, expanded: seq<JobConfig.Volume>, g: Grant)
    requires g in Grants(r, expanded) && g.writable
    ensures || (WritableDir(r, g.destination, g.source) && !g.executable)
            || exists v :: (v in r.additional || v in expanded) && v.writable && v.path == g.destination == g.source
                           && v.allowExecutions == g.executable
  {
    var bosh := BoshMounts(r.dirs, r.ephemeralDisk, r.persistentDisk);
    UncoveredMeaning(bosh, expanded);
    if g in VolumeGrants(r.additional) {
      var i :| 0 <= i < |r.additional| && VolumeGrants(r.additional)[i] == g;
      assert r.additional[i] in r.additional;
    } else if g in VolumeGrants(Uncovered(bosh, expanded)) {
      var vols := Uncovered(bosh, expanded);
      var i :| 0 <= i < |vols| && VolumeGrants(vols)[i] == g;
      assert vols[i] in vols;
    } else {
      assert g in SystemGrants(r) || g in BoshGrants(r);
    }
  }

  /** Every mount is either writable or read-only, executable or not, and never set-uid or a device. What
      can be written is a temporary, log, data or store directory or a volume that says so, and what can
      be both written and executed is a volume that says both. */
  lemma WhatCanBeWritten(r: Request, expanded: seq<JobConfig.Volume>, out: seq<Mount>, m: Mount)
    requires MountList(RestrictedMounts(r) + UnrestrictedMounts(r, expanded), out) && m in out
    ensures ("rw" in m.options <==> "ro" !in m.options) && ("exec" in m.options <==> "noexec" !in m.options)
    ensures "nosuid" in m.options && "suid" !in m.options && "nodev" in m.options && "dev" !in m.options
    ensures "rw" in m.options ==>
              || (WritableDir(r, m.destination, m.source) && "exec" !in m.options)
              || exists v :: (v in r.additional || v in expanded) && v.writable && v.path == m.destination
                             && (v.allowExecutions <==> "exec" in m.options)
  {
    ListGrants(r, expanded, out);
    var g := GivenBy(out, Grants(r, expanded), m);
    if g.writable {
      GrantOrigins(r, expanded, g);
    }
  }

  /** A directory cannot be checked, or a pattern cannot be expanded. */
  predicate MountsFail(r: Request, glob: string -> GlobResult) {
    r.resolvConf.CheckFailed? || r.systemdResolved.CheckFailed? || Expand(r.unrestricted, glob).ExpansionFailed?
  }

  /** Every mount is what the first grant for its destination says. */
  ghost predicate OnlyFirst(out: seq<Mount>, gs: seq<Grant>) {
    forall m :: m in out ==> exists i :: FirstGrant(gs, i) && Granted(m, gs[i])
  }

  /** Every first grant for a destination is mounted. */
  ghost predicate EveryFirst(out: seq<Mount>, gs: seq<Grant>) {
    forall i :: FirstGrant(gs, i) ==> exists m :: m in out && Granted(m, gs[i])
  }

  ghost predicate GivesFirst(out: seq<Mount>, gs: seq<Grant>) { OnlyFirst(out, gs) && EveryFirst(out, gs) }

  /** The mount assembly of BuildSpec. */
  method BuildMounts(r: Request, glob: string -> GlobResult) returns (b: BuildResult)
    ensures b.BuildFailed? <==> MountsFail(r, glob)
    ensures b.Built? ==>
              && MountList(RestrictedMounts(r) + UnrestrictedMounts(r, Expand(r.unrestricted, glob).vols), b.mounts)
              && GivesFirst(b.mounts, Grants(r, Expand(r.unrestricted, glob).vols))
  {
    b := AssembleMounts(r, glob);
    if b.Built? {
      ListGrants(r, Expand(r.unrestricted, glob).vols, b.mounts);
    }
  }

  method AssembleMounts(r: Request, glob: string -> GlobResult) returns (b: BuildResult)
    ensures b.BuildFailed? <==> MountsFail(r, glob)
    ensures b.Built? ==>
              MountList(RestrictedMounts(r) + UnrestrictedMounts(r, Expand(r.unrestricted, glob).vols), b.mounts)
  {
    if r.resolvConf.CheckFailed? || r.systemdResolved.CheckFailed? {
      return BuildFailed;
    }
    var ms := new DedupMounts();
    AddRestricted(ms, r);
    if |r.unrestricted| > 0 {
      var e := GlobExpandVolumes(r.unrestricted, glob);
      if e.ExpansionFailed? {
        return BuildFailed;
      }
      var filtered := FilterVolumes(BoshMounts(r.dirs, r.ephemeralDisk, r.persistentDisk), e.vols);
      var more := UserMounts(filtered);
      ms.AddMounts(more);
    } else {
      assert RestrictedMounts(r) + [] == RestrictedMounts(r);
    }
    var out := ms.Mounts();
    return Built(out);
  }

  method AddRestricted(ms: DedupMounts, r: Request)
    requires ms.Valid() && ms.added == []
    modifies ms
    ensures ms.Valid() && ms.added == RestrictedMounts(r)
  {
    ms.AddMounts(SystemMounts(r.resolvConf.Exists?, r.systemdResolved.Exists?));
    ms.AddMounts(BoshMounts(r.dirs, r.ephemeralDisk, r.persistentDisk));
    var user := UserMounts(r.additional);
    ms.AddMounts(user);
  }

  lemma UnrestrictedAreUncovered(r: Request, expanded: seq<JobConfig.Volume>, k: nat)
    requires k < |UnrestrictedMounts(r, expanded)|
    ensures !Covered(UnrestrictedMounts(r, expanded)[k].destination,
                     BoshMounts(r.dirs, r.ephemeralDisk, r.persistentDisk))
  {
    var bosh := BoshMounts(r.dirs, r.ephemeralDisk, r.persistentDisk);
    UncoveredMeaning(bosh, expanded);
    assert Uncovered(bosh, expanded)[k] in Uncovered(bosh, expanded);
  }

  lemma ListedInFirstPart(a: seq<Mount>, b: seq<Mount>, out: seq<Mount>, m: Mount)
    requires MountList(a + b, out) && m in out && m !in b
    ensures m in a
  {
    var i :| IsFirst(a + b, i) && (a + b)[i] == m;
    assert m in a + b;
  }

  /** No unrestricted volume is mounted at or below a bosh mount: whatever lands there is a system,
      bosh or additional mount. */
  lemma BoshMountsStayClear(r: Request, expanded: seq<JobConfig.Volume>, out: seq<Mount>, m: Mount)
    requires MountList(RestrictedMounts(r) + UnrestrictedMounts(r, expanded), out)
    requires m in out && Covered(m.destination, BoshMounts(r.dirs, r.ephemeralDisk, r.persistentDisk))
    ensures m in RestrictedMounts(r)
  {
    var b := UnrestrictedMounts(r, expanded);
    forall k | 0 <= k < |b| ensures b[k] != m {
      UnrestrictedAreUncovered(r, expanded, k);
    }
    ListedInFirstPart(RestrictedMounts(r), b, out, m);
  }

  // ---------------------------------------------------------------- the root as a volume

  /** An unrestricted volume "/" is among the mounts unless a bosh mount is the root itself. */
  lemma RootVolumeIsListed(r: Request, v: JobConfig.Volume)
    requires v.path == "/" && !Covered("/", BoshMounts(r.dirs, r.ephemeralDisk, r.persistentDisk))
    ensures UnrestrictedMounts(r, [v]) == [UserMount(v)]
  {
    var bosh := BoshMounts(r.dirs, r.ephemeralDisk, r.persistentDisk);
    assert [v][1..] == [];
    assert Uncovered(bosh, [v]) == [v];
  }

  lemma DestinationListed(all: seq<Mount>, out: seq<Mount>, k: nat) returns (i: nat)
    requires MountList(all, out) && k < |all|
    ensures i < |out| && out[i].destination == all[k].destination
  {
    var f := FirstExists(all, k);
    assert all[f] in out;
    i :| 0 <= i < |out| && out[i] == all[f];
  }

  /** A spec that mounts the root may mount it after "/bin" and hide it: whatever list BuildSpec makes
      of such a request, it may as well make one in that order. */
  lemma RootMountMayComeLast(r: Request, expanded: seq<JobConfig.Volume>, k: nat, out: seq<Mount>)
    returns (late: seq<Mount>, i: nat, j: nat)
    requires var all := RestrictedMounts(r) + UnrestrictedMounts(r, expanded);
             MountList(all, out) && k < |all| && all[k].destination == "/"
    ensures MountList(RestrictedMounts(r) + UnrestrictedMounts(r, expanded), late)
    ensures i < j < |late| && late[i].destination == "/bin" && late[j].destination == "/"
  {
    var all := RestrictedMounts(r) + UnrestrictedMounts(r, expanded);
    assert all[0].destination == "/bin";
    i := DestinationListed(all, out, 0);
    j := DestinationListed(all, out, k);
    late := out;
    if j < i {
      ShortPaths();
      BinDepth();
      SameDepthMaySwap(all, out, i, j);
      late := Swapped(out, i, j);
      i, j := j, i;
    }
  }

  lemma BinDepth()
    ensures Split("/bin", '/') == ["", "bin"]
  {
    SplitOfFree("bin", '/');
    SplitAt("", "bin", '/');
    assert "" + "/" + "bin" == "/bin";
  }
}
