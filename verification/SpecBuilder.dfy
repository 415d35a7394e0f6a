/** Container specs and the options that change them in place: src/bpm/runc/specbuilder/specbuilder.go. */
module SpecBuilder {
  import opened Mounts
  import JobConfig

  const NOSUID := "nosuid"

  // ---------------------------------------------------------------- removing an option

  /** The list without its first "nosuid". */
  function WithoutNosuid(opts: seq<string>): seq<string> {
    if opts == [] then [] else if opts[0] == NOSUID then opts[1..] else [opts[0]] + WithoutNosuid(opts[1..])
  }

  /** The list without any "nosuid". */
  function Suid(opts: seq<string>): seq<string> {
    if opts == [] then [] else (if opts[0] == NOSUID then [] else [opts[0]]) + Suid(opts[1..])
  }

  predicate AtMostOneNosuid(opts: seq<string>) {
    forall i, j :: 0 <= i < j < |opts| && opts[i] == NOSUID ==> opts[j] != NOSUID
  }

  lemma {:induction false} SuidKeepsOthers(opts: seq<string>)
    ensures NOSUID !in Suid(opts) && (NOSUID !in opts ==> Suid(opts) == opts)
  {
    if opts != [] {
      SuidKeepsOthers(opts[1..]);
      assert opts == [opts[0]] + opts[1..];
    }
  }

  /** Removing one "nosuid" removes all exactly when there is at most one. */
  lemma {:induction false} OneRemovalIsEnough(opts: seq<string>)
    ensures AtMostOneNosuid(opts) <==> WithoutNosuid(opts) == Suid(opts)
  {
    if opts != [] {
      var rest := opts[1..];
      OneRemovalIsEnough(rest);
      SuidKeepsOthers(rest);
      if opts[0] == NOSUID {
        assert AtMostOneNosuid(opts) <==> NOSUID !in rest by {
          assert forall j :: 1 <= j < |opts| ==> opts[j] == rest[j - 1];
        }
      } else {
        assert AtMostOneNosuid(opts) <==> AtMostOneNosuid(rest) by {
          assert forall j :: 1 <= j < |opts| ==> opts[j] == rest[j - 1];
        }
        assert [opts[0]] + WithoutNosuid(rest) == [opts[0]] + Suid(rest) <==> WithoutNosuid(rest) == Suid(rest) by {
          assert ([opts[0]] + WithoutNosuid(rest))[1..] == WithoutNosuid(rest);
          assert ([opts[0]] + Suid(rest))[1..] == Suid(rest);
        }
      }
    }
  }

  lemma {:induction false} WithoutNosuidAt(opts: seq<string>, i: nat)
    requires i <= |opts| && NOSUID !in opts[..i] && (i < |opts| ==> opts[i] == NOSUID)
    ensures WithoutNosuid(opts) == if i < |opts| then opts[..i] + opts[i + 1..] else opts
  {
    if i > 0 {
      assert opts[0] == opts[..i][0];
      assert opts[1..][..i - 1] == opts[..i][1..];
      WithoutNosuidAt(opts[1..], i - 1);
    }
  }

  // ---------------------------------------------------------------- slices

  /** A Go slice that starts at the front of its backing array. */
  datatype Slice = Slice(store: array<string>, len: nat)

  function Contents(s: Slice): seq<string>
    requires s.len <= s.store.Length
    reads s.store
  {
    s.store[..s.len]
  }

  /** append(opts[:i], opts[i+1:]...) on a slice of length `len`: the rest moves one place down. */
  method ShiftDown(store: array<string>, i: nat, len: nat)
    requires i < len <= store.Length
    modifies store
    ensures store[..len - 1] == old(store[..i] + store[i + 1..len])
    ensures store[len - 1..] == old(store[len - 1..])
  {
    for j := i to len - 1
      invariant forall k :: i <= k < j ==> store[k] == old(store[k + 1])
      invariant forall k :: 0 <= k < i || j <= k < store.Length ==> store[k] == old(store[k])
    {
      store[j] := store[j + 1];
    }
    ghost var was := old(store[..]);
    assert forall k :: i <= k < len - 1 ==> store[k] == was[k + 1];
    assert store[..i] == was[..i] && store[i..len - 1] == was[i + 1..len];
    assert store[..len - 1] == store[..i] + store[i..len - 1];
  }

  /** removeNosuidMountOption: shifts the rest of the backing array one place down and returns the
      shorter slice. The last element stays behind in the array, past the end of the result. */
  method RemoveNosuid(opts: Slice) returns (r: Slice)
    requires opts.len <= opts.store.Length
    modifies opts.store
    ensures r.store == opts.store && r.len <= opts.len
    ensures Contents(r) == WithoutNosuid(old(Contents(opts)))
    ensures opts.store[opts.len..] == old(opts.store[opts.len..])
    ensures r.len < opts.len ==> opts.store[r.len] == old(opts.store[r.len])
  {
    ghost var was := Contents(opts);
    for i := 0 to opts.len
      invariant NOSUID !in was[..i] && opts.store[..] == old(opts.store[..])
    {
      assert opts.store[i] == was[i];
      if opts.store[i] == NOSUID {
        WithoutNosuidAt(was, i);
        ghost var tail := opts.store[opts.len - 1..];
        assert opts.store[i + 1..opts.len] == was[i + 1..] && opts.store[..i] == was[..i];
        ShiftDown(opts.store, i, opts.len);
        assert opts.store[opts.len..] == tail[1..] && opts.store[opts.len - 1] == tail[0];
        return Slice(opts.store, opts.len - 1);
      }
    }
    WithoutNosuidAt(was, opts.len);
    return opts;
  }

  // ---------------------------------------------------------------- specs

  /** A mount of a spec: its options are a slice over an array that others may hold, too. */
  datatype SpecMount = SpecMount(destination: string, source: string, kind: string, options: Slice)

  datatype User = User(uid: nat, gid: nat)

  datatype SpecOption =
    | WithCapabilities(capabilities: seq<string>)
    | WithUser(user: User)
    | WithMounts(mounts: seq<SpecMount>)
    | WithNamespace(namespace: string)
    | WithoutSeccomp
    | WithPrivileged
    | WithCgroupsPath(path: string)

  predicate InBounds(ms: seq<SpecMount>) {
    forall i :: 0 <= i < |ms| ==> ms[i].options.len <= ms[i].options.store.Length
  }

  /** The arrays behind the option lists, in order. */
  function Arrays(ms: seq<SpecMount>): (r: seq<array<string>>)
    ensures |r| == |ms|
  {
    seq(|ms|, i requires 0 <= i < |ms| => ms[i].options.store)
  }

  function Held(stores: seq<array<string>>): set<array<string>> { set x | x in stores }

  ghost predicate Distinct(stores: seq<array<string>>) {
    forall i, j :: 0 <= i < j < |stores| ==> stores[i] != stores[j]
  }

  /** Sequences put together are distinct exactly if both are and they share nothing. */
  lemma DistinctAppend(a: seq<array<string>>, b: seq<array<string>>)
    ensures Distinct(a + b) <==> Distinct(a) && Distinct(b) && Held(a) !! Held(b)
  {
    var c := a + b;
    if Distinct(c) {
      forall i, j | 0 <= i < j < |a| ensures a[i] != a[j] {
        assert c[i] != c[j];
      }
      forall i, j | 0 <= i < j < |b| ensures b[i] != b[j] {
        assert c[|a| + i] != c[|a| + j];
      }
      forall i, j | 0 <= i < |a| && 0 <= j < |b| ensures a[i] != b[j] {
        assert c[i] != c[|a| + j];
      }
    }
    if Distinct(a) && Distinct(b) && Held(a) !! Held(b) {
      forall i, j | 0 <= i < j < |c| ensures c[i] != c[j] {
        if i < |a| <= j {
          assert c[i] in Held(a) && c[j] in Held(b);
        }
      }
    }
  }

  function AsValue(m: SpecMount): Mount
    requires m.options.len <= m.options.store.Length
    reads m.options.store
  {
    Mount(m.destination, m.source, m.kind, Contents(m.options))
  }

  /** The mounts as values. */
  ghost function Values(ms: seq<SpecMount>): (r: seq<Mount>)
    requires InBounds(ms)
    reads Held(Arrays(ms))
    ensures |r| == |ms|
  {
    seq(|ms|, i requires 0 <= i < |ms| && InBounds(ms) reads Held(Arrays(ms)) =>
      assert Arrays(ms)[i] == ms[i].options.store; AsValue(ms[i]))
  }

  /** Mount and the literals of DefaultSpec: every call makes a new option list. */
  method Allocate(m: Mount) returns (r: SpecMount)
    ensures r.options.len <= r.options.store.Length && fresh(r.options.store) && AsValue(r) == m
  {
    var store := new string[|m.options|](i requires 0 <= i < |m.options| => m.options[i]);
    assert store[..] == m.options;
    r := SpecMount(m.destination, m.source, m.kind, Slice(store, |m.options|));
  }

  /** One call after the other: the lists are all different. */
  method AllocateAll(ms: seq<Mount>) returns (r: seq<SpecMount>)
    ensures InBounds(r) && Values(r) == ms
    ensures Distinct(Arrays(r)) && fresh(Held(Arrays(r)))
  {
    r := [];
    for n := 0 to |ms|
      invariant |r| == n && InBounds(r) && Distinct(Arrays(r))
      invariant fresh(Held(Arrays(r)))
      invariant forall i :: 0 <= i < |r| ==> Values(r)[i] == ms[i]
    {
      ghost var was := r;
      ghost var values := Values(r);
      var m := Allocate(ms[n]);
      r := r + [m];
      assert Arrays(r) == Arrays(was) + [m.options.store];
      assert Held(Arrays(r)) == Held(Arrays(was)) + {m.options.store};
      assert forall i :: 0 <= i < n ==> Values(r)[i] == values[i];
    }
  }

  /** The mounts every container starts with. */
  function DefaultMounts(): seq<Mount> {
    [Mount("/proc", "proc", "proc", []),
     Mount("/dev", "tmpfs", "tmpfs", [NOSUID, "noexec", "mode=755"]),
     Mount("/dev/pts", "devpts", "devpts", [NOSUID, "noexec", "newinstance", "ptmxmode=0666", "mode=0620", "gid=5"]),
     Mount("/dev/shm", "shm", "tmpfs", [NOSUID, "noexec", "nodev", "mode=1777"]),
     Mount("/dev/mqueue", "mqueue", "mqueue", [NOSUID, "noexec", "nodev"]),
     Mount("/sys", "sysfs", "sysfs", [NOSUID, "noexec", "nodev", "ro"])]
  }

  const MASKED_PATHS := ["/etc/sv", "/proc/kcore", "/proc/latency_stats", "/proc/sched_debug", "/proc/timer_list",
                         "/proc/timer_stats", "/sys/firmware"]
  const READONLY_PATHS := ["/proc/asound", "/proc/bus", "/proc/fs", "/proc/irq", "/proc/sys", "/proc/sysrq-trigger"]

  /** What WithPrivileged makes of a list of mounts. */
  function Unprotected(ms: seq<Mount>): seq<Mount> {
    seq(|ms|, i requires 0 <= i < |ms| => ms[i].(options := WithoutNosuid(ms[i].options)))
  }

  /** What a spec says besides capabilities and mounts. */
  datatype Settings = Settings(
    user: User, noNewPrivileges: bool, maskedPaths: seq<string>, readonlyPaths: seq<string>, seccomp: bool,
    namespaces: seq<string>, cgroupsPath: string)

  /** What one option makes of it. */
  function SettingsStep(s: Settings, o: SpecOption): Settings {
    match o
    case WithUser(u) => s.(user := u)
    case WithNamespace(n) => s.(namespaces := s.namespaces + [n])
    case WithoutSeccomp => s.(seccomp := false)
    case WithCgroupsPath(p) => s.(cgroupsPath := p)
    case WithPrivileged =>
      s.(user := User(0, 0), noNewPrivileges := false, maskedPaths := [], readonlyPaths := [], seccomp := false)
    case _ => s
  }

  class Spec {
    const privilegedCapabilities: seq<string>
    var ambient: seq<string>
    var bounding: seq<string>
    var inheritable: seq<string>
    var permitted: seq<string>
    var user: User
    var noNewPrivileges: bool
    var maskedPaths: seq<string>
    var readonlyPaths: seq<string>
    var seccomp: bool
    var namespaces: seq<string>
    var cgroupsPath: string
    var mounts: seq<SpecMount>

    /** The four capability sets are one, and the option lists lie in their arrays. */
    ghost predicate Valid()
      reads this
    {
      InBounds(mounts) && ambient == bounding == inheritable == permitted
    }

    ghost function View(): seq<Mount>
      requires Valid()
      reads this, Held(Arrays(mounts))
    {
      Values(mounts)
    }

    function Says(): Settings
      reads this
    {
      Settings(user, noNewPrivileges, maskedPaths, readonlyPaths, seccomp, namespaces, cgroupsPath)
    }

    /** DefaultSpec. */
    constructor (privilegedCapabilities: seq<string>)
      ensures Valid() && View() == DefaultMounts() && Distinct(Arrays(mounts))
      ensures fresh(Held(Arrays(mounts)))
      ensures ambient == [] && Says() == Settings(User(0, 0), true, MASKED_PATHS, READONLY_PATHS, true, [], "")
      ensures this.privilegedCapabilities == privilegedCapabilities
    {
      this.privilegedCapabilities := privilegedCapabilities;
      ambient, bounding, inheritable, permitted := [], [], [], [];
      user := User(0, 0);
      noNewPrivileges, seccomp := true, true;
      maskedPaths, readonlyPaths := MASKED_PATHS, READONLY_PATHS;
      namespaces, cgroupsPath := [], "";
      var defaults := AllocateAll(DefaultMounts());
      mounts := defaults;
    }

    /** WithMounts: the mounts come with the option lists of the caller. No list is shared afterwards
        exactly if none was shared before, on either side or between them. */
    method AddMounts(ms: seq<SpecMount>)
      requires Valid() && InBounds(ms)
      modifies this`mounts
      ensures Valid() && mounts == old(mounts) + ms && View() == old(View()) + Values(ms)
      ensures Distinct(Arrays(mounts)) <==>
              && Distinct(old(Arrays(mounts))) && Distinct(Arrays(ms))
              && Held(old(Arrays(mounts))) !! Held(Arrays(ms))
    {
      DistinctAppend(Arrays(mounts), Arrays(ms));
      assert Arrays(mounts + ms) == Arrays(mounts) + Arrays(ms);
      ghost var was := View();
      mounts := mounts + ms;
      assert View() == was + Values(ms);
    }

    /** The options that set one field. */
    method Set(o: SpecOption)
      requires !o.WithCapabilities? && !o.WithMounts? && !o.WithPrivileged?
      modifies this`user, this`namespaces, this`seccomp, this`cgroupsPath
      ensures Says() == SettingsStep(old(Says()), o)
    {
      match o
      case WithUser(u) => user := u;
      case WithNamespace(n) => namespaces := namespaces + [n];
      case WithoutSeccomp => seccomp := false;
      case WithCgroupsPath(p) => cgroupsPath := p;
    }

    method GrantCapabilities(capabilities: seq<string>)
      modifies this`ambient, this`bounding, this`inheritable, this`permitted
      ensures ambient == old(ambient) + capabilities && bounding == old(bounding) + capabilities
      ensures inheritable == old(inheritable) + capabilities && permitted == old(permitted) + capabilities
    {
      ambient := ambient + capabilities;
      bounding := bounding + capabilities;
      inheritable := inheritable + capabilities;
      permitted := permitted + capabilities;
    }

    /** The loop of WithPrivileged over the mounts: if no option list is shared, no mount disturbs
        another one. */
    method AllowSuid()
      requires Valid()
      modifies this`mounts, Held(Arrays(mounts))
      ensures Valid() && Arrays(mounts) == old(Arrays(mounts))
      ensures Distinct(old(Arrays(mounts))) ==> View() == Unprotected(old(View()))
    {
      ghost var was, stores := View(), Arrays(mounts);
      for i := 0 to |mounts|
        invariant Valid() && |mounts| == |was| && Arrays(mounts) == stores
        invariant Distinct(stores) ==>
                    forall j :: 0 <= j < |was| ==> View()[j] == if j < i then Unprotected(was)[j] else was[j]
      {
        assert stores[i] == mounts[i].options.store;
        ghost var before := View();
        var opts := RemoveNosuid(mounts[i].options);
        mounts := mounts[i := mounts[i].(options := opts)];
        assert Arrays(mounts) == stores;
        if Distinct(stores) {
          forall j | 0 <= j < |was| && j != i ensures View()[j] == before[j] {
            assert stores[j] != stores[i];
          }
        }
      }
    }

    method MakePrivileged()
      requires Valid()
      modifies this, Held(Arrays(mounts))
      ensures Valid() && Arrays(mounts) == old(Arrays(mounts))
      ensures Distinct(old(Arrays(mounts))) ==> View() == Unprotected(old(View()))
      ensures ambient == old(ambient) + privilegedCapabilities
      ensures user == User(0, 0) && !noNewPrivileges && maskedPaths == [] && readonlyPaths == [] && !seccomp
      ensures namespaces == old(namespaces) && cgroupsPath == old(cgroupsPath)
      ensures Says() == SettingsStep(old(Says()), WithPrivileged)
    {
      GrantCapabilities(privilegedCapabilities);
      DropProtections();
      AllowSuid();
    }

    method DropProtections()
      modifies this`user, this`noNewPrivileges, this`maskedPaths, this`readonlyPaths, this`seccomp
      ensures Says() == SettingsStep(old(Says()), WithPrivileged)
    {
      user := User(0, 0);
      noNewPrivileges := false;
      maskedPaths := [];
      readonlyPaths := [];
      seccomp := false;
    }
  }

  // ---------------------------------------------------------------- sequences of options

  function CapabilitiesAfter(caps: seq<string>, opts: seq<SpecOption>, privileged: seq<string>): seq<string>
    decreases |opts|
  {
    if opts == [] then caps
    else
      var next := match opts[0]
                  case WithCapabilities(c) => caps + c
                  case WithPrivileged => caps + privileged
                  case _ => caps;
      CapabilitiesAfter(next, opts[1..], privileged)
  }

  /** What an option does to the mounts, as values. */
  datatype MountStep = Append(ms: seq<Mount>) | Strip | Same

  function MountsAfter(ms: seq<Mount>, steps: seq<MountStep>): seq<Mount>
    decreases |steps|
  {
    if steps == [] then ms
    else
      var next := match steps[0]
                  case Append(more) => ms + more
                  case Strip => Unprotected(ms)
                  case Same => ms;
      MountsAfter(next, steps[1..])
  }

  predicate OptionInBounds(o: SpecOption) { o.WithMounts? ==> InBounds(o.mounts) }

  predicate OptionsInBounds(opts: seq<SpecOption>) { forall i :: 0 <= i < |opts| ==> OptionInBounds(opts[i]) }

  /** The option lists that an option, or a sequence of them, brings along. */
  function OptionArrays(o: SpecOption): seq<array<string>> { if o.WithMounts? then Arrays(o.mounts) else [] }

  function AllArrays(opts: seq<SpecOption>): seq<array<string>> {
    if opts == [] then [] else OptionArrays(opts[0]) + AllArrays(opts[1..])
  }

  ghost function StepOf(o: SpecOption): MountStep
    requires OptionInBounds(o)
    reads Held(OptionArrays(o))
  {
    if o.WithMounts? then assert OptionArrays(o) == Arrays(o.mounts); Append(Values(o.mounts))
    else if o.WithPrivileged? then Strip else Same
  }

  ghost function Steps(opts: seq<SpecOption>): seq<MountStep>
    requires OptionsInBounds(opts)
    reads Held(AllArrays(opts))
  {
    if opts == [] then [] else [StepOf(opts[0])] + Steps(opts[1..])
  }

  method ApplyOne(spec: Spec, opt: SpecOption)
    requires spec.Valid() && OptionInBounds(opt)
    modifies spec, Held(Arrays(spec.mounts))
    ensures spec.Valid() && Arrays(spec.mounts) == old(Arrays(spec.mounts)) + OptionArrays(opt)
    ensures spec.ambient == CapabilitiesAfter(old(spec.ambient), [opt], spec.privilegedCapabilities)
    ensures Distinct(old(Arrays(spec.mounts))) ==> spec.View() == MountsAfter(old(spec.View()), [old(StepOf(opt))])
    ensures spec.Says() == SettingsStep(old(spec.Says()), opt)
  {
    assert [opt][1..] == [];
    ghost var step := StepOf(opt);
    assert [step][1..] == [];
    match opt
    case WithCapabilities(c) => spec.GrantCapabilities(c);
    case WithMounts(ms) =>
      assert Arrays(spec.mounts + ms) == Arrays(spec.mounts) + Arrays(ms);
      spec.AddMounts(ms);
    case WithPrivileged => spec.MakePrivileged();
    case _ => spec.Set(opt);
  }

  // ---------------------------------------------------------------- what the last option says

  function SettingsAfter(s: Settings, opts: seq<SpecOption>): Settings
    decreases |opts|
  {
    if opts == [] then s else SettingsAfter(SettingsStep(s, opts[0]), opts[1..])
  }

  predicate SetsUser(o: SpecOption) { o.WithUser? || o.WithPrivileged? }

  /** `i` is the last option that sets the user. */
  predicate LastUser(opts: seq<SpecOption>, i: int) {
    0 <= i < |opts| && SetsUser(opts[i]) && forall j :: i < j < |opts| ==> !SetsUser(opts[j])
  }

  predicate LastCgroupsPath(opts: seq<SpecOption>, i: int) {
    0 <= i < |opts| && opts[i].WithCgroupsPath? && forall j :: i < j < |opts| ==> !opts[j].WithCgroupsPath?
  }

  predicate Privileges(opts: seq<SpecOption>) { exists i :: 0 <= i < |opts| && opts[i].WithPrivileged? }

  predicate Unfiltered(opts: seq<SpecOption>) { exists i :: 0 <= i < |opts| && opts[i].WithoutSeccomp? }

  function NamespacesOf(opts: seq<SpecOption>): seq<string> {
    if opts == [] then []
    else (if opts[0].WithNamespace? then [opts[0].namespace] else []) + NamespacesOf(opts[1..])
  }

  /** The last option that sets the user decides, and root if that is WithPrivileged. */
  lemma {:induction false} UserAfter(s: Settings, opts: seq<SpecOption>)
    ensures forall i :: LastUser(opts, i) ==>
              SettingsAfter(s, opts).user == if opts[i].WithUser? then opts[i].user else User(0, 0)
    ensures (forall i :: 0 <= i < |opts| ==> !SetsUser(opts[i])) ==> SettingsAfter(s, opts).user == s.user
    decreases |opts|
  {
    if opts != [] {
      var rest, t := opts[1..], SettingsStep(s, opts[0]);
      UserAfter(t, rest);
      assert forall j :: 1 <= j < |opts| ==> opts[j] == rest[j - 1];
      forall i | LastUser(opts, i)
        ensures SettingsAfter(s, opts).user == if opts[i].WithUser? then opts[i].user else User(0, 0)
      {
        if i > 0 {
          assert LastUser(rest, i - 1);
        }
      }
    }
  }

  /** The namespaces are added in order. */
  lemma {:induction false} NamespacesAfter(s: Settings, opts: seq<SpecOption>)
    ensures SettingsAfter(s, opts).namespaces == s.namespaces + NamespacesOf(opts)
    decreases |opts|
  {
    if opts != [] {
      NamespacesAfter(SettingsStep(s, opts[0]), opts[1..]);
    }
  }

  /** The last cgroups path given wins. */
  lemma {:induction false} CgroupsPathAfter(s: Settings, opts: seq<SpecOption>)
    ensures forall i :: LastCgroupsPath(opts, i) ==> SettingsAfter(s, opts).cgroupsPath == opts[i].path
    ensures (forall i :: 0 <= i < |opts| ==> !opts[i].WithCgroupsPath?) ==>
              SettingsAfter(s, opts).cgroupsPath == s.cgroupsPath
    decreases |opts|
  {
    if opts != [] {
      var rest, t := opts[1..], SettingsStep(s, opts[0]);
      CgroupsPathAfter(t, rest);
      assert forall j :: 1 <= j < |opts| ==> opts[j] == rest[j - 1];
      forall i | LastCgroupsPath(opts, i) ensures SettingsAfter(s, opts).cgroupsPath == opts[i].path {
        if i > 0 {
          assert LastCgroupsPath(rest, i - 1);
        }
      }
    }
  }

  /** WithPrivileged anywhere lifts the protections, and nothing else does; seccomp goes with it or
      with WithoutSeccomp. */
  lemma {:induction false} ProtectionsAfter(s: Settings, opts: seq<SpecOption>)
    ensures var t := SettingsAfter(s, opts);
            && t.noNewPrivileges == (s.noNewPrivileges && !Privileges(opts))
            && t.maskedPaths == (if Privileges(opts) then [] else s.maskedPaths)
            && t.readonlyPaths == (if Privileges(opts) then [] else s.readonlyPaths)
            && t.seccomp == (s.seccomp && !Privileges(opts) && !Unfiltered(opts))
    decreases |opts|
  {
    if opts != [] {
      ProtectionsAfter(SettingsStep(s, opts[0]), opts[1..]);
      assert forall j :: 1 <= j < |opts| ==> opts[j] == opts[1..][j - 1];
      assert Privileges(opts) <==> opts[0].WithPrivileged? || Privileges(opts[1..]) by {
        if i :| 0 <= i < |opts[1..]| && opts[1..][i].WithPrivileged? {
          assert opts[i + 1].WithPrivileged?;
        }
      }
      assert Unfiltered(opts) <==> opts[0].WithoutSeccomp? || Unfiltered(opts[1..]) by {
        if i :| 0 <= i < |opts[1..]| && opts[1..][i].WithoutSeccomp? {
          assert opts[i + 1].WithoutSeccomp?;
        }
      }
    }
  }

  lemma {:induction false} ArraysOfOptions(opts: seq<SpecOption>)
    ensures forall x :: x in AllArrays(opts) ==>
              exists i, j :: 0 <= i < |opts| && opts[i].WithMounts? && 0 <= j < |opts[i].mounts|
                             && opts[i].mounts[j].options.store == x
    decreases |opts|
  {
    if opts != [] {
      ArraysOfOptions(opts[1..]);
      forall x | x in AllArrays(opts)
        ensures exists i, j :: 0 <= i < |opts| && opts[i].WithMounts? && 0 <= j < |opts[i].mounts|
                               && opts[i].mounts[j].options.store == x
      {
        if x in OptionArrays(opts[0]) {
          var j :| 0 <= j < |OptionArrays(opts[0])| && OptionArrays(opts[0])[j] == x;
          assert opts[0].mounts[j].options.store == x;
        } else {
          assert x in AllArrays(opts[1..]);
          var i, j :| 0 <= i < |opts[1..]| && opts[1..][i].WithMounts? && 0 <= j < |opts[1..][i].mounts|
                      && opts[1..][i].mounts[j].options.store == x;
          assert opts[i + 1].mounts[j].options.store == x;
        }
      }
    }
  }

  /** The first of some options: what the spec holds and what is pending stay the same together. */
  method ApplyHead(spec: Spec, opts: seq<SpecOption>)
    requires opts != [] && spec.Valid() && OptionsInBounds(opts)
    modifies spec, Held(Arrays(spec.mounts))
    ensures spec.Valid() && Arrays(spec.mounts) + AllArrays(opts[1..]) == old(Arrays(spec.mounts)) + AllArrays(opts)
    ensures CapabilitiesAfter(spec.ambient, opts[1..], spec.privilegedCapabilities)
            == CapabilitiesAfter(old(spec.ambient), opts, spec.privilegedCapabilities)
    ensures Distinct(old(Arrays(spec.mounts)) + AllArrays(opts)) ==>
              MountsAfter(spec.View(), Steps(opts[1..])) == MountsAfter(old(spec.View()), old(Steps(opts)))
    ensures SettingsAfter(spec.Says(), opts[1..]) == SettingsAfter(old(spec.Says()), opts)
  {
    ghost var rest, step := Steps(opts[1..]), StepOf(opts[0]);
    assert ([step] + rest)[1..] == rest;
    PendingArrays(Arrays(spec.mounts), OptionArrays(opts[0]), AllArrays(opts[1..]));
    ApplyOne(spec, opts[0]);
    assert [opts[0]][1..] == [] && [step][1..] == [];
    if Distinct(old(Arrays(spec.mounts)) + AllArrays(opts)) {
      ArraysOfOptions(opts[1..]);
      assert unchanged(Held(AllArrays(opts[1..])));
      assert Steps(opts[1..]) == rest;
    }
  }

  /** Apply, for any options in any order: the four capability sets stay equal; the spec holds the
      option lists it had and all those of the options; if no two of these are one list, the mounts are
      what the options make of them as values; the last option for the user and for the cgroups path
      decides, namespaces are added in order, and protections are only lifted by the options that say so. */
  method Apply(spec: Spec, opts: seq<SpecOption>)
    requires spec.Valid() && OptionsInBounds(opts)
    modifies spec, Held(Arrays(spec.mounts)), Held(AllArrays(opts))
    ensures spec.Valid() && Arrays(spec.mounts) == old(Arrays(spec.mounts)) + AllArrays(opts)
    ensures spec.ambient == CapabilitiesAfter(old(spec.ambient), opts, spec.privilegedCapabilities)
    ensures Distinct(Arrays(spec.mounts)) ==> spec.View() == MountsAfter(old(spec.View()), old(Steps(opts)))
    ensures forall i :: LastUser(opts, i) ==> spec.user == if opts[i].WithUser? then opts[i].user else User(0, 0)
    ensures (forall i :: 0 <= i < |opts| ==> !SetsUser(opts[i])) ==> spec.user == old(spec.user)
    ensures spec.namespaces == old(spec.namespaces) + NamespacesOf(opts)
    ensures forall i :: LastCgroupsPath(opts, i) ==> spec.cgroupsPath == opts[i].path
    ensures spec.noNewPrivileges == (old(spec.noNewPrivileges) && !Privileges(opts))
    ensures spec.seccomp == (old(spec.seccomp) && !Privileges(opts) && !Unfiltered(opts))
  {
    UserAfter(spec.Says(), opts);
    NamespacesAfter(spec.Says(), opts);
    CgroupsPathAfter(spec.Says(), opts);
    ProtectionsAfter(spec.Says(), opts);
    ApplyAll(spec, opts);
  }

  method ApplyAll(spec: Spec, opts: seq<SpecOption>)
    requires spec.Valid() && OptionsInBounds(opts)
    modifies spec, Held(Arrays(spec.mounts)), Held(AllArrays(opts))
    ensures spec.Valid() && Arrays(spec.mounts) == old(Arrays(spec.mounts)) + AllArrays(opts)
    ensures spec.ambient == CapabilitiesAfter(old(spec.ambient), opts, spec.privilegedCapabilities)
    ensures Distinct(Arrays(spec.mounts)) ==> spec.View() == MountsAfter(old(spec.View()), old(Steps(opts)))
    ensures spec.Says() == SettingsAfter(old(spec.Says()), opts)
  {
    ghost var all := Arrays(spec.mounts) + AllArrays(opts);
    ghost var goal, said := MountsAfter(spec.View(), Steps(opts)), SettingsAfter(spec.Says(), opts);
    assert opts[0..] == opts;
    for i := 0 to |opts|
      invariant spec.Valid() && Arrays(spec.mounts) + AllArrays(opts[i..]) == all
      invariant CapabilitiesAfter(spec.ambient, opts[i..], spec.privilegedCapabilities)
                == CapabilitiesAfter(old(spec.ambient), opts, spec.privilegedCapabilities)
      invariant Distinct(all) ==> MountsAfter(spec.View(), Steps(opts[i..])) == goal
      invariant SettingsAfter(spec.Says(), opts[i..]) == said
    {
      assert opts[i..][1..] == opts[i + 1..];
      HeldAreKnown(Arrays(spec.mounts), AllArrays(opts[i..]), old(Arrays(spec.mounts)), AllArrays(opts));
      ApplyHead(spec, opts[i..]);
    }
    assert opts[|opts|..] == [];
  }

  lemma HeldAreKnown(held: seq<array<string>>, pending: seq<array<string>>, had: seq<array<string>>,
                     given: seq<array<string>>)
    requires held + pending == had + given
    ensures Held(held) <= Held(had) + Held(given)
  {
    forall x | x in held ensures x in had || x in given {
      assert x in held + pending;
    }
  }

  lemma PendingArrays(held: seq<array<string>>, now: seq<array<string>>, pending: seq<array<string>>)
    ensures held + (now + pending) == held + now + pending
    ensures Distinct(held + (now + pending)) ==> Distinct(held) && Held(held) !! Held(pending)
  {
    DistinctAppend(held, now + pending);
  }

  // ---------------------------------------------------------------- privileged specs

  /** A mount as Mount builds it, or one of the default mounts. */
  ghost predicate Standard(m: Mount) {
    m in DefaultMounts() || exists o :: m.options == Opts(o)
  }

  lemma StandardHasOneNosuid(m: Mount)
    requires Standard(m)
    ensures AtMostOneNosuid(m.options)
  {
  }

  /** After WithPrivileged no standard mount has "nosuid", and every other option is kept in order. */
  lemma PrivilegedMounts(ms: seq<Mount>, i: nat)
    requires i < |ms| && Standard(ms[i])
    ensures NOSUID !in Unprotected(ms)[i].options
    ensures Unprotected(ms)[i] == ms[i].(options := Suid(ms[i].options))
  {
    StandardHasOneNosuid(ms[i]);
    OneRemovalIsEnough(ms[i].options);
    SuidKeepsOthers(ms[i].options);
  }

  lemma BuiltMountsAreStandard(all: seq<Mount>, out: seq<Mount>)
    requires MountList(all, out) && forall i :: 0 <= i < |all| ==> Standard(all[i])
    ensures forall i :: 0 <= i < |out| ==> Standard(out[i])
  {
    forall i | 0 <= i < |out| ensures Standard(out[i]) {
      assert out[i] in out;
      var k :| IsFirst(all, k) && all[k] == out[i];
    }
  }

  lemma RequestIsStandard(r: Request, expanded: seq<JobConfig.Volume>)
    ensures var all := RestrictedMounts(r) + UnrestrictedMounts(r, expanded);
            forall i :: 0 <= i < |all| ==> Standard(all[i])
  {
  }

  // ---------------------------------------------------------------- BuildSpec

  /** The list of mounts with the option lists their Mount calls made: sorting and dropping duplicates
      moves mounts around but never gives two of them one list. */
  method PickMounts(all: seq<Mount>, made: seq<SpecMount>, out: seq<Mount>) returns (r: seq<SpecMount>)
    requires InBounds(made) && Values(made) == all && Distinct(Arrays(made)) && MountList(all, out)
    ensures InBounds(r) && Values(r) == out && Distinct(Arrays(r))
    ensures Held(Arrays(r)) <= Held(Arrays(made))
  {
    r := [];
    ghost var picked: seq<nat> := [];
    for n := 0 to |out|
      invariant |r| == |picked| == n && InBounds(r)
      invariant forall i :: 0 <= i < n ==> picked[i] < |all| && r[i] == made[picked[i]] && all[picked[i]] == out[i]
    {
      var k := FindFirst(all, out, n);
      assert Values(made)[k] == AsValue(made[k]);
      r := r + [made[k]];
      picked := picked + [k];
    }
    PickedApart(all, made, out, r, picked);
  }

  method FindFirst(all: seq<Mount>, out: seq<Mount>, n: nat) returns (k: nat)
    requires MountList(all, out) && n < |out|
    ensures k < |all| && all[k] == out[n]
  {
    assert out[n] in out;
    k :| 0 <= k < |all| && all[k] == out[n];
  }

  lemma PickedApart(all: seq<Mount>, made: seq<SpecMount>, out: seq<Mount>, r: seq<SpecMount>, picked: seq<nat>)
    requires InBounds(made) && Values(made) == all && Distinct(Arrays(made)) && DistinctDestinations(out)
    requires |r| == |picked| == |out| && InBounds(r)
    requires forall i :: 0 <= i < |r| ==> picked[i] < |all| && r[i] == made[picked[i]] && all[picked[i]] == out[i]
    ensures Values(r) == out && Distinct(Arrays(r)) && Held(Arrays(r)) <= Held(Arrays(made))
  {
    forall i | 0 <= i < |r| ensures Arrays(r)[i] == Arrays(made)[picked[i]] && Values(r)[i] == out[i] {
      assert Values(made)[picked[i]] == AsValue(made[picked[i]]);
    }
    forall i, j | 0 <= i < j < |r| ensures Arrays(r)[i] != Arrays(r)[j] {
      assert out[i].destination != out[j].destination;
      assert picked[i] != picked[j];
    }
  }

  /** The configured memory limit, as far as it decides whether there is a spec. */
  datatype MemoryLimit = NoLimit | Limit(bytes: nat) | Unparsable

  /** What decides about a container besides its mounts: the user it runs as, its capabilities, whether
      it is privileged or shares the PIDs of the host; what the host can do; and its cgroups path, if it
      could be computed. */
  datatype Container = Container(
    user: User, capabilities: seq<string>, privileged: bool, hostPids: bool,
    seccompSupported: bool, cgroupsPath: CgroupsPath)

  datatype CgroupsPath = PathFound(path: string) | NoPath

  /** processCapabilities. */
  method ProcessCapabilities(caps: seq<string>) returns (r: seq<string>)
    ensures |r| == |caps| && forall i :: 0 <= i < |caps| ==> r[i] == "CAP_" + caps[i]
  {
    r := [];
    for n := 0 to |caps|
      invariant |r| == n && forall i :: 0 <= i < n ==> r[i] == "CAP_" + caps[i]
    {
      r := r + ["CAP_" + caps[n]];
    }
  }

  /** What the spec of a container says: it runs as its user, confined, unless it is privileged. */
  predicate SaysOf(s: Settings, c: Container) {
    && s.user == (if c.privileged then User(0, 0) else c.user)
    && s.noNewPrivileges == !c.privileged
    && s.maskedPaths == (if c.privileged then [] else MASKED_PATHS)
    && s.readonlyPaths == (if c.privileged then [] else READONLY_PATHS)
    && s.seccomp == (c.seccompSupported && !c.privileged)
    && s.namespaces == ["ipc", "mount", "uts"] + (if c.hostPids then [] else ["pid"])
    && s.cgroupsPath == (if c.cgroupsPath.PathFound? then c.cgroupsPath.path else "")
  }

  /** The part of BuildSpec that decides what a container may do: the default mounts, then the generated
      list; every mount but /proc has "nosuid" in an unprivileged container, and none in a privileged
      one. */
  method BuildSpec(r: Request, glob: string -> GlobResult, memory: MemoryLimit, c: Container,
                   privilegedCapabilities: seq<string>)
    returns (b: BuildResult, spec: Spec)
    ensures spec.Valid() && Distinct(Arrays(spec.mounts))
    ensures b.BuildFailed? <==> MountsFail(r, glob) || memory.Unparsable?
    ensures b.Built? ==> SaysOf(spec.Says(), c)
    ensures b.Built? ==>
              && |spec.ambient| == |c.capabilities| + (if c.privileged then |privilegedCapabilities| else 0)
              && (forall i :: 0 <= i < |c.capabilities| ==> spec.ambient[i] == "CAP_" + c.capabilities[i])
              && (c.privileged ==> spec.ambient[|c.capabilities|..] == privilegedCapabilities)
    ensures b.Built? && !c.privileged ==>
              && spec.View() == DefaultMounts() + b.mounts
              && forall i :: 0 <= i < |spec.View()| && spec.View()[i].destination != "/proc" ==>
                   "nosuid" in spec.View()[i].options
    ensures b.Built? && c.privileged ==>
              && spec.View() == Unprotected(DefaultMounts() + b.mounts)
              && forall i :: 0 <= i < |spec.View()| ==> "nosuid" !in spec.View()[i].options
  {
    b := BuildMounts(r, glob);
    if b.BuildFailed? {
      spec := new Spec(privilegedCapabilities);
      return;
    }
    var all := RestrictedMounts(r) + UnrestrictedMounts(r, Expand(r.unrestricted, glob).vols);
    var made := AllocateAll(all);
    var picked := PickMounts(all, made, b.mounts);
    var capabilities := ProcessCapabilities(c.capabilities);
    spec := Assemble(picked, capabilities, c, privilegedCapabilities);
    if memory.Unparsable? {
      b := BuildFailed;
      return;
    }
    NoNosuidLeft(r, Expand(r.unrestricted, glob).vols, b.mounts);
    Confined(r, Expand(r.unrestricted, glob).vols, b.mounts);
  }

  /** The options that matter here, in the order BuildSpec applies them. */
  method Assemble(ms: seq<SpecMount>, capabilities: seq<string>, c: Container, privilegedCapabilities: seq<string>)
    returns (spec: Spec)
    requires InBounds(ms) && Distinct(Arrays(ms))
    modifies Held(Arrays(ms))
    ensures spec.Valid() && Distinct(Arrays(spec.mounts)) && SaysOf(spec.Says(), c)
    ensures spec.ambient == capabilities + if c.privileged then privilegedCapabilities else []
    ensures !c.privileged ==> spec.View() == DefaultMounts() + old(Values(ms))
    ensures c.privileged ==> spec.View() == Unprotected(DefaultMounts() + old(Values(ms)))
  {
    spec := Begin(ms, capabilities, privilegedCapabilities);
    Isolate(spec, c.user);
    Finish(spec, c);
  }

  method Isolate(spec: Spec, user: User)
    requires spec.namespaces == []
    modifies spec`user, spec`namespaces, spec`seccomp, spec`cgroupsPath
    ensures spec.Says() == old(spec.Says()).(user := user, namespaces := ["ipc", "mount", "uts"])
  {
    spec.Set(WithUser(user));
    spec.Set(WithNamespace("ipc"));
    spec.Set(WithNamespace("mount"));
    spec.Set(WithNamespace("uts"));
  }

  method Begin(ms: seq<SpecMount>, capabilities: seq<string>, privilegedCapabilities: seq<string>)
    returns (spec: Spec)
    requires InBounds(ms) && Distinct(Arrays(ms))
    ensures fresh(spec) && fresh(Held(Arrays(spec.mounts)) - Held(Arrays(ms)))
    ensures spec.Valid() && Distinct(Arrays(spec.mounts)) && spec.View() == DefaultMounts() + old(Values(ms))
    ensures spec.privilegedCapabilities == privilegedCapabilities && spec.ambient == capabilities
    ensures spec.Says() == Settings(User(0, 0), true, MASKED_PATHS, READONLY_PATHS, true, [], "")
  {
    spec := new Spec(privilegedCapabilities);
    ghost var defaults := Arrays(spec.mounts);
    spec.GrantCapabilities(capabilities);
    spec.AddMounts(ms);
    assert Arrays(spec.mounts) == defaults + Arrays(ms);
    assert Held(Arrays(spec.mounts)) == Held(defaults) + Held(Arrays(ms));
  }

  /** The options that depend on the configuration and the host. */
  method Finish(spec: Spec, c: Container)
    requires spec.Valid() && Distinct(Arrays(spec.mounts))
    requires spec.Says() == Settings(c.user, true, MASKED_PATHS, READONLY_PATHS, true, ["ipc", "mount", "uts"], "")
    modifies spec, Held(Arrays(spec.mounts))
    ensures spec.Valid() && Arrays(spec.mounts) == old(Arrays(spec.mounts)) && SaysOf(spec.Says(), c)
    ensures spec.ambient == old(spec.ambient) + if c.privileged then spec.privilegedCapabilities else []
    ensures spec.View() == if c.privileged then Unprotected(old(spec.View())) else old(spec.View())
  {
    Restrict(spec, c);
    if c.privileged {
      spec.MakePrivileged();
    }
    if c.cgroupsPath.PathFound? {
      spec.Set(WithCgroupsPath(c.cgroupsPath.path));
    }
  }

  method Restrict(spec: Spec, c: Container)
    modifies spec`user, spec`namespaces, spec`seccomp, spec`cgroupsPath
    ensures spec.Says() == old(spec.Says()).(
              namespaces := old(spec.namespaces) + (if c.hostPids then [] else ["pid"]),
              seccomp := old(spec.seccomp) && c.seccompSupported)
  {
    if !c.hostPids {
      spec.Set(WithNamespace("pid"));
    }
    if !c.seccompSupported {
      spec.Set(WithoutSeccomp);
    }
  }

  /** Every mount of an unprivileged container but /proc has "nosuid". */
  lemma Confined(r: Request, expanded: seq<JobConfig.Volume>, out: seq<Mount>)
    requires MountList(RestrictedMounts(r) + UnrestrictedMounts(r, expanded), out)
    ensures var ms := DefaultMounts() + out;
            forall i :: 0 <= i < |ms| && ms[i].destination != "/proc" ==> "nosuid" in ms[i].options
  {
    var ms := DefaultMounts() + out;
    forall i | 0 <= i < |ms| && ms[i].destination != "/proc" ensures "nosuid" in ms[i].options {
      if i < |DefaultMounts()| {
        DefaultsAreConfined(i);
      } else {
        assert ms[i] in out;
        WhatCanBeWritten(r, expanded, out, ms[i]);
      }
    }
  }

  lemma DefaultsAreConfined(i: nat)
    requires i < |DefaultMounts()|
    ensures DefaultMounts()[i].destination != "/proc" ==>
              "nosuid" in DefaultMounts()[i].options && "noexec" in DefaultMounts()[i].options
    ensures DefaultMounts()[i].destination == "/sys" ==> "ro" in DefaultMounts()[i].options
  {
    var opts := DefaultMounts()[i].options;
    assert i > 0 ==> opts[0] == "nosuid" && opts[1] == "noexec";
    assert i == 5 ==> opts[3] == "ro";
  }

  lemma NoNosuidLeft(r: Request, expanded: seq<JobConfig.Volume>, out: seq<Mount>)
    requires MountList(RestrictedMounts(r) + UnrestrictedMounts(r, expanded), out)
    ensures var ms := Unprotected(DefaultMounts() + out); forall i :: 0 <= i < |ms| ==> "nosuid" !in ms[i].options
  {
    var ms := DefaultMounts() + out;
    RequestIsStandard(r, expanded);
    BuiltMountsAreStandard(RestrictedMounts(r) + UnrestrictedMounts(r, expanded), out);
    forall i | 0 <= i < |ms| ensures NOSUID !in Unprotected(ms)[i].options {
      assert i < |DefaultMounts()| ==> ms[i] in DefaultMounts();
      PrivilegedMounts(ms, i);
    }
  }

  // ---------------------------------------------------------------- shared option lists

  lemma {:induction false} WithoutNosuidLength(opts: seq<string>)
    ensures |WithoutNosuid(opts)| == if NOSUID in opts then |opts| - 1 else |opts|
    ensures NOSUID !in opts ==> WithoutNosuid(opts) == opts
  {
    if opts != [] {
      WithoutNosuidLength(opts[1..]);
      assert opts == [opts[0]] + opts[1..];
    }
  }

  /** What the second of two mounts with one option list of `opts` finds there. */
  function LeftForSecond(opts: seq<string>): seq<string> {
    if NOSUID in opts then WithoutNosuid(opts) + [opts[|opts| - 1]] else opts
  }

  /** Two mounts that share one option list: the first loses its "nosuid", the second is left with
      whatever the shift left behind. */
  method SharedStorage(opts: seq<string>) returns (first: seq<string>, second: seq<string>)
    ensures first == WithoutNosuid(opts) && second == WithoutNosuid(LeftForSecond(opts))
  {
    var store := new string[|opts|](i requires 0 <= i < |opts| => opts[i]);
    var shared := Slice(store, |opts|);
    assert Contents(shared) == opts;
    WithoutNosuidLength(opts);
    var r1 := RemoveNosuid(shared);
    first := Contents(r1);
    assert Contents(shared) == LeftForSecond(opts) by {
      if NOSUID in opts {
        assert store[..|opts|] == store[..r1.len] + [store[r1.len]];
      }
    }
    var r2 := RemoveNosuid(shared);
    second := Contents(r2);
  }

  /** With at most one "nosuid", sharing does no harm exactly if there is none or it is the last option:
      otherwise the second mount has its last option twice. */
  lemma SharingIsHarmless(opts: seq<string>)
    requires AtMostOneNosuid(opts)
    ensures WithoutNosuid(LeftForSecond(opts)) == WithoutNosuid(opts) <==>
            NOSUID !in opts || opts[|opts| - 1] == NOSUID
  {
    if NOSUID in opts {
      OneRemovalIsEnough(opts);
      SuidKeepsOthers(opts);
      var left := LeftForSecond(opts);
      WithoutNosuidLength(opts);
      WithoutNosuidLength(left);
      if opts[|opts| - 1] == NOSUID {
        var n := |opts| - 1;
        assert left[..n] == WithoutNosuid(opts);
        WithoutNosuidAt(left, n);
      }
    }
  }
}
