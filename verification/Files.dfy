/** The bundle and the pidfile of a process: BundlePath and PidFile of src/bpm/config/bpm_config.go. */
module Files {
  import opened Paths
  import opened Names

  /** A path as its elements: one path lies at or below another one exactly if it extends it. */
  type Path = seq<string>

  predicate Apart(a: Path, b: Path) { !(a <= b) && !(b <= a) }

  /** Names that are single path elements. */
  predicate PlainNames(k: Key) { Plain(k.job) && Plain(k.process) }

  /** Names that are paths of plain elements: slashes are allowed. */
  predicate PlainPaths(k: Key) { PlainPath(k.job) && PlainPath(k.process) }

  function Slashed(k: Key): string { k.job + "/" + k.process }

  /** `bundles` is BundlesRoot. */
  function BundlePath(bundles: string, k: Key): string { JoinTwo(bundles, k.job, k.process) }

  /** `run` is the directory RunDir("bpm") that holds one directory of pidfiles per job. */
  function PidFile(run: string, k: Key): string { JoinTwo(run, k.job, k.process + ".pid") }

  lemma SlashedIsPlain(job: string, process: string)
    requires PlainPath(job) && PlainPath(process)
    ensures PlainPath(job + "/" + process)
  {
    SplitAt(job, process, '/');
  }

  lemma PidIsPlain(process: string)
    requires PlainPath(process)
    ensures PlainPath(process + ".pid")
  {
    SplitWithSuffix(process, ".pid", '/');
    var parts := Split(process, '/');
    assert Plain(parts[|parts| - 1]);
  }

  /** Two keys share their bundle, and their pidfile, exactly if their names agree once a slash is put
      between them. */
  lemma SharedFiles(bundles: string, run: string, a: Key, b: Key)
    requires bundles != "" && run != "" && PlainPaths(a) && PlainPaths(b)
    ensures BundlePath(bundles, a) == BundlePath(bundles, b) <==> Slashed(a) == Slashed(b)
    ensures PidFile(run, a) == PidFile(run, b) <==> Slashed(a) == Slashed(b)
  {
    SlashedIsPlain(a.job, a.process);
    SlashedIsPlain(b.job, b.process);
    BelowInjective(bundles, Slashed(a), Slashed(b));
    assert bundles + "/" + a.job + "/" + a.process == bundles + "/" + Slashed(a);
    assert bundles + "/" + b.job + "/" + b.process == bundles + "/" + Slashed(b);
    SharedPidfile(run, a, b);
  }

  lemma SameSuffix(p: string, q: string, suffix: string)
    ensures p + suffix == q + suffix <==> p == q
  {
    var m := |p + suffix| - |suffix|;
    assert (p + suffix)[..m] == p;
    if p + suffix == q + suffix {
      assert (q + suffix)[..m] == q;
    }
  }

  lemma PidfileBelow(run: string, k: Key)
    requires PlainPaths(k)
    ensures PidFile(run, k) == Clean(run + "/" + (Slashed(k) + ".pid")) && PlainPath(Slashed(k) + ".pid")
  {
    SlashedIsPlain(k.job, k.process);
    PidIsPlain(Slashed(k));
    assert run + "/" + k.job + "/" + (k.process + ".pid") == run + "/" + (Slashed(k) + ".pid");
  }

  lemma SharedPidfile(run: string, a: Key, b: Key)
    requires run != "" && PlainPaths(a) && PlainPaths(b)
    ensures PidFile(run, a) == PidFile(run, b) <==> Slashed(a) == Slashed(b)
  {
    PidfileBelow(run, a);
    PidfileBelow(run, b);
    BelowInjective(run, Slashed(a) + ".pid", Slashed(b) + ".pid");
    SameSuffix(Slashed(a), Slashed(b), ".pid");
  }

  lemma PlainIsPath(name: string)
    requires Plain(name)
    ensures Split(name, '/') == [name] && PlainPath(name)
  {
    SplitOfFree(name, '/');
  }

  /** So distinct keys of plain names have distinct bundles and distinct pidfiles. */
  lemma FilesAreDistinct(bundles: string, run: string, a: Key, b: Key)
    requires bundles != "" && run != "" && PlainNames(a) && PlainNames(b)
    ensures BundlePath(bundles, a) == BundlePath(bundles, b) <==> a == b
    ensures PidFile(run, a) == PidFile(run, b) <==> a == b
  {
    PlainIsPath(a.job);
    PlainIsPath(a.process);
    PlainIsPath(b.job);
    PlainIsPath(b.process);
    SharedFiles(bundles, run, a, b);
    SplitAt(a.job, a.process, '/');
    SplitAt(b.job, b.process, '/');
    assert [a.job, a.process] == [a.job] + [a.process] && [b.job, b.process] == [b.job] + [b.process];
    assert Slashed(a) == Slashed(b) ==> [a.job, a.process] == [b.job, b.process];
  }

  /** A slash in a name breaks this: these two keys share bundle and pidfile, but neither the
      container nor the lock. */
  lemma SlashedNamesShareFiles(bundles: string, run: string)
    ensures var a, b := Key("x", "y/z"), Key("x/y", "z");
            && BundlePath(bundles, a) == BundlePath(bundles, b) && PidFile(run, a) == PidFile(run, b)
            && ContainerId(a) != ContainerId(b) && JobLockFile(a) != JobLockFile(b)
  {
    var a, b := Key("x", "y/z"), Key("x/y", "z");
    assert bundles + "/" + a.job + "/" + a.process == bundles + "/" + b.job + "/" + b.process;
    assert run + "/" + a.job + "/" + (a.process + ".pid") == run + "/" + b.job + "/" + (b.process + ".pid");
    assert Dotted(a)[1] == '.' && Dotted(b)[1] == '/';
    JobLockFileEquality(a, b);
    if ContainerId(a) == ContainerId(b) {
      SharedContainerLock(a, b);
    }
  }

  // ---------------------------------------------------------------- the files of a bosh host

  /** The elements of BundlesRoot and RunDir("bpm") below the default root. */
  const BUNDLES: Path := ["var", "vcap", "data", "bpm", "bundles"]
  const PIDFILES: Path := ["var", "vcap", "sys", "run", "bpm"]

  /** The bundle and the pidfile of a key, whatever its names are. */
  function BundleOf(k: Key): Path { Resolve(true, BUNDLES, Split(Slashed(k), '/')) }

  function PidOf(k: Key): Path { Resolve(true, PIDFILES, Split(Slashed(k) + ".pid", '/')) }

  lemma ElementsBelowRoot(base: Path, p: string)
    requires AllPlain(base)
    ensures Elements(Clean(Render(true, base) + "/" + p)) == Resolve(true, base, Split(p, '/'))
  {
    RenderReadsBack(true, base);
    ElementsOfJoin(Render(true, base), p);
  }

  /** BundlePath and PidFile resolve the slashed name below their directory, for every pair of names. */
  lemma FilesBelow(base: Path, k: Key)
    requires AllPlain(base)
    ensures Elements(BundlePath(Render(true, base), k)) == Resolve(true, base, Split(Slashed(k), '/'))
    ensures Elements(PidFile(Render(true, base), k)) == Resolve(true, base, Split(Slashed(k) + ".pid", '/'))
  {
    ElementsBelowRoot(base, Slashed(k));
    ElementsBelowRoot(base, Slashed(k) + ".pid");
    SlashedBelow(Render(true, base), k, "");
    SlashedBelow(Render(true, base), k, ".pid");
    assert k.process + "" == k.process && Slashed(k) + "" == Slashed(k);
  }

  lemma SlashedBelow(base: string, k: Key, suffix: string)
    ensures base + "/" + k.job + "/" + (k.process + suffix) == base + "/" + (Slashed(k) + suffix)
  {
  }

  /** The source joins the pidfile in three steps, each cleaning what it has: this changes nothing. */
  lemma PidFileJoins(root: string, dir: string, k: Key)
    requires root != "" && dir != "" && !Rooted(dir)
    ensures Clean(root + "/" + Clean(Clean(dir + "/" + k.job) + "/" + (k.process + ".pid")))
            == PidFile(root + "/" + dir, k)
  {
    var inner := dir + "/" + k.job;
    var pid := k.process + ".pid";
    CleanTwice(inner, pid);
    assert !Rooted(inner + "/" + pid);
    JoinOfClean(root, inner + "/" + pid);
    assert root + "/" + (inner + "/" + pid) == root + "/" + dir + "/" + k.job + "/" + pid;
  }

  lemma PlainBelow(base: Path, p: string)
    requires AllPlain(base) && PlainPath(p)
    ensures Resolve(true, base, Split(p, '/')) == base + Split(p, '/')
  {
    NormalAppend(true, base, Split(p, '/'));
    ResolveNormal(true, base, Split(p, '/'));
  }

  lemma PlainFiles(k: Key)
    requires PlainPaths(k)
    ensures BundleOf(k) == BUNDLES + Split(Slashed(k), '/')
    ensures PidOf(k) == PIDFILES + Split(Slashed(k) + ".pid", '/')
  {
    SlashedIsPlain(k.job, k.process);
    PidIsPlain(Slashed(k));
    PlainBelow(BUNDLES, Slashed(k));
    PlainBelow(PIDFILES, Slashed(k) + ".pid");
  }

  lemma PrefixBelow(base: Path, p: string, q: string)
    ensures base + Split(q, '/') <= base + Split(p, '/') <==> p == q || Under(p, q, '/')
  {
    ComponentPrefix(p, q, '/');
    var a, b := base + Split(q, '/'), base + Split(p, '/');
    assert a[|base|..] == Split(q, '/') && b[|base|..] == Split(p, '/');
    if a <= b {
      assert b[..|a|][|base|..] == b[|base|..][..|a| - |base|];
    }
    if Split(q, '/') <= Split(p, '/') {
      assert b[..|a|] == a;
    }
  }

  /** One bundle contains another one exactly if the slashed names are equal or one starts with the
      other and a slash; and so for pidfiles. */
  lemma NestedFiles(a: Key, b: Key)
    requires PlainPaths(a) && PlainPaths(b)
    ensures BundleOf(b) <= BundleOf(a) <==> Slashed(a) == Slashed(b) || Under(Slashed(a), Slashed(b), '/')
    ensures PidOf(b) <= PidOf(a) <==> Slashed(a) == Slashed(b) || Under(Slashed(a) + ".pid", Slashed(b) + ".pid", '/')
  {
    PlainFiles(a);
    PlainFiles(b);
    PrefixBelow(BUNDLES, Slashed(a), Slashed(b));
    PrefixBelow(PIDFILES, Slashed(a) + ".pid", Slashed(b) + ".pid");
    SameSuffix(Slashed(a), Slashed(b), ".pid");
  }

  lemma TwoParts(a: string, b: string)
    requires Free(a, '/') && Free(b, '/')
    ensures Split(a + "/" + b, '/') == [a, b]
  {
    SplitOfFree(a, '/');
    SplitOfFree(b, '/');
    SplitAt(a, b, '/');
  }

  lemma PlainNameFiles(k: Key)
    requires PlainNames(k)
    ensures BundleOf(k) == BUNDLES + [k.job, k.process] && PidOf(k) == PIDFILES + [k.job, k.process + ".pid"]
  {
    PlainIsPath(k.job);
    PlainIsPath(k.process);
    PlainFiles(k);
    TwoParts(k.job, k.process);
    TwoParts(k.job, k.process + ".pid");
    assert Slashed(k) + ".pid" == k.job + "/" + (k.process + ".pid");
  }

  /** So the files of distinct keys of plain names neither coincide nor nest. */
  lemma PlainFilesApart(a: Key, b: Key)
    requires PlainNames(a) && PlainNames(b) && a != b
    ensures Apart(BundleOf(a), BundleOf(b)) && Apart(PidOf(a), PidOf(b))
  {
    PlainNameFiles(a);
    PlainNameFiles(b);
    SameSuffix(a.process, b.process, ".pid");
    LastTwo(BUNDLES, a.job, a.process, b.job, b.process);
    LastTwo(PIDFILES, a.job, a.process + ".pid", b.job, b.process + ".pid");
  }

  lemma LastTwo(base: Path, a: string, b: string, c: string, d: string)
    requires a != c || b != d
    ensures Apart(base + [a, b], base + [c, d])
  {
    var n := |base|;
    assert (base + [a, b])[n] == a && (base + [a, b])[n + 1] == b;
    assert (base + [c, d])[n] == c && (base + [c, d])[n + 1] == d;
  }

  /** A slash also lets one bundle contain another one while the locks differ. */
  lemma SlashedNameNests()
    ensures var a, b := Key("x", "y/z"), Key("x", "y");
            BundleOf(b) <= BundleOf(a) && ContainerId(a) != ContainerId(b) && JobLockFile(a) != JobLockFile(b)
  {
    var a, b := Key("x", "y/z"), Key("x", "y");
    DotFreeNames(a, b);
    PlainIsPath("x");
    PlainIsPath("y");
    PlainIsPath("z");
    SplitAt("y", "z", '/');
    assert "y" + "/" + "z" == a.process;
    assert Under(Slashed(a), Slashed(b), '/');
    NestedFiles(a, b);
  }
}
