/** The names a job and a process give to a container and to lock files:
    src/bpm/config/bpm_config.go and src/bpm/hostlock/hostlock.go. */
module Names {
  import opened JobId

  datatype Key = Key(job: Bytes, process: Bytes)

  const DOT: Bytes := "."
  const JOB_PREFIX: Bytes := "job-"
  const VOLUME_PREFIX: Bytes := "vol-"
  const LOCK_SUFFIX: Bytes := ".lock"

  function Dotted(k: Key): Bytes {
    k.job + DOT + k.process
  }

  /** ContainerID before encoding: the process name is dropped when it equals the job name. */
  function ContainerName(k: Key): Bytes {
    if k.job == k.process then k.job else Dotted(k)
  }

  function ContainerId(k: Key): Bytes {
    Encode(ContainerName(k))
  }

  /** The file LockJob opens in the lock directory. It has no special case for equal names. */
  function JobLockFile(k: Key): Bytes {
    JOB_PREFIX + Encode(Dotted(k)) + LOCK_SUFFIX
  }

  /** The file LockVolume opens; `digest` is the hex digest of the volume path. */
  function VolumeLockFile(digest: Bytes): Bytes {
    VOLUME_PREFIX + digest + LOCK_SUFFIX
  }

  predicate DotFree(name: Bytes) {
    '.' !in name
  }

  /** The two keys name their container in the same way: both by the short form or both dotted. */
  predicate SameForm(a: Key, b: Key) {
    (a.job == a.process) == (b.job == b.process)
  }

  /** A job lock file and a volume lock file are never the same file. */
  lemma LockFilesDisjoint(k: Key, digest: Bytes)
    ensures JobLockFile(k) != VolumeLockFile(digest)
  {
    assert JobLockFile(k)[0] == 'j' && VolumeLockFile(digest)[0] == 'v';
  }

  /** Volume lock files are equal exactly when the digests are. */
  lemma VolumeLockFileEquality(a: Bytes, b: Bytes)
    ensures VolumeLockFile(a) == VolumeLockFile(b) <==> a == b
  {
    assert VolumeLockFile(a)[4..4 + |a|] == a;
    assert VolumeLockFile(b)[4..4 + |b|] == b;
  }

  /** Job lock files are equal exactly when the dotted names are. */
  lemma JobLockFileEquality(a: Key, b: Key)
    ensures JobLockFile(a) == JobLockFile(b) <==> Dotted(a) == Dotted(b)
  {
    if JobLockFile(a) == JobLockFile(b) {
      var la, lb := Encode(Dotted(a)), Encode(Dotted(b));
      assert la == JobLockFile(a)[4..4 + |la|];
      assert lb == JobLockFile(b)[4..4 + |lb|];
      EncodeInjective(Dotted(a), Dotted(b));
    }
  }

  /** Two keys with one container take one lock exactly when they name it in the same form. */
  lemma SharedContainerLock(a: Key, b: Key)
    requires ContainerId(a) == ContainerId(b)
    ensures JobLockFile(a) == JobLockFile(b) <==> SameForm(a, b)
  {
    EncodeInjective(ContainerName(a), ContainerName(b));
    JobLockFileEquality(a, b);
    if a.job == a.process && b.job != b.process {
      assert |Dotted(a)| > |Dotted(b)|;
    } else if a.job != a.process && b.job == b.process {
      assert |Dotted(b)| > |Dotted(a)|;
    }
  }

  lemma FirstDot(k: Key)
    requires DotFree(k.job)
    ensures Dotted(k)[|k.job|] == '.'
    ensures forall i :: 0 <= i < |k.job| ==> Dotted(k)[i] != '.'
  {
    forall i | 0 <= i < |k.job| ensures Dotted(k)[i] != '.' {
      assert k.job[i] in k.job;
    }
  }

  lemma DottedInjective(a: Key, b: Key)
    requires DotFree(a.job) && DotFree(b.job)
    requires Dotted(a) == Dotted(b)
    ensures a == b
  {
    FirstDot(a);
    FirstDot(b);
    assert |a.job| == |b.job|;
    assert a.job == Dotted(a)[..|a.job|] == Dotted(b)[..|b.job|] == b.job;
    assert a.process == Dotted(a)[|a.job| + 1..] == Dotted(b)[|b.job| + 1..] == b.process;
  }

  lemma DottedHasDot(k: Key)
    ensures !DotFree(Dotted(k))
  {
    assert Dotted(k)[|k.job|] == '.';
  }

  /** With dot-free job names both names are injective, so one container means one lock. */
  lemma DotFreeNames(a: Key, b: Key)
    requires DotFree(a.job) && DotFree(b.job)
    ensures ContainerId(a) == ContainerId(b) <==> a == b
    ensures JobLockFile(a) == JobLockFile(b) <==> a == b
  {
    if JobLockFile(a) == JobLockFile(b) {
      JobLockFileEquality(a, b);
      DottedInjective(a, b);
    }
    if ContainerId(a) == ContainerId(b) {
      EncodeInjective(ContainerName(a), ContainerName(b));
      DottedHasDot(a);
      DottedHasDot(b);
      if a.job != a.process && b.job != b.process {
        DottedInjective(a, b);
      }
    }
  }

  /** Keys whose forms differ can share a container and still take different locks. */
  lemma DottedJobBreaksLock()
    ensures var a, b := Key("a.b", "a.b"), Key("a", "b");
            ContainerId(a) == ContainerId(b) && JobLockFile(a) != JobLockFile(b)
  {
    var a, b := Key("a.b", "a.b"), Key("a", "b");
    assert ContainerName(a) == ContainerName(b);
    SharedContainerLock(a, b);
  }

  /** Decoding a container ID gives the job name or the job and process names back. */
  lemma ContainerIdDecodes(k: Key)
    ensures Decode(ContainerId(k)) == Decoded(if k.job == k.process then k.job else k.job + DOT + k.process)
  {
    DecodeOfEncode(ContainerName(k));
  }
}
