/** The systemd form of a cgroup path: src/bpm/cgroups/cgroup.go. */
module Cgroups {
  import opened Paths
  import JobId

  const SLICE_SUFFIX := ".slice"
  const FALLBACK_SLICE := "system.slice"
  const BPM := "bpm"

  predicate HasSuffix(s: string, suffix: string) {
    |suffix| <= |s| && s[|s| - |suffix|..] == suffix
  }

  /** strings.TrimLeft(s, "/"). */
  function TrimSlashes(s: string): string {
    if s != "" && s[0] == '/' then TrimSlashes(s[1..]) else s
  }

  predicate IsUnitChar(c: char) {
    'a' <= c <= 'z' || 'A' <= c <= 'Z' || '0' <= c <= '9' || c == '-' || c == '_'
  }

  function NormalizeChar(c: char): char { if IsUnitChar(c) then c else '-' }

  /** normalizeForSystemdName: a loop over the characters into a builder. */
  method Normalize(s: string) returns (b: string)
    ensures b == Normalized(s)
  {
    b := "";
    for i := 0 to |s|
      invariant b == Normalized(s[..i])
    {
      if IsUnitChar(s[i]) {
        b := b + [s[i]];
      } else {
        b := b + "-";
      }
    }
    assert s[..|s|] == s;
  }

  function Normalized(s: string): (b: string)
    ensures |b| == |s| && forall c :: c in b ==> IsUnitChar(c)
  {
    seq(|s|, i requires 0 <= i < |s| => NormalizeChar(s[i]))
  }

  // ---------------------------------------------------------------- what is chosen

  predicate IsSlice(part: string) { HasSuffix(part, SLICE_SUFFIX) }

  /** The index of the first slice among the parts, or the number of parts. */
  function SliceIndex(parts: seq<string>): (i: nat)
    ensures i <= |parts| && (i < |parts| ==> IsSlice(parts[i])) && forall j :: 0 <= j < i ==> !IsSlice(parts[j])
  {
    if parts == [] || IsSlice(parts[0]) then 0
    else
      var i := SliceIndex(parts[1..]);
      assert forall j :: 1 <= j < i + 1 ==> parts[j] == parts[1..][j - 1];
      i + 1
  }

  /** The index of the first part that is not empty, or the number of parts. */
  function NonEmptyIndex(parts: seq<string>): (i: nat)
    ensures i <= |parts| && (i < |parts| ==> parts[i] != "") && forall j :: 0 <= j < i ==> parts[j] == ""
  {
    if parts == [] || parts[0] != "" then 0
    else
      var i := NonEmptyIndex(parts[1..]);
      assert forall j :: 1 <= j < i + 1 ==> parts[j] == parts[1..][j - 1];
      i + 1
  }

  function ChosenSlice(parts: seq<string>): string {
    var i := SliceIndex(parts);
    if i < |parts| then parts[i] else FALLBACK_SLICE
  }

  /** The part that makes the name unique: the one after the slice, else the first non-empty one. */
  function Anchor(parts: seq<string>): string {
    var i, n := SliceIndex(parts), NonEmptyIndex(parts);
    if i + 1 < |parts| && parts[i + 1] != "" then parts[i + 1]
    else if n < |parts| then parts[n] else ""
  }

  function Parts(selfPath: string): seq<string> { Split(TrimSlashes(selfPath), '/') }

  function Prefix(parts: seq<string>): string {
    (if Anchor(parts) == "" then "" else Normalized(Anchor(parts)) + "-") + BPM
  }

  function CgroupsPath(selfPath: string, id: string): string {
    ChosenSlice(Parts(selfPath)) + ":" + Prefix(Parts(selfPath)) + ":" + id
  }

  /** ToSystemdCgroupsPath: two loops that stop at the first match. */
  method ToSystemdCgroupsPath(selfPath: string, id: string) returns (path: string)
    ensures path == CgroupsPath(selfPath, id)
  {
    var parts := Split(TrimSlashes(selfPath), '/');
    var slice, uniquePart := FindSlice(parts);
    if uniquePart == "" {
      uniquePart := FindAnchor(parts);
    }
    var prefix := uniquePart + BPM;
    assert prefix == Prefix(parts);
    path := slice + ":" + prefix + ":" + id;
  }

  /** The first loop: the first slice, and the part after it if that is not empty. */
  method FindSlice(parts: seq<string>) returns (slice: string, uniquePart: string)
    ensures slice == ChosenSlice(parts)
    ensures var i := SliceIndex(parts);
            uniquePart == if i + 1 < |parts| && parts[i + 1] != "" then Normalized(parts[i + 1]) + "-" else ""
  {
    slice, uniquePart := FALLBACK_SLICE, "";
    for i := 0 to |parts|
      invariant i <= SliceIndex(parts) && slice == FALLBACK_SLICE && uniquePart == ""
    {
      if HasSuffix(parts[i], SLICE_SUFFIX) {
        slice := parts[i];
        if i + 1 < |parts| {
          var normalized := Normalize(parts[i + 1]);
          if normalized != "" {
            uniquePart := normalized + "-";
          }
        }
        return;
      }
    }
  }

  /** The second loop: the first part that is not empty. */
  method FindAnchor(parts: seq<string>) returns (uniquePart: string)
    ensures var n := NonEmptyIndex(parts); uniquePart == if n < |parts| then Normalized(parts[n]) + "-" else ""
  {
    for i := 0 to |parts|
      invariant i <= NonEmptyIndex(parts)
    {
      var normalized := Normalize(parts[i]);
      if normalized != "" {
        return normalized + "-";
      }
    }
    return "";
  }

  // ---------------------------------------------------------------- what the path says

  /** Letters, digits, '-' and '_' are kept, everything else becomes a dash. */
  lemma NormalizedCharacters(s: string, i: nat)
    requires i < |s|
    ensures var c, d := s[i], Normalized(s)[i];
            if 'a' <= c <= 'z' || 'A' <= c <= 'Z' || '0' <= c <= '9' || c in {'-', '_'} then d == c else d == '-'
  {
  }

  lemma {:induction false} TrimOne(s: string)
    requires s == "" || s[0] != '/'
    ensures TrimSlashes("/" + s) == s
  {
    assert ("/" + s)[1..] == s;
  }

  lemma PartsBelowRoot(first: string, rest: string)
    requires Free(first, '/') && first != ""
    ensures Parts("/" + (first + "/" + rest)) == [first] + Split(rest, '/')
  {
    assert (first + "/" + rest)[0] == first[0] && first[0] in first;
    TrimOne(first + "/" + rest);
    SplitOfFree(first, '/');
    SplitAt(first, rest, '/');
  }

  /** The path that two choices make. */
  lemma PathOfChoices(selfPath: string, id: string, slice: string, anchor: string)
    requires ChosenSlice(Parts(selfPath)) == slice && Anchor(Parts(selfPath)) == anchor && anchor != ""
    ensures CgroupsPath(selfPath, id) == slice + ":" + (Normalized(anchor) + "-bpm") + ":" + id
  {
    assert Normalized(anchor) + "-" + BPM == Normalized(anchor) + "-bpm";
  }

  /** Inside a slice: the slice, then what comes right below it. */
  lemma SlicePath(name: string, below: string, rest: string, id: string)
    requires Free(name, '/') && Free(below, '/') && below != ""
    ensures CgroupsPath("/" + ((name + ".slice") + "/" + (below + "/" + rest)), id)
            == (name + ".slice") + ":" + (Normalized(below) + "-bpm") + ":" + id
  {
    var slice := name + ".slice";
    SuffixMeaning(slice, ".slice");
    PartsBelowRoot(slice, below + "/" + rest);
    SplitOfFree(below, '/');
    SplitAt(below, rest, '/');
    var selfPath := "/" + (slice + "/" + (below + "/" + rest));
    assert Parts(selfPath)[0] == slice && Parts(selfPath)[1] == below;
    assert SliceIndex(Parts(selfPath)) == 0;
    PathOfChoices(selfPath, id, slice, below);
  }

  /** Outside of any slice: the fallback, and the first part of the path. */
  lemma NoSlicePath(first: string, rest: string, id: string)
    requires Free(first, '/') && first != ""
    requires forall part :: part in [first] + Split(rest, '/') ==> !HasSuffix(part, ".slice")
    ensures CgroupsPath("/" + (first + "/" + rest), id)
            == "system.slice" + ":" + (Normalized(first) + "-bpm") + ":" + id
  {
    var selfPath := "/" + (first + "/" + rest);
    PartsBelowRoot(first, rest);
    var parts := Parts(selfPath);
    assert parts[0] == first;
    assert forall i :: 0 <= i < |parts| ==> !IsSlice(parts[i]);
    assert NonEmptyIndex(parts) == 0;
    PathOfChoices(selfPath, id, "system.slice", first);
  }

  lemma SuffixMeaning(s: string, suffix: string)
    ensures HasSuffix(s, suffix) <==> exists front: string :: front + suffix == s
  {
    if HasSuffix(s, suffix) {
      assert s[..|s| - |suffix|] + suffix == s;
    }
    if front: string :| front + suffix == s {
      assert s[|front|..] == suffix;
    }
  }

  // ---------------------------------------------------------------- reading it back

  lemma PrefixCharacters(parts: seq<string>)
    ensures forall c :: c in Prefix(parts) ==> IsUnitChar(c)
  {
  }

  /** The prefix says more than "bpm" exactly when some part of the path is not empty. */
  lemma PrefixIsUnique(parts: seq<string>)
    ensures Prefix(parts) != BPM <==> exists i :: 0 <= i < |parts| && parts[i] != ""
  {
    if Anchor(parts) != "" {
      assert |Prefix(parts)| > |BPM|;
    } else {
      assert Prefix(parts) == BPM;
    }
  }

  lemma SplitOfThree(slice: string, prefix: string, id: string)
    requires Free(prefix, ':') && Free(id, ':')
    ensures Split(slice + ":" + prefix + ":" + id, ':') == Split(slice, ':') + [prefix, id]
  {
    SplitOfFree(prefix, ':');
    SplitOfFree(id, ':');
    SplitAt(slice + ":" + prefix, id, ':');
    SplitAt(slice, prefix, ':');
  }

  lemma SplitIsWhole(s: string, sep: char)
    ensures Split(s, sep) == [s] <==> Free(s, sep)
  {
    if Free(s, sep) {
      SplitOfFree(s, sep);
    } else {
      JoinOfSplit(s, sep);
      assert Free(Split(s, sep)[0], sep);
    }
  }

  lemma ThreeFields(slice: string, prefix: string, id: string)
    requires Free(prefix, ':') && Free(id, ':')
    ensures Split(slice + ":" + prefix + ":" + id, ':') == [slice, prefix, id] <==> Free(slice, ':')
  {
    SplitOfThree(slice, prefix, id);
    SplitIsWhole(slice, ':');
    var parts := Split(slice, ':');
    assert (parts + [prefix, id])[..|parts|] == parts;
    assert [slice, prefix, id][..1] == [slice];
    assert [slice] + [prefix, id] == [slice, prefix, id];
  }

  /** Runc's systemd driver reads the slice, the prefix and the container ID back from the path
      exactly when the chosen slice has no ':'. */
  lemma PathParsesBack(selfPath: string, name: JobId.Bytes)
    ensures var parts, id := Parts(selfPath), JobId.Encode(name);
            Split(CgroupsPath(selfPath, id), ':') == [ChosenSlice(parts), Prefix(parts), id]
            <==> Free(ChosenSlice(parts), ':')
  {
    PrefixCharacters(Parts(selfPath));
    JobId.EncodedCharacters(name);
    ThreeFields(ChosenSlice(Parts(selfPath)), Prefix(Parts(selfPath)), JobId.Encode(name));
  }
}
