/** The lexical rules of Go's strings.Split, filepath.Clean and filepath.Join that bpm relies on. */
module Paths {

  // ---------------------------------------------------------------- splitting and joining

  predicate Free(s: string, sep: char) { sep !in s }

  ghost predicate AllFree(parts: seq<string>, sep: char) {
    forall i :: 0 <= i < |parts| ==> Free(parts[i], sep)
  }

  /** One more character in front: a separator starts a new part, anything else joins the first. */
  function InFront(c: char, sep: char, parts: seq<string>): (r: seq<string>)
    requires |parts| >= 1
    ensures |r| >= 1
  {
    if c == sep then [""] + parts else [[c] + parts[0]] + parts[1..]
  }

  /** strings.Split with a one-character separator. */
  function Split(s: string, sep: char): (parts: seq<string>)
    ensures |parts| >= 1
  {
    if s == "" then [""] else InFront(s[0], sep, Split(s[1..], sep))
  }

  function Join(parts: seq<string>, sep: char): string
    requires |parts| >= 1
  {
    if |parts| == 1 then parts[0] else parts[0] + [sep] + Join(parts[1..], sep)
  }

  lemma {:induction false} JoinOfSplit(s: string, sep: char)
    ensures Join(Split(s, sep), sep) == s && AllFree(Split(s, sep), sep)
  {
    if s != "" {
      JoinOfSplit(s[1..], sep);
      var rest := Split(s[1..], sep);
      var parts := Split(s, sep);
      if s[0] == sep {
        assert parts[1..] == rest;
      } else {
        assert parts[1..] == rest[1..];
        assert Join(parts, sep) == [s[0]] + Join(rest, sep);
      }
    }
  }

  lemma {:induction false} SplitOfFree(s: string, sep: char)
    requires Free(s, sep)
    ensures Split(s, sep) == [s]
  {
    if s != "" {
      SplitOfFree(s[1..], sep);
      assert s == [s[0]] + s[1..];
    }
  }

  /** Splitting at one separator splits both sides. */
  lemma {:induction false} SplitAt(a: string, b: string, sep: char)
    ensures Split(a + [sep] + b, sep) == Split(a, sep) + Split(b, sep)
  {
    if a == "" {
      assert a + [sep] + b == [sep] + b;
      assert ([sep] + b)[1..] == b;
    } else {
      SplitAt(a[1..], b, sep);
      var s := a + [sep] + b;
      assert s[0] == a[0] && s[1..] == a[1..] + [sep] + b;
      InFrontAppend(a[0], sep, Split(a[1..], sep), Split(b, sep));
    }
  }

  lemma InFrontAppend(c: char, sep: char, a: seq<string>, b: seq<string>)
    requires |a| >= 1
    ensures InFront(c, sep, a + b) == InFront(c, sep, a) + b
  {
    assert (a + b)[1..] == a[1..] + b;
  }

  lemma {:induction false} SplitOfJoin(parts: seq<string>, sep: char)
    requires |parts| >= 1 && AllFree(parts, sep)
    ensures Split(Join(parts, sep), sep) == parts
  {
    SplitOfFree(parts[0], sep);
    if |parts| > 1 {
      SplitOfJoin(parts[1..], sep);
      SplitAt(parts[0], Join(parts[1..], sep), sep);
      assert parts == [parts[0]] + parts[1..];
    } else {
      assert parts == [parts[0]];
    }
  }

  lemma {:induction false} JoinAppend(a: seq<string>, b: seq<string>, sep: char)
    requires |a| >= 1 && |b| >= 1
    ensures Join(a + b, sep) == Join(a, sep) + [sep] + Join(b, sep)
  {
    assert (a + b)[1..] == a[1..] + b;
    if |a| > 1 {
      JoinAppend(a[1..], b, sep);
    }
  }

  /** The string starts with `q` and a separator. */
  predicate Under(p: string, q: string, sep: char) { q + [sep] <= p }

  /** The parts of `q` are a proper prefix of the parts of `p` exactly when `p` starts with `q` and
      a separator. */
  lemma ComponentPrefix(p: string, q: string, sep: char)
    ensures Split(q, sep) < Split(p, sep) <==> Under(p, q, sep)
    ensures Split(q, sep) <= Split(p, sep) <==> p == q || Under(p, q, sep)
  {
    var ps, qs := Split(p, sep), Split(q, sep);
    JoinOfSplit(p, sep);
    JoinOfSplit(q, sep);
    if Under(p, q, sep) {
      var b := p[|q| + 1..];
      SplitAt(q, b, sep);
      assert p == q + [sep] + b;
    }
    if qs < ps {
      var rest := ps[|qs|..];
      JoinAppend(qs, rest, sep);
      assert ps == qs + rest;
    }
    if qs <= ps && |qs| == |ps| {
      assert qs == ps;
    }
  }

  /** pathIsIn of src/bpm/config/job_config.go. */
  method PathIsIn(path: string, prefixes: seq<string>) returns (r: bool)
    ensures r <==> exists i :: 0 <= i < |prefixes| && Under(path, prefixes[i], '/')
  {
    var volParts := Split(path, '/');
    for n := 0 to |prefixes|
      invariant forall i :: 0 <= i < n ==> !Under(path, prefixes[i], '/')
    {
      var validParts := Split(prefixes[n], '/');
      ComponentPrefix(path, prefixes[n], '/');
      if |volParts| <= |validParts| {
        continue;
      }
      var match' := true;
      for i := 0 to |validParts|
        invariant match' && volParts[..i] == validParts[..i]
      {
        if volParts[i] != validParts[i] {
          match' := false;
          break;
        }
      }
      if !match' {
        continue;
      }
      assert validParts == validParts[..|validParts|];
      return true;
    }
    return false;
  }

  // ---------------------------------------------------------------- cleaning

  /** One path element on top of the elements kept so far: empty and "." elements vanish, ".."
      removes the element before it, and at the root nothing. */
  function Push(rooted: bool, kept: seq<string>, part: string): seq<string> {
    if part == "" || part == "." then kept
    else if part == ".." then
      if kept != [] && kept[|kept| - 1] != ".." then kept[..|kept| - 1]
      else if rooted then kept
      else kept + [part]
    else kept + [part]
  }

  function Resolve(rooted: bool, kept: seq<string>, parts: seq<string>): seq<string>
    decreases |parts|
  {
    if parts == [] then kept else Resolve(rooted, Push(rooted, kept, parts[0]), parts[1..])
  }

  function Render(rooted: bool, kept: seq<string>): string {
    if rooted then (if kept == [] then "/" else "/" + Join(kept, '/'))
    else if kept == [] then "." else Join(kept, '/')
  }

  predicate Rooted(p: string) { "/" <= p }

  /** filepath.Clean. */
  function Clean(p: string): string {
    Render(Rooted(p), Resolve(Rooted(p), [], Split(p, '/')))
  }

  /** A path element that Clean keeps as it is. */
  predicate Plain(part: string) {
    part != "" && part != "." && part != ".." && Free(part, '/')
  }

  /** Elements that Clean leaves: plain ones, and in a relative path leading ".." elements. */
  ghost predicate Normal(rooted: bool, kept: seq<string>) {
    && (forall i :: 0 <= i < |kept| ==> Plain(kept[i]) || (!rooted && kept[i] == ".."))
    && (forall i, j :: 0 <= i < j < |kept| && kept[j] == ".." ==> kept[i] == "..")
  }

  lemma {:induction false} ResolveIsNormal(rooted: bool, kept: seq<string>, parts: seq<string>)
    requires Normal(rooted, kept) && AllFree(parts, '/')
    ensures Normal(rooted, Resolve(rooted, kept, parts))
    decreases |parts|
  {
    if parts != [] {
      assert Free(parts[0], '/');
      ResolveIsNormal(rooted, Push(rooted, kept, parts[0]), parts[1..]);
    }
  }

  lemma {:induction false} ResolveNormal(rooted: bool, kept: seq<string>, parts: seq<string>)
    requires Normal(rooted, kept + parts)
    ensures Resolve(rooted, kept, parts) == kept + parts
    decreases |parts|
  {
    if parts != [] {
      var part := parts[0];
      assert part == (kept + parts)[|kept|];
      assert kept + parts == (kept + [part]) + parts[1..];
      if kept != [] {
        assert kept[|kept| - 1] == (kept + parts)[|kept| - 1];
      }
      assert Push(rooted, kept, part) == kept + [part];
      ResolveNormal(rooted, kept + [part], parts[1..]);
    } else {
      assert kept + parts == kept;
    }
  }

  lemma {:induction false} ResolveAppend(rooted: bool, kept: seq<string>, a: seq<string>, b: seq<string>)
    ensures Resolve(rooted, kept, a + b) == Resolve(rooted, Resolve(rooted, kept, a), b)
    decreases |a|
  {
    if a == [] {
      assert a + b == b;
    } else {
      assert (a + b)[1..] == a[1..] + b;
      ResolveAppend(rooted, Push(rooted, kept, a[0]), a[1..], b);
    }
  }

  lemma NormalIsFree(rooted: bool, kept: seq<string>)
    requires Normal(rooted, kept)
    ensures AllFree(kept, '/')
  {
    forall i | 0 <= i < |kept| ensures Free(kept[i], '/') {
      assert Plain(kept[i]) || kept[i] == "..";
    }
  }

  lemma ShortPaths()
    ensures Split("/", '/') == ["", ""] && Resolve(true, [], ["", ""]) == []
    ensures Split(".", '/') == ["."] && Resolve(false, [], ["."]) == []
  {
    assert Split("", '/') == [""];
    SplitOfFree(".", '/');
    assert "/"[1..] == "";
    assert ["", ""][1..] == [""] && Resolve(true, [], [""]) == Resolve(true, [], []);
    assert ["."][1..] == [];
  }

  lemma RootedReadsBack(kept: seq<string>)
    requires Normal(true, kept) && kept != []
    ensures Split(Render(true, kept), '/') == [""] + kept
    ensures Resolve(true, [], [""] + kept) == kept
  {
    NormalIsFree(true, kept);
    SplitOfJoin(kept, '/');
    SplitAt("", Join(kept, '/'), '/');
    assert "" + "/" + Join(kept, '/') == Render(true, kept);
    assert Split("", '/') == [""];
    assert ([""] + kept)[1..] == kept && [] + kept == kept;
    ResolveNormal(true, [], kept);
  }

  lemma RelativeReadsBack(kept: seq<string>)
    requires Normal(false, kept) && kept != []
    ensures !Rooted(Render(false, kept)) && Split(Render(false, kept), '/') == kept
    ensures Resolve(false, [], kept) == kept
  {
    NormalIsFree(false, kept);
    SplitOfJoin(kept, '/');
    assert [] + kept == kept;
    ResolveNormal(false, [], kept);
    FirstCharacter(kept);
  }

  /** Rendering normal elements can be read back. */
  lemma RenderReadsBack(rooted: bool, kept: seq<string>)
    requires Normal(rooted, kept)
    ensures var p := Render(rooted, kept); Rooted(p) == rooted && Resolve(rooted, [], Split(p, '/')) == kept
    ensures kept != [] ==> Split(Render(rooted, kept), '/') == if rooted then [""] + kept else kept
  {
    if kept == [] {
      ShortPaths();
    } else if rooted {
      RootedReadsBack(kept);
    } else {
      RelativeReadsBack(kept);
    }
  }

  lemma FirstCharacter(kept: seq<string>)
    requires |kept| >= 1 && kept[0] != "" && Free(kept[0], '/')
    ensures !Rooted(Join(kept, '/'))
  {
    assert Join(kept, '/')[0] == kept[0][0];
  }

  lemma CleanIsNormal(p: string)
    ensures Normal(Rooted(p), Resolve(Rooted(p), [], Split(p, '/')))
  {
    JoinOfSplit(p, '/');
    ResolveIsNormal(Rooted(p), [], Split(p, '/'));
  }

  lemma {:induction false} ResolveMiddle(rooted: bool, a: seq<string>, mid: seq<string>, b: seq<string>)
    requires Resolve(rooted, Resolve(rooted, [], a), mid) == Resolve(rooted, [], a)
    ensures Resolve(rooted, [], a + mid + b) == Resolve(rooted, [], a + b)
  {
    ResolveAppend(rooted, [], a, b);
    ResolveAppend(rooted, [], a + mid, b);
    ResolveAppend(rooted, [], a, mid);
  }

  lemma ResolveUp(rooted: bool, kept: seq<string>, x: string)
    requires Plain(x)
    ensures Resolve(rooted, kept, [x, ".."]) == kept
    ensures Resolve(rooted, kept, [""]) == kept && Resolve(rooted, kept, ["."]) == kept
    ensures Resolve(true, [], [".."]) == []
  {
    assert [x, ".."][1..] == [".."] && [".."][1..] == [] && [""][1..] == [] && ["."][1..] == [];
    assert (kept + [x])[..|kept|] == kept;
  }

  lemma SplitAround(a: string, mid: string, b: string)
    ensures Split(a + "/" + mid + "/" + b, '/') == Split(a, '/') + Split(mid, '/') + Split(b, '/')
  {
    SplitAt(a + "/" + mid, b, '/');
    SplitAt(a, mid, '/');
  }

  lemma DropMiddle(a: string, mid: string, b: string)
    requires a != ""
    requires Resolve(Rooted(a), Resolve(Rooted(a), [], Split(a, '/')), Split(mid, '/'))
             == Resolve(Rooted(a), [], Split(a, '/'))
    ensures Clean(a + "/" + mid + "/" + b) == Clean(a + "/" + b)
  {
    SplitAround(a, mid, b);
    SplitAt(a, b, '/');
    ResolveMiddle(Rooted(a), Split(a, '/'), Split(mid, '/'), Split(b, '/'));
  }

  /** The rules of filepath.Clean: repeated slashes, "." elements, and an element before ".." with it,
      disappear; ".." at the root disappears. */
  lemma CleanRules(a: string, x: string, b: string)
    requires Plain(x)
    ensures a != "" ==> Clean(a + "//" + b) == Clean(a + "/" + b)
    ensures a != "" ==> Clean(a + "/./" + b) == Clean(a + "/" + b)
    ensures a != "" ==> Clean(a + "/" + x + "/../" + b) == Clean(a + "/" + b)
    ensures Clean("/../" + b) == Clean("/" + b)
  {
    if a != "" {
      DropDots(a, b);
      DropUp(a, x, b);
    }
    RootUp(b);
  }

  lemma DropDots(a: string, b: string)
    requires a != ""
    ensures Clean(a + "//" + b) == Clean(a + "/" + b) && Clean(a + "/./" + b) == Clean(a + "/" + b)
  {
    SplitOfFree("", '/');
    SplitOfFree(".", '/');
    ResolveUp(Rooted(a), Resolve(Rooted(a), [], Split(a, '/')), "x");
    DropMiddle(a, "", b);
    DropMiddle(a, ".", b);
    assert a + "/" + "" + "/" + b == a + "//" + b;
    assert a + "/" + "." + "/" + b == a + "/./" + b;
  }

  lemma DropUp(a: string, x: string, b: string)
    requires a != "" && Plain(x)
    ensures Clean(a + "/" + x + "/../" + b) == Clean(a + "/" + b)
  {
    SplitOfFree("..", '/');
    SplitOfFree(x, '/');
    SplitAt(x, "..", '/');
    assert [x] + [".."] == [x, ".."];
    ResolveUp(Rooted(a), Resolve(Rooted(a), [], Split(a, '/')), x);
    DropMiddle(a, x + "/" + "..", b);
    assert a + "/" + (x + "/" + "..") + "/" + b == a + "/" + x + "/../" + b;
  }

  lemma RootUp(b: string)
    ensures Clean("/../" + b) == Clean("/" + b)
  {
    SplitOfFree("", '/');
    SplitOfFree("..", '/');
    SplitAround("", "..", b);
    SplitAt("", b, '/');
    assert "" + "/" + ".." + "/" + b == "/../" + b && "" + "/" + b == "/" + b;
    ResolveUp(true, [], "x");
    assert [""][1..] == [] && Resolve(true, [], [""]) == [];
    ResolveMiddle(true, [""], [".."], Split(b, '/'));
  }

  /** Cleaning a path twice is cleaning it once. */
  lemma CleanIdempotent(p: string)
    ensures Clean(Clean(p)) == Clean(p)
  {
    CleanIsNormal(p);
    RenderReadsBack(Rooted(p), Resolve(Rooted(p), [], Split(p, '/')));
  }

  /** Every part after the leading slash is plain. */
  ghost predicate PlainBelowRoot(p: string) {
    var parts := Split(p, '/');
    |parts| >= 2 && parts[0] == "" && forall i :: 1 <= i < |parts| ==> Plain(parts[i])
  }

  lemma CleanPathIsPlain(p: string)
    requires Rooted(p) && Clean(p) == p && p != "/"
    ensures PlainBelowRoot(p)
  {
    var parts := Split(p, '/');
    var kept := Resolve(true, [], parts);
    CleanIsNormal(p);
    RenderReadsBack(true, kept);
    forall i | 1 <= i < |parts| ensures Plain(parts[i]) {
      assert parts[i] == kept[i - 1];
    }
  }

  lemma PlainPathIsClean(p: string)
    requires PlainBelowRoot(p)
    ensures Rooted(p) && Clean(p) == p
  {
    var parts := Split(p, '/');
    var below := parts[1..];
    assert [] + below == below && Normal(true, below);
    ResolveNormal(true, [], below);
    JoinOfSplit(p, '/');
    assert p == "" + "/" + Join(below, '/') == "/" + Join(below, '/');
  }

  /** The absolute paths Clean leaves alone: the root, and those whose parts are all plain. */
  lemma AbsoluteFixedPoints(p: string)
    requires Rooted(p)
    ensures Clean(p) == p <==> p == "/" || PlainBelowRoot(p)
  {
    if p == "/" {
      ShortPaths();
    } else if PlainBelowRoot(p) {
      PlainPathIsClean(p);
    } else if Clean(p) == p {
      CleanPathIsPlain(p);
    }
  }

  // ---------------------------------------------------------------- joining names onto a base

  /** filepath.Join of a non-empty base and two names; Clean drops empty ones. */
  function JoinTwo(base: string, a: string, b: string): string {
    Clean(base + "/" + a + "/" + b)
  }

  /** Cleaned paths are equal exactly if they resolve to the same elements. */
  lemma CleanEqual(p: string, q: string)
    ensures Clean(p) == Clean(q) <==>
            && Rooted(p) == Rooted(q)
            && Resolve(Rooted(p), [], Split(p, '/')) == Resolve(Rooted(q), [], Split(q, '/'))
  {
    CleanIsNormal(p);
    CleanIsNormal(q);
    RenderReadsBack(Rooted(p), Resolve(Rooted(p), [], Split(p, '/')));
    RenderReadsBack(Rooted(q), Resolve(Rooted(q), [], Split(q, '/')));
  }

  /** The elements of a path, as Clean resolves them. */
  function Elements(p: string): seq<string> { Resolve(Rooted(p), [], Split(p, '/')) }

  /** Joining a name resolves its parts below the elements of the base. */
  lemma ElementsOfJoin(base: string, p: string)
    requires base != ""
    ensures Elements(Clean(base + "/" + p)) == Resolve(Rooted(base), Elements(base), Split(p, '/'))
  {
    var whole := base + "/" + p;
    ElementsOfWhole(base, p);
    CleanIsNormal(whole);
    RenderReadsBack(Rooted(whole), Elements(whole));
  }

  lemma {:induction false} ResolveSnoc(rooted: bool, kept: seq<string>, parts: seq<string>, part: string)
    ensures Resolve(rooted, kept, parts + [part]) == Push(rooted, Resolve(rooted, kept, parts), part)
  {
    ResolveAppend(rooted, kept, parts, [part]);
    assert [part][1..] == [];
  }

  lemma PushThrough(rooted: bool, base: seq<string>, kept: seq<string>, part: string)
    requires Normal(false, kept)
    ensures Resolve(rooted, base, Push(false, kept, part)) == Push(rooted, Resolve(rooted, base, kept), part)
  {
    if part == ".." && kept != [] && kept[|kept| - 1] != ".." {
      var n := |kept| - 1;
      assert kept == kept[..n] + [kept[n]];
      ResolveSnoc(rooted, base, kept[..n], kept[n]);
    } else {
      ResolveSnoc(rooted, base, kept, part);
    }
  }

  /** Resolving a relative path first and then below a base is resolving it below the base. */
  lemma {:induction false} ResolveThrough(rooted: bool, base: seq<string>, kept: seq<string>, parts: seq<string>)
    requires Normal(false, kept) && AllFree(parts, '/')
    ensures Resolve(rooted, base, Resolve(false, kept, parts)) == Resolve(rooted, Resolve(rooted, base, kept), parts)
    decreases |parts|
  {
    if parts != [] {
      assert Free(parts[0], '/');
      PushThrough(rooted, base, kept, parts[0]);
      ResolveThrough(rooted, base, Push(false, kept, parts[0]), parts[1..]);
    }
  }

  /** Cleaning a relative name before joining it changes nothing. */
  lemma JoinOfClean(base: string, p: string)
    requires base != "" && !Rooted(p)
    ensures Clean(base + "/" + Clean(p)) == Clean(base + "/" + p)
  {
    var rooted, kept := Rooted(base), Elements(p);
    CleanIsNormal(p);
    JoinOfSplit(p, '/');
    ResolveThrough(rooted, Elements(base), [], Split(p, '/'));
    SplitOfCleaned(rooted, Elements(base), p);
    ElementsOfWhole(base, p);
    ElementsOfWhole(base, Clean(p));
  }

  lemma ElementsOfWhole(base: string, p: string)
    requires base != ""
    ensures Rooted(base + "/" + p) == Rooted(base)
    ensures Elements(base + "/" + p) == Resolve(Rooted(base), Elements(base), Split(p, '/'))
  {
    SplitAt(base, p, '/');
    ResolveAppend(Rooted(base), [], Split(base, '/'), Split(p, '/'));
  }

  /** Cleaning the base before joining changes nothing, either. */
  lemma CleanTwice(base: string, p: string)
    requires base != ""
    ensures Clean(Clean(base) + "/" + p) == Clean(base + "/" + p)
  {
    CleanIsNormal(base);
    RenderReadsBack(Rooted(base), Elements(base));
    ElementsOfWhole(base, p);
    ElementsOfWhole(Clean(base), p);
  }

  lemma SplitOfCleaned(rooted: bool, base: seq<string>, p: string)
    requires !Rooted(p)
    ensures Resolve(rooted, base, Split(Clean(p), '/')) == Resolve(rooted, base, Elements(p))
  {
    CleanIsNormal(p);
    RenderReadsBack(false, Elements(p));
    if Elements(p) == [] {
      ShortPaths();
      assert ["."][1..] == [];
    }
  }

  /** A path of plain elements only. */
  predicate PlainPath(p: string) { AllPlain(Split(p, '/')) }

  predicate AllPlain(parts: seq<string>) { forall i :: 0 <= i < |parts| ==> Plain(parts[i]) }

  lemma ElementsBelow(base: string, p: string)
    requires base != "" && PlainPath(p)
    ensures Rooted(base + "/" + p) == Rooted(base)
    ensures Resolve(Rooted(base), [], Split(base + "/" + p, '/'))
            == Resolve(Rooted(base), [], Split(base, '/')) + Split(p, '/')
  {
    var rooted, kept := Rooted(base), Resolve(Rooted(base), [], Split(base, '/'));
    SplitAt(base, p, '/');
    ResolveAppend(rooted, [], Split(base, '/'), Split(p, '/'));
    CleanIsNormal(base);
    NormalAppend(rooted, kept, Split(p, '/'));
    ResolveNormal(rooted, kept, Split(p, '/'));
  }

  lemma NormalAppend(rooted: bool, kept: seq<string>, parts: seq<string>)
    requires Normal(rooted, kept) && AllPlain(parts)
    ensures Normal(rooted, kept + parts)
  {
  }

  /** Paths of plain elements stay apart below every base. */
  lemma BelowInjective(base: string, p: string, q: string)
    requires base != "" && PlainPath(p) && PlainPath(q)
    ensures Clean(base + "/" + p) == Clean(base + "/" + q) <==> p == q
  {
    var kept := Resolve(Rooted(base), [], Split(base, '/'));
    ElementsBelow(base, p);
    ElementsBelow(base, q);
    CleanEqual(base + "/" + p, base + "/" + q);
    if kept + Split(p, '/') == kept + Split(q, '/') {
      assert (kept + Split(p, '/'))[|kept|..] == Split(p, '/');
      assert (kept + Split(q, '/'))[|kept|..] == Split(q, '/');
      JoinOfSplit(p, '/');
      JoinOfSplit(q, '/');
    }
  }

  /** The last part made longer. */
  function Suffixed(parts: seq<string>, suffix: string): seq<string>
    requires |parts| >= 1
  {
    parts[|parts| - 1 := parts[|parts| - 1] + suffix]
  }

  lemma InFrontSuffixed(c: char, sep: char, parts: seq<string>, suffix: string)
    requires |parts| >= 1
    ensures InFront(c, sep, Suffixed(parts, suffix)) == Suffixed(InFront(c, sep, parts), suffix)
  {
    if |parts| == 1 {
      assert [c] + (parts[0] + suffix) == [c] + parts[0] + suffix;
    }
  }

  lemma {:induction false} SplitWithSuffix(p: string, suffix: string, sep: char)
    requires Free(suffix, sep)
    ensures Split(p + suffix, sep) == Suffixed(Split(p, sep), suffix)
    decreases |p|
  {
    if p == "" {
      SplitOfFree(suffix, sep);
      assert p + suffix == suffix && "" + suffix == suffix;
    } else {
      SplitWithSuffix(p[1..], suffix, sep);
      assert (p + suffix)[0] == p[0] && (p + suffix)[1..] == p[1..] + suffix;
      InFrontSuffixed(p[0], sep, Split(p[1..], sep), suffix);
    }
  }
}
