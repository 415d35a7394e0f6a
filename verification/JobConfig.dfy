/** Process configurations: src/bpm/config/job_config.go. */
module JobConfig {
  import opened Paths

  datatype Volume = Volume(path: string, writable: bool, allowExecutions: bool, mountOnly: bool, shared: bool)

  datatype Verdict =
    | Accepted
    | BadName | BadExecutable | BadSignal
    | NotCanonical(path: string) | ConflictsWithDefault(path: string) | OutsideRoot(path: string)
    | BadVolume(definition: string) | BadOption(option: string)
    | BadVariable(definition: string)

  // ---------------------------------------------------------------- validation

  function VolumeVerdict(path: string, root: string, defaults: seq<string>): Verdict {
    if Clean(path) != path then NotCanonical(path)
    else if path in defaults then ConflictsWithDefault(path)
    else if !Under(path, Clean(root), '/') then OutsideRoot(path)
    else Accepted
  }

  /** The verdict on the first volume that is not accepted. */
  function VolumesVerdict(vols: seq<Volume>, root: string, defaults: seq<string>): Verdict {
    if vols == [] then Accepted
    else
      var v := VolumeVerdict(vols[0].path, root, defaults);
      if v != Accepted then v else VolumesVerdict(vols[1..], root, defaults)
  }

  predicate GoodSignal(signal: string) { signal == "" || signal == "TERM" || signal == "INT" }

  lemma {:induction false} VolumesAccepted(vols: seq<Volume>, root: string, defaults: seq<string>)
    ensures VolumesVerdict(vols, root, defaults) == Accepted <==>
            forall i :: 0 <= i < |vols| ==> VolumeVerdict(vols[i].path, root, defaults) == Accepted
  {
    if vols != [] {
      VolumesAccepted(vols[1..], root, defaults);
      assert forall i :: 1 <= i < |vols| ==> vols[i] == vols[1..][i - 1];
    }
  }

  /** Below an absolute root, a volume is accepted exactly when all its parts are plain, it lies
      strictly below the root and it is no default volume. */
  lemma AcceptedVolume(path: string, root: string, defaults: seq<string>)
    requires Rooted(root)
    ensures VolumeVerdict(path, root, defaults) == Accepted <==>
            PlainBelowRoot(path) && Split(Clean(root), '/') < Split(path, '/') && path !in defaults
    ensures VolumeVerdict(path, root, defaults) == Accepted ==> Clean(path) == path
  {
    var top := Clean(root);
    CleanIsNormal(root);
    RenderReadsBack(true, Resolve(true, [], Split(root, '/')));
    ComponentPrefix(path, top, '/');
    if Under(path, top, '/') {
      assert path[0] == top[0];
      AbsoluteFixedPoints(path);
    }
  }

  /** With "/" as root no volume is accepted. */
  lemma SlashRootAcceptsNothing(path: string, defaults: seq<string>)
    ensures VolumeVerdict(path, "/", defaults) != Accepted
  {
    ShortPaths();
    assert Clean("/") == "/";
    AcceptedVolume(path, "/", defaults);
    assert Split(Clean("/"), '/')[1] == "";
  }

  // ---------------------------------------------------------------- volumes from flags

  datatype Parsed = Parsed(volume: Volume) | Rejected(verdict: Verdict)

  function SetOption(v: Volume, option: string): Parsed {
    if option == "writable" then Parsed(v.(writable := true))
    else if option == "mount_only" then Parsed(v.(mountOnly := true))
    else if option == "allow_executions" then Parsed(v.(allowExecutions := true))
    else if option == "shared" then Parsed(v.(shared := true))
    else Rejected(BadOption(option))
  }

  function SetOptions(v: Volume, options: seq<string>): Parsed
    decreases |options|
  {
    if options == [] then Parsed(v)
    else
      var r := SetOption(v, options[0]);
      if r.Rejected? then r else SetOptions(r.volume, options[1..])
  }

  /** <path>[:<options>] */
  function ParseVolume(definition: string): Parsed {
    var fields := Split(definition, ':');
    if |fields| > 2 then Rejected(BadVolume(definition))
    else
      var v := Volume(fields[0], false, false, false, false);
      if |fields| == 2 then SetOptions(v, Split(fields[1], ',')) else Parsed(v)
  }

  /** The volumes before the first definition that is rejected. */
  function ParsedVolumes(definitions: seq<string>): seq<Volume> {
    if definitions == [] || ParseVolume(definitions[0]).Rejected? then []
    else [ParseVolume(definitions[0]).volume] + ParsedVolumes(definitions[1..])
  }

  function DefinitionsVerdict(definitions: seq<string>): Verdict {
    if definitions == [] then Accepted
    else
      var r := ParseVolume(definitions[0]);
      if r.Rejected? then r.verdict else DefinitionsVerdict(definitions[1..])
  }

  function Options(v: Volume): seq<string> {
    (if v.writable then ["writable"] else []) + (if v.mountOnly then ["mount_only"] else [])
    + (if v.allowExecutions then ["allow_executions"] else []) + (if v.shared then ["shared"] else [])
  }

  /** A flag that describes a volume. */
  function FormatVolume(v: Volume): string {
    if Options(v) == [] then v.path else v.path + ":" + Join(Options(v), ',')
  }

  lemma {:induction false} SetOptionsAppend(v: Volume, a: seq<string>, b: seq<string>)
    requires SetOptions(v, a).Parsed?
    ensures SetOptions(v, a + b) == SetOptions(SetOptions(v, a).volume, b)
    decreases |a|
  {
    if a == [] {
      assert a + b == b;
    } else {
      assert (a + b)[1..] == a[1..] + b;
      SetOptionsAppend(SetOption(v, a[0]).volume, a[1..], b);
    }
  }

  lemma SetOneOption(v: Volume, option: string, given: bool)
    ensures SetOptions(v, if given then [option] else []) == if given then SetOption(v, option) else Parsed(v)
  {
    if given {
      var r := SetOption(v, option);
      assert [option][1..] == [];
      assert r.Parsed? ==> SetOptions(r.volume, [option][1..]) == r;
    }
  }

  lemma OptionsSetBack(v: Volume)
    ensures SetOptions(Volume(v.path, false, false, false, false), Options(v)) == Parsed(v)
  {
    var v0 := Volume(v.path, false, false, false, false);
    var w, m := if v.writable then ["writable"] else [], if v.mountOnly then ["mount_only"] else [];
    var a, s := if v.allowExecutions then ["allow_executions"] else [], if v.shared then ["shared"] else [];
    var v1 := v0.(writable := v.writable);
    var v2 := v1.(mountOnly := v.mountOnly);
    var v3 := v2.(allowExecutions := v.allowExecutions);
    SetOneOption(v0, "writable", v.writable);
    SetOneOption(v1, "mount_only", v.mountOnly);
    SetOneOption(v2, "allow_executions", v.allowExecutions);
    SetOneOption(v3, "shared", v.shared);
    SetOptionsAppend(v0, w, m);
    SetOptionsAppend(v0, w + m, a);
    SetOptionsAppend(v0, w + m + a, s);
  }

  lemma OptionsAreFree(v: Volume)
    ensures AllFree(Options(v), ',') && AllFree(Options(v), ':')
  {
  }

  lemma {:induction false} JoinIsFree(parts: seq<string>, sep: char, c: char)
    requires |parts| >= 1 && AllFree(parts, c) && sep != c
    ensures Free(Join(parts, sep), c)
  {
    if |parts| > 1 {
      JoinIsFree(parts[1..], sep, c);
      assert Free(parts[0], c);
    }
  }

  /** Every volume whose path has no ':' can be given by a flag. */
  lemma ParseOfFormat(v: Volume)
    requires Free(v.path, ':')
    ensures ParseVolume(FormatVolume(v)) == Parsed(v)
  {
    SplitOfFree(v.path, ':');
    OptionsAreFree(v);
    OptionsSetBack(v);
    if Options(v) != [] {
      var o := Join(Options(v), ',');
      JoinIsFree(Options(v), ',', ':');
      SplitOfFree(o, ':');
      SplitAt(v.path, o, ':');
      SplitOfJoin(Options(v), ',');
    }
  }

  // ---------------------------------------------------------------- environment variables from flags

  /** Where strings.SplitN(e, "=", 2) cuts: the first '=', or the length if there is none. */
  function CutPoint(e: string): (n: nat)
    ensures n <= |e| && Free(e[..n], '=') && (n < |e| ==> e[n] == '=')
  {
    if e == "" || e[0] == '=' then 0
    else
      var n := CutPoint(e[1..]);
      assert e[..n + 1] == [e[0]] + e[1..][..n];
      n + 1
  }

  predicate IsVariable(e: string) { CutPoint(e) < |e| }

  function KeyOf(e: string): string
    requires IsVariable(e)
  {
    e[..CutPoint(e)]
  }

  function ValueOf(e: string): string
    requires IsVariable(e)
  {
    e[CutPoint(e) + 1..]
  }

  /** Entering variables one by one up to the first that is malformed. */
  function EnterVariables(env: map<string, string>, vars: seq<string>): map<string, string>
    decreases |vars|
  {
    if vars == [] || !IsVariable(vars[0]) then env
    else EnterVariables(env[KeyOf(vars[0]) := ValueOf(vars[0])], vars[1..])
  }

  function VariablesVerdict(vars: seq<string>): Verdict {
    if vars == [] then Accepted
    else if !IsVariable(vars[0]) then BadVariable(vars[0])
    else VariablesVerdict(vars[1..])
  }

  /** `i` is the last of the variables that sets this key. */
  predicate LastFor(vars: seq<string>, key: string, i: int) {
    && 0 <= i < |vars| && IsVariable(vars[i]) && KeyOf(vars[i]) == key
    && forall j :: i < j < |vars| ==> IsVariable(vars[j]) ==> KeyOf(vars[j]) != key
  }

  predicate NoneSets(vars: seq<string>, key: string) {
    forall i :: 0 <= i < |vars| && IsVariable(vars[i]) ==> KeyOf(vars[i]) != key
  }

  /** A key that no variable sets keeps what the configuration says. */
  lemma {:induction false} UnsetKeyStays(env: map<string, string>, vars: seq<string>, key: string)
    requires NoneSets(vars, key)
    ensures key in EnterVariables(env, vars) <==> key in env
    ensures key in env ==> EnterVariables(env, vars)[key] == env[key]
    decreases |vars|
  {
    if vars != [] && IsVariable(vars[0]) {
      UnsetKeyStays(env[KeyOf(vars[0]) := ValueOf(vars[0])], vars[1..], key);
    }
  }

  /** The last value given for a key wins, over the configuration too. */
  lemma {:induction false} LastValueWins(env: map<string, string>, vars: seq<string>, key: string, i: int)
    requires VariablesVerdict(vars) == Accepted && LastFor(vars, key, i)
    ensures key in EnterVariables(env, vars) && EnterVariables(env, vars)[key] == ValueOf(vars[i])
    decreases |vars|
  {
    var env', rest := env[KeyOf(vars[0]) := ValueOf(vars[0])], vars[1..];
    if i > 0 {
      LastValueWins(env', rest, key, i - 1);
    } else {
      UnsetKeyStays(env', rest, key);
    }
  }

  // ---------------------------------------------------------------- the configuration object

  class ProcessConfig {
    var name: string
    var executable: string
    var env: map<string, string>
    var additionalVolumes: seq<Volume>
    var shutdownSignal: string

    constructor (name: string, executable: string, env: map<string, string>, volumes: seq<Volume>, signal: string)
      ensures this.name == name && this.executable == executable && this.env == env
      ensures additionalVolumes == volumes && shutdownSignal == signal
    {
      this.name := name;
      this.executable := executable;
      this.env := env;
      this.additionalVolumes := volumes;
      this.shutdownSignal := signal;
    }

    function Verdict(root: string, defaults: seq<string>): Verdict
      reads this
    {
      if name == "" then BadName
      else if executable == "" then BadExecutable
      else
        var v := VolumesVerdict(additionalVolumes, root, defaults);
        if v != Accepted then v else if !GoodSignal(shutdownSignal) then BadSignal else Accepted
    }

    method Validate(root: string, defaults: seq<string>) returns (r: Verdict)
      ensures r == Verdict(root, defaults)
      ensures r == Accepted <==>
              && name != "" && executable != "" && GoodSignal(shutdownSignal)
              && forall i :: 0 <= i < |additionalVolumes| ==>
                   VolumeVerdict(additionalVolumes[i].path, root, defaults) == Accepted
    {
      VolumesAccepted(additionalVolumes, root, defaults);
      if name == "" {
        return BadName;
      }
      if executable == "" {
        return BadExecutable;
      }
      for i := 0 to |additionalVolumes|
        invariant VolumesVerdict(additionalVolumes, root, defaults)
                  == VolumesVerdict(additionalVolumes[i..], root, defaults)
      {
        var vol := additionalVolumes[i];
        var volCleaned := Clean(vol.path);
        assert additionalVolumes[i..][1..] == additionalVolumes[i + 1..];
        if volCleaned != vol.path {
          return NotCanonical(vol.path);
        }
        var known := Contains(defaults, volCleaned);
        if known {
          return ConflictsWithDefault(vol.path);
        }
        var inside := PathIsIn(volCleaned, [Clean(root)]);
        assert inside <==> Under(volCleaned, [Clean(root)][0], '/');
        if !inside {
          return OutsideRoot(vol.path);
        }
      }
      if shutdownSignal != "" && shutdownSignal != "TERM" && shutdownSignal != "INT" {
        return BadSignal;
      }
      return Accepted;
    }

    /** Appends one volume per flag, then validates. A malformed flag stops it half way. */
    method AddVolumes(volumes: seq<string>, root: string, defaults: seq<string>) returns (r: Verdict)
      modifies this`additionalVolumes
      ensures additionalVolumes == old(additionalVolumes) + ParsedVolumes(volumes)
      ensures r == if DefinitionsVerdict(volumes) != Accepted then DefinitionsVerdict(volumes)
                   else Verdict(root, defaults)
      ensures r == Accepted ==> forall i :: 0 <= i < |additionalVolumes| ==>
                VolumeVerdict(additionalVolumes[i].path, root, defaults) == Accepted
    {
      for n := 0 to |volumes|
        invariant additionalVolumes + ParsedVolumes(volumes[n..]) == old(additionalVolumes) + ParsedVolumes(volumes)
        invariant DefinitionsVerdict(volumes[n..]) == DefinitionsVerdict(volumes)
      {
        assert volumes[n..][1..] == volumes[n + 1..];
        var fields := Split(volumes[n], ':');
        if |fields| > 2 {
          return BadVolume(volumes[n]);
        }
        var v := Volume(fields[0], false, false, false, false);
        if |fields| == 2 {
          var options := Split(fields[1], ',');
          for j := 0 to |options|
            invariant ParseVolume(volumes[n]) == SetOptions(v, options[j..])
          {
            assert options[j..][1..] == options[j + 1..];
            match options[j]
            case "writable" => v := v.(writable := true);
            case "mount_only" => v := v.(mountOnly := true);
            case "allow_executions" => v := v.(allowExecutions := true);
            case "shared" => v := v.(shared := true);
            case _ => return BadOption(options[j]);
          }
        }
        additionalVolumes := additionalVolumes + [v];
      }
      r := Validate(root, defaults);
    }

    /** Enters KEY=VALUE flags into the environment, then validates. */
    method AddEnvVars(vars: seq<string>, root: string, defaults: seq<string>) returns (r: Verdict)
      modifies this`env
      ensures env == EnterVariables(old(env), vars)
      ensures r == if VariablesVerdict(vars) != Accepted then VariablesVerdict(vars) else Verdict(root, defaults)
    {
      for n := 0 to |vars|
        invariant EnterVariables(env, vars[n..]) == EnterVariables(old(env), vars)
        invariant VariablesVerdict(vars[n..]) == VariablesVerdict(vars)
      {
        assert vars[n..][1..] == vars[n + 1..];
        if !IsVariable(vars[n]) {
          return BadVariable(vars[n]);
        }
        env := env[KeyOf(vars[n]) := ValueOf(vars[n])];
      }
      r := Validate(root, defaults);
    }
  }

  method Contains(elements: seq<string>, s: string) returns (r: bool)
    ensures r <==> s in elements
  {
    for i := 0 to |elements|
      invariant s !in elements[..i]
    {
      if s == elements[i] {
        return true;
      }
    }
    return false;
  }
}
