/** The environment of a container process: processEnvironment of src/bpm/runc/adapter/adapter.go. */
module Environment {
  import opened Paths
  import opened JobConfig

  function Entry(key: string, value: string): string { key + "=" + value }

  const TMPDIR := "TMPDIR"
  const LANG := "LANG"
  const PATH := "PATH"
  const HOME := "HOME"
  const DEFAULT_LANG := "en_US.UTF-8"

  function DefaultPath(binDir: string): string {
    binDir + ":/usr/local/bin:/usr/local/sbin:/usr/bin:/usr/sbin:/bin:/sbin:."
  }

  /** What bpm sets when the configuration does not: the temporary, job and data directories are
      the internal paths of the job. */
  function Defaults(tmpDir: string, binDir: string, dataDir: string): map<string, string> {
    map[TMPDIR := tmpDir, LANG := DEFAULT_LANG, PATH := DefaultPath(binDir), HOME := dataDir]
  }

  /** The list names every key of the environment once, in some order. */
  predicate Lists(environ: seq<string>, keys: seq<string>, env: map<string, string>) {
    && |keys| == |environ|
    && (forall i :: 0 <= i < |keys| ==> keys[i] in env && environ[i] == Entry(keys[i], env[keys[i]]))
    && (forall i, j :: 0 <= i < j < |keys| ==> keys[i] != keys[j])
    && (forall k :: k in env ==> k in keys)
  }

  /** The entries of the configured variables come in whatever order the map yields them. */
  method ListVariables(env: map<string, string>) returns (environ: seq<string>, ghost keys: seq<string>)
    ensures Lists(environ, keys, env)
  {
    environ, keys := [], [];
    ghost var listed: map<string, string> := map[];
    var left := env.Keys;
    while left != {}
      invariant left <= env.Keys && listed == env - left
      invariant Lists(environ, keys, listed)
    {
      var k :| k in left;
      environ := environ + [Entry(k, env[k])];
      keys := keys + [k];
      listed := listed[k := env[k]];
      assert keys[|keys| - 1] == k;
      left := left - {k};
    }
  }

  /** The environment with a value for a key that had none. */
  function FillIn(env: map<string, string>, key: string, value: string): map<string, string> {
    if key in env then env else env[key := value]
  }

  method AddDefault(environ: seq<string>, ghost keys: seq<string>, ghost listed: map<string, string>,
                    env: map<string, string>, key: string, value: string)
    returns (environ': seq<string>, ghost keys': seq<string>)
    requires Lists(environ, keys, listed) && (key in env <==> key in listed)
    ensures Lists(environ', keys', FillIn(listed, key, value))
  {
    environ', keys' := environ, keys;
    if key !in env {
      environ' := environ' + [Entry(key, value)];
      keys' := keys' + [key];
      assert keys'[|keys|] == key;
    }
  }

  method ProcessEnvironment(env: map<string, string>, tmpDir: string, binDir: string, dataDir: string)
    returns (environ: seq<string>, ghost keys: seq<string>)
    ensures Lists(environ, keys, Defaults(tmpDir, binDir, dataDir) + env)
    ensures ReadBack(environ) == Defaults(tmpDir, binDir, dataDir) + env <==> forall k :: k in env ==> Free(k, '=')
    ensures "TMPDIR" !in env ==> "TMPDIR=" + tmpDir in environ
    ensures "LANG" !in env ==> "LANG=" + "en_US.UTF-8" in environ
    ensures "HOME" !in env ==> "HOME=" + dataDir in environ
    ensures "PATH" !in env ==>
              "PATH=" + (binDir + ":/usr/local/bin:/usr/local/sbin:/usr/bin:/usr/sbin:/bin:/sbin:.") in environ
  {
    environ, keys := EnvironmentList(env, tmpDir, binDir, dataDir);
    EnvironmentReadsBack(environ, keys, Defaults(tmpDir, binDir, dataDir) + env);
    DefaultKeysAreFree(tmpDir, binDir, dataDir);
    DefaultsListed(env, tmpDir, binDir, dataDir, environ, keys);
  }

  lemma ListedEntry(environ: seq<string>, keys: seq<string>, env: map<string, string>, key: string)
    requires Lists(environ, keys, env) && key in env
    ensures Entry(key, env[key]) in environ
  {
    var i :| 0 <= i < |keys| && keys[i] == key;
    assert environ[i] == Entry(key, env[key]);
  }

  lemma DefaultListed(environ: seq<string>, keys: seq<string>, defaults: map<string, string>,
                      env: map<string, string>, key: string, value: string)
    requires Lists(environ, keys, defaults + env) && key !in env && key in defaults && defaults[key] == value
    ensures Entry(key, value) in environ
  {
    ListedEntry(environ, keys, defaults + env, key);
  }

  lemma DefaultsListed(env: map<string, string>, tmpDir: string, binDir: string, dataDir: string,
                       environ: seq<string>, keys: seq<string>)
    requires Lists(environ, keys, Defaults(tmpDir, binDir, dataDir) + env)
    ensures "TMPDIR" !in env ==> "TMPDIR=" + tmpDir in environ
    ensures "LANG" !in env ==> "LANG=" + "en_US.UTF-8" in environ
    ensures "HOME" !in env ==> "HOME=" + dataDir in environ
    ensures "PATH" !in env ==>
              "PATH=" + (binDir + ":/usr/local/bin:/usr/local/sbin:/usr/bin:/usr/sbin:/bin:/sbin:.") in environ
  {
    var defaults := Defaults(tmpDir, binDir, dataDir);
    FourDefaults(tmpDir, binDir, dataDir);
    EntryText(tmpDir);
    EntryText("en_US.UTF-8");
    EntryText(dataDir);
    EntryText(DefaultPath(binDir));
    if "TMPDIR" !in env {
      DefaultListed(environ, keys, defaults, env, "TMPDIR", tmpDir);
    }
    if "LANG" !in env {
      DefaultListed(environ, keys, defaults, env, "LANG", "en_US.UTF-8");
    }
    if "HOME" !in env {
      DefaultListed(environ, keys, defaults, env, "HOME", dataDir);
    }
    if "PATH" !in env {
      DefaultListed(environ, keys, defaults, env, "PATH", DefaultPath(binDir));
    }
  }

  lemma FourDefaults(tmpDir: string, binDir: string, dataDir: string)
    ensures var d := Defaults(tmpDir, binDir, dataDir);
            && d.Keys == {"TMPDIR", "LANG", "PATH", "HOME"}
            && d["TMPDIR"] == tmpDir && d["LANG"] == "en_US.UTF-8" && d["HOME"] == dataDir
            && d["PATH"] == DefaultPath(binDir)
  {
    assert TMPDIR[0] == 'T' && LANG[0] == 'L' && PATH[0] == 'P' && HOME[0] == 'H';
  }

  lemma EntryText(value: string)
    ensures Entry("TMPDIR", value) == "TMPDIR=" + value && Entry("LANG", value) == "LANG=" + value
    ensures Entry("HOME", value) == "HOME=" + value && Entry("PATH", value) == "PATH=" + value
  {
    assert "TMPDIR" + "=" == "TMPDIR=" && "LANG" + "=" == "LANG=";
    assert "HOME" + "=" == "HOME=" && "PATH" + "=" == "PATH=";
  }

  /** The variables, then the defaults for those that are missing. */
  method EnvironmentList(env: map<string, string>, tmpDir: string, binDir: string, dataDir: string)
    returns (environ: seq<string>, ghost keys: seq<string>)
    ensures Lists(environ, keys, Defaults(tmpDir, binDir, dataDir) + env)
  {
    ghost var e1 := FillIn(env, TMPDIR, tmpDir);
    ghost var e2 := FillIn(e1, LANG, DEFAULT_LANG);
    ghost var e3 := FillIn(e2, PATH, DefaultPath(binDir));
    FillInIsDefault(env, tmpDir, binDir, dataDir);
    environ, keys := ListVariables(env);
    environ, keys := AddDefault(environ, keys, env, env, TMPDIR, tmpDir);
    environ, keys := AddDefault(environ, keys, e1, env, LANG, DEFAULT_LANG);
    environ, keys := AddDefault(environ, keys, e2, env, PATH, DefaultPath(binDir));
    environ, keys := AddDefault(environ, keys, e3, env, HOME, dataDir);
  }

  lemma DefaultKeysAreFree(tmpDir: string, binDir: string, dataDir: string)
    ensures forall k :: k in Defaults(tmpDir, binDir, dataDir) ==> Free(k, '=')
  {
  }

  lemma FillInIsDefault(env: map<string, string>, tmpDir: string, binDir: string, dataDir: string)
    ensures var e1 := FillIn(env, TMPDIR, tmpDir);
            var e2 := FillIn(e1, LANG, DEFAULT_LANG);
            var e3 := FillIn(e2, PATH, DefaultPath(binDir));
            && (LANG in env <==> LANG in e1) && (PATH in env <==> PATH in e2) && (HOME in env <==> HOME in e3)
            && FillIn(e3, HOME, dataDir) == Defaults(tmpDir, binDir, dataDir) + env
  {
    assert TMPDIR[0] == 'T' && LANG[0] == 'L' && PATH[0] == 'P' && HOME[0] == 'H';
    FourKeys(env, TMPDIR, LANG, PATH, HOME, tmpDir, DEFAULT_LANG, DefaultPath(binDir), dataDir);
  }

  lemma FourKeys(env: map<string, string>, a: string, b: string, c: string, d: string,
                 va: string, vb: string, vc: string, vd: string)
    requires a != b && a != c && a != d && b != c && b != d && c != d
    ensures var e1 := FillIn(env, a, va);
            var e2 := FillIn(e1, b, vb);
            var e3 := FillIn(e2, c, vc);
            && (b in env <==> b in e1) && (c in env <==> c in e2) && (d in env <==> d in e3)
            && FillIn(e3, d, vd) == map[a := va, b := vb, c := vc, d := vd] + env
  {
  }

  // ---------------------------------------------------------------- reading the list back

  lemma {:induction false} CutOfEntry(key: string, value: string)
    ensures IsVariable(Entry(key, value))
    ensures Free(key, '=') <==> KeyOf(Entry(key, value)) == key
    ensures Free(key, '=') ==> ValueOf(Entry(key, value)) == value
  {
    var e := Entry(key, value);
    var n := CutPoint(e);
    assert e[|key|] == '=';
    forall i | 0 <= i < n ensures e[i] != '=' {
      assert e[..n][i] in e[..n];
    }
    if Free(key, '=') {
      forall i | 0 <= i < |key| ensures e[i] != '=' {
        assert key[i] in key;
      }
    }
    if n == |key| {
      assert e[..n] == key && e[n + 1..] == value;
    }
  }

  /** Reading a list of entries back splits each at its first '='. */
  function ReadBack(environ: seq<string>): map<string, string> { EnterVariables(map[], environ) }

  lemma {:induction false} ReadBackFrom(env0: map<string, string>, environ: seq<string>, keys: seq<string>,
                                          env: map<string, string>)
    requires |keys| == |environ|
    requires forall i :: 0 <= i < |keys| ==>
               keys[i] in env && environ[i] == Entry(keys[i], env[keys[i]]) && Free(keys[i], '=')
    ensures var r := EnterVariables(env0, environ);
            forall k :: (k in r <==> k in env0 || k in keys)
                        && (k in keys ==> r[k] == env[k])
                        && (k in env0 && k !in keys ==> r[k] == env0[k])
    decreases |environ|
  {
    if environ != [] {
      CutOfEntry(keys[0], env[keys[0]]);
      ReadBackFrom(env0[keys[0] := env[keys[0]]], environ[1..], keys[1..], env);
      assert forall k :: k in keys <==> k == keys[0] || k in keys[1..];
    }
  }

  lemma {:induction false} ReadKeysAreFree(env0: map<string, string>, environ: seq<string>)
    requires forall k :: k in env0 ==> Free(k, '=')
    ensures forall k :: k in EnterVariables(env0, environ) ==> Free(k, '=')
    decreases |environ|
  {
    if environ != [] && IsVariable(environ[0]) {
      ReadKeysAreFree(env0[KeyOf(environ[0]) := ValueOf(environ[0])], environ[1..]);
    }
  }

  /** Splitting every entry at its first '=' recovers the environment exactly when no key has one. */
  lemma EnvironmentReadsBack(environ: seq<string>, keys: seq<string>, env: map<string, string>)
    requires Lists(environ, keys, env)
    ensures ReadBack(environ) == env <==> forall k :: k in env ==> Free(k, '=')
  {
    if forall k :: k in env ==> Free(k, '=') {
      ReadBackFrom(map[], environ, keys, env);
      assert forall k :: k in env <==> k in keys;
    } else {
      ReadKeysAreFree(map[], environ);
    }
  }

  /** Keys that come from flags never hold a '='. */
  lemma FlagKeysAreFree(env: map<string, string>, vars: seq<string>)
    requires forall k :: k in env ==> Free(k, '=')
    ensures forall k :: k in EnterVariables(env, vars) ==> Free(k, '=')
  {
    ReadKeysAreFree(env, vars);
  }

  /** From configuration and flags to the list the process gets, read back: the last flag for a key
      wins, then the configuration, then the default, and nothing else is there. */
  lemma EnvironmentEndToEnd(env: map<string, string>, vars: seq<string>, defaults: map<string, string>,
                            environ: seq<string>, keys: seq<string>, key: string)
    requires VariablesVerdict(vars) == Accepted && Lists(environ, keys, defaults + EnterVariables(env, vars))
    requires forall k :: k in env || k in defaults ==> Free(k, '=')
    ensures forall i :: LastFor(vars, key, i) ==>
              key in ReadBack(environ) && ReadBack(environ)[key] == ValueOf(vars[i])
    ensures NoneSets(vars, key) && key in env ==> key in ReadBack(environ) && ReadBack(environ)[key] == env[key]
    ensures NoneSets(vars, key) && key !in env && key in defaults ==>
              key in ReadBack(environ) && ReadBack(environ)[key] == defaults[key]
    ensures NoneSets(vars, key) && key !in env && key !in defaults ==> key !in ReadBack(environ)
  {
    FlagKeysAreFree(env, vars);
    EnvironmentReadsBack(environ, keys, defaults + EnterVariables(env, vars));
    forall i | LastFor(vars, key, i)
      ensures key in EnterVariables(env, vars) && EnterVariables(env, vars)[key] == ValueOf(vars[i])
    {
      LastValueWins(env, vars, key, i);
    }
    if NoneSets(vars, key) {
      UnsetKeyStays(env, vars, key);
    }
  }
}
