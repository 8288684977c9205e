/** The environment of a process, layered from files, command line arguments and what it was before. */
module Env {
  import opened Wrappers
  import opened WhiteSpace

  type Vars = map<string, string>

  /** The files that can be read and parsed, by directory and name. */
  type Files = map<(string, string), Vars>

  const VAR_ENVIRONMENT := "APP_ENV"
  const VAR_BASE_DIR := "basedir"
  const DEFAULT_DIR := "./"
  const DEVELOPMENT := "development"
  const PRODUCTION := "production"
  const TEST := "test"
  const FILE_DEFAULT := ".env"
  const ENVIRONMENTS := [DEVELOPMENT, PRODUCTION, TEST]

  /** What the operating system accepts as a variable. */
  predicate Settable(key: string, value: string) {
    key != "" && '=' !in key && '\0' !in key && '\0' !in value
  }

  function Get(m: Vars, key: string): Option<string> { if key in m then Some(m[key]) else None }

  // ---------- command line arguments ----------

  function CutPrefix(s: string, prefix: string): Option<string> {
    if prefix <= s then Some(s[|prefix|..]) else None
  }

  /** The text before and after the first '='. */
  function SplitAtEquals(s: string): Option<(string, string)> {
    if s == "" then None
    else if s[0] == '=' then Some(("", s[1..]))
    else
      match SplitAtEquals(s[1..])
      case Some(kv) => Some(([s[0]] + kv.0, kv.1))
      case None => None
  }

  lemma {:induction false} SplitAtEqualsIs(s: string)
    ensures SplitAtEquals(s).None? <==> '=' !in s
    ensures SplitAtEquals(s).Some? ==>
              var kv := SplitAtEquals(s).value; s == kv.0 + "=" + kv.1 && '=' !in kv.0
  {
    if s != "" && s[0] != '=' {
      SplitAtEqualsIs(s[1..]);
      assert s == [s[0]] + s[1..];
      match SplitAtEquals(s[1..])
      case Some(kv) => assert [s[0]] + (kv.0 + "=" + kv.1) == ([s[0]] + kv.0) + "=" + kv.1;
      case None =>
    } else if s != "" {
      assert s == "" + "=" + s[1..];
    }
  }

  /** The variable an argument sets, if it does. */
  function Assignment(arg: string): Option<(string, string)> {
    match CutPrefix(arg, "--env:")
    case Some(v) => SplitAtEquals(v)
    case None =>
      match CutPrefix(arg, "-e:")
      case Some(v) => SplitAtEquals(v)
      case None => None
  }

  function Parsed(args: seq<string>): Vars {
    if args == [] then map[]
    else
      var m := Parsed(args[..|args| - 1]);
      match Assignment(args[|args| - 1])
      case Some(kv) => m[kv.0 := kv.1]
      case None => m
  }

  predicate Sets(arg: string, key: string) { Assignment(arg).Some? && Assignment(arg).value.0 == key }

  /** Argument number `i` is the last one that sets `key`. */
  predicate IsLastSetting(args: seq<string>, key: string, i: nat) {
    i < |args| && Sets(args[i], key) && forall j :: i < j < |args| ==> !Sets(args[j], key)
  }

  /** A variable has the value of the last argument that sets it, and none if there is no such argument. */
  lemma {:induction false} ParsedLast(args: seq<string>, key: string)
    ensures forall i: nat :: IsLastSetting(args, key, i) ==> Get(Parsed(args), key) == Some(Assignment(args[i]).value.1)
    ensures (forall i :: 0 <= i < |args| ==> !Sets(args[i], key)) ==> Get(Parsed(args), key) == None
    decreases |args|
  {
    hide Assignment;
    if args != [] {
      var before, last := args[..|args| - 1], args[|args| - 1];
      ParsedLast(before, key);
      forall i: nat | IsLastSetting(args, key, i)
        ensures Get(Parsed(args), key) == Some(Assignment(args[i]).value.1)
      {
        if i < |before| {
          assert args[i] == before[i] && !Sets(args[|args| - 1], key);
          assert IsLastSetting(before, key, i);
        }
      }
      if forall i :: 0 <= i < |args| ==> !Sets(args[i], key) {
        assert !Sets(last, key);
        assert forall i :: 0 <= i < |before| ==> before[i] == args[i];
      }
    }
  }

  /** The argument has one of the two forms of a setting. */
  predicate Gives(arg: string, key: string, value: string) {
    '=' !in key && (arg == "--env:" + key + "=" + value || arg == "-e:" + key + "=" + value)
  }

  /** Only the text before the first '=' can be the key. */
  lemma {:induction false} CutOnce(key: string, value: string)
    requires '=' !in key
    ensures SplitAtEquals(key + "=" + value) == Some((key, value))
  {
    var s := key + "=" + value;
    if key == "" {
      assert s[0] == '=' && s[1..] == value;
    } else {
      CutOnce(key[1..], value);
      assert s[0] == key[0] && s[1..] == key[1..] + "=" + value;
      assert [key[0]] + key[1..] == key;
    }
  }

  lemma AssignmentIs(arg: string, key: string, value: string)
    ensures Assignment(arg) == Some((key, value)) <==> Gives(arg, key, value)
  {
    hide Assignment;
    if Gives(arg, key, value) { GivenAssigned(arg, key, value); }
    if Assignment(arg) == Some((key, value)) { AssignedGiven(arg, key, value); }
  }

  lemma GivenAssigned(arg: string, key: string, value: string)
    requires Gives(arg, key, value)
    ensures Assignment(arg) == Some((key, value))
  {
    hide SplitAtEquals;
    CutOnce(key, value);
    PrefixCut("--env:", key + "=" + value, arg);
    PrefixCut("-e:", key + "=" + value, arg);
  }

  lemma AssignedGiven(arg: string, key: string, value: string)
    requires Assignment(arg) == Some((key, value))
    ensures Gives(arg, key, value)
  {
    hide SplitAtEquals;
    var p := if "--env:" <= arg then "--env:" else "-e:";
    SplitAtEqualsIs(arg[|p|..]);
    assert arg == p + (key + "=" + value);
  }

  lemma PrefixCut(p: string, rest: string, arg: string)
    requires p == "--env:" || p == "-e:"
    ensures arg == p + rest ==> p <= arg && arg[|p|..] == rest && (p == "-e:" ==> !("--env:" <= arg))
  {
    if arg == p + rest && p == "-e:" { assert arg[1] == 'e'; }
  }

  /** So a variable has the value of the last argument of the form --env:key=value or -e:key=value with its name
      as the key, and none without such an argument. */
  lemma ParsedFrom(args: seq<string>, key: string)
    ensures forall i: nat, v ::
              i < |args| && Gives(args[i], key, v) && (forall j, w :: i < j < |args| ==> !Gives(args[j], key, w)) ==>
                Get(Parsed(args), key) == Some(v)
    ensures (forall i, v :: 0 <= i < |args| ==> !Gives(args[i], key, v)) ==> Get(Parsed(args), key) == None
  {
    hide Gives, Assignment, Parsed;
    ParsedLast(args, key);
    forall arg, v ensures Assignment(arg) == Some((key, v)) <==> Gives(arg, key, v) { AssignmentIs(arg, key, v); }
    forall arg | Sets(arg, key) ensures Gives(arg, key, Assignment(arg).value.1) { SetsGives(arg, key); }
    forall i: nat, v | i < |args| && Gives(args[i], key, v)
                       && (forall j, w :: i < j < |args| ==> !Gives(args[j], key, w))
      ensures Get(Parsed(args), key) == Some(v)
    {
      assert IsLastSetting(args, key, i);
    }
  }

  lemma SetsGives(arg: string, key: string)
    requires Sets(arg, key)
    ensures Gives(arg, key, Assignment(arg).value.1)
  {
    hide Gives, Assignment;
    AssignmentIs(arg, key, Assignment(arg).value.1);
  }

  /** A later assignment to the same key replaces an earlier one. */
  method Parse(args: seq<string>) returns (m: Vars)
    ensures m == Parsed(args)
  {
    m := map[];
    var i := 0;
    while i < |args|
      invariant i <= |args| && m == Parsed(args[..i])
    {
      assert args[..i + 1][..i] == args[..i];
      var arg := args[i];
      i := i + 1;
      var v := CutPrefix(arg, "--env:");
      if v.Some? {
        var vs := SplitAtEquals(v.value);
        if vs.Some? { m := m[vs.value.0 := vs.value.1]; }
        continue;
      }
      v := CutPrefix(arg, "-e:");
      if v.Some? {
        var vs := SplitAtEquals(v.value);
        if vs.None? { continue; }
        m := m[vs.value.0 := vs.value.1];
      }
    }
    assert args[..|args|] == args;
  }

  // ---------- what loading means ----------

  predicate AllSettable(m: Vars) { forall k :: k in m ==> Settable(k, m[k]) }

  function Effective(m: Vars): Vars { map k | k in m && Settable(k, m[k]) :: m[k] }

  function Overlay(env: Vars, m: Vars, override: bool): Vars {
    if override then env + Effective(m) else Effective(m) + env
  }

  function Dir(env: Vars): string { if VAR_BASE_DIR in env then env[VAR_BASE_DIR] else DEFAULT_DIR }

  /** One file to load, and whether it replaces what is set. */
  datatype Stage = Stage(override: bool, file: string)

  predicate Loads(files: Files, env: Vars, stage: Stage) { (Dir(env), stage.file) in files }

  function AfterStage(files: Files, env: Vars, stage: Stage): Vars {
    if Loads(files, env, stage) then Overlay(env, files[(Dir(env), stage.file)], stage.override) else env
  }

  /** The directory is looked up anew for every stage. */
  function AfterStages(files: Files, env: Vars, stages: seq<Stage>): Vars
    decreases |stages|
  {
    if stages == [] then env else AfterStages(files, AfterStage(files, env, stages[0]), stages[1..])
  }

  predicate AnyLoads(files: Files, env: Vars, stages: seq<Stage>)
    decreases |stages|
  {
    stages != [] && (Loads(files, env, stages[0]) || AnyLoads(files, AfterStage(files, env, stages[0]), stages[1..]))
  }

  lemma StagesNone(files: Files, env: Vars)
    ensures AfterStages(files, env, []) == env && !AnyLoads(files, env, [])
  {
  }

  lemma {:induction false} StagesMore(files: Files, env: Vars, stages: seq<Stage>, s: Stage)
    ensures AfterStages(files, env, stages + [s]) == AfterStage(files, AfterStages(files, env, stages), s)
    ensures AnyLoads(files, env, stages + [s]) <==>
            AnyLoads(files, env, stages) || Loads(files, AfterStages(files, env, stages), s)
    decreases |stages|
  {
    if stages == [] {
      assert [] + [s] == [s] && [s][1..] == [];
    } else {
      assert (stages + [s])[0] == stages[0] && (stages + [s])[1..] == stages[1..] + [s];
      StagesMore(files, AfterStage(files, env, stages[0]), stages[1..], s);
    }
  }

  function StagesOf(override: bool, names: seq<string>): seq<Stage> {
    seq(|names|, i requires 0 <= i < |names| => Stage(override, names[i]))
  }

  /** How many stages there are before the first one whose file cannot be read. */
  function Readable(files: Files, env: Vars, stages: seq<Stage>): (n: nat)
    ensures n <= |stages|
    decreases |stages|
  {
    if stages == [] || !Loads(files, env, stages[0]) then 0
    else 1 + Readable(files, AfterStage(files, env, stages[0]), stages[1..])
  }

  /** All stages before that one can be read, each in the environment left by those before it. */
  lemma {:induction false} ReadableAt(files: Files, env: Vars, stages: seq<Stage>, i: nat)
    requires i < |stages| && i <= Readable(files, env, stages)
    ensures i < Readable(files, env, stages) <==> Loads(files, AfterStages(files, env, stages[..i]), stages[i])
    decreases |stages|
  {
    if i > 0 {
      ReadableAt(files, AfterStage(files, env, stages[0]), stages[1..], i - 1);
      assert stages[..i][1..] == stages[1..][..i - 1] && stages[..i][0] == stages[0];
    }
  }

  /** One file: it is read or nothing changes. */
  lemma ReadableOne(files: Files, env: Vars, override: bool, name: string)
    ensures var s := Stage(override, name); var n := Readable(files, env, StagesOf(override, [name]));
            && (n == 1 <==> Loads(files, env, s)) && n <= 1
            && AfterStages(files, env, StagesOf(override, [name])[..n]) == AfterStage(files, env, s)
  {
    var stages := StagesOf(override, [name]);
    assert stages == [Stage(override, name)] && stages[1..] == [];
    if Loads(files, env, stages[0]) {
      assert stages[..1] == stages;
    } else {
      assert stages[..0] == [];
    }
  }

  function Plan(environment: string, name: string): seq<Stage> {
    [Stage(true, ".env." + environment + ".local")]
    + (if environment != TEST then [Stage(true, ".env.local")] else [])
    + [Stage(false, ".env." + environment), Stage(false, ".env." + name), Stage(false, FILE_DEFAULT)]
  }

  /** The plan, stage by stage. */
  lemma PlanIs(environment: string, name: string)
    ensures var first := [] + [Stage(true, ".env." + environment + ".local")];
            var local := if environment != "test" then first + [Stage(true, ".env.local")] else first;
            Plan(environment, name) == local + [Stage(false, ".env." + environment)] + [Stage(false, ".env." + name)]
                                       + [Stage(false, FILE_DEFAULT)]
  {
  }

  /** The environment to load for; None if it is not a known one. */
  function Chosen(env: Vars): Option<string> {
    var e := if VAR_ENVIRONMENT in env then env[VAR_ENVIRONMENT] else "";
    if TrimSpace(e) == "" then Some(DEVELOPMENT) else if e in ENVIRONMENTS then Some(e) else None
  }

  /** Without APP_ENV, or with a blank one, it is development; the three known ones name themselves; anything
      else is refused. */
  lemma ChosenIs(env: Vars)
    ensures var e := if "APP_ENV" in env then env["APP_ENV"] else "";
            Chosen(env) == if Blank(e) then Some("development")
                           else if e == "development" || e == "production" || e == "test" then Some(e)
                           else None
  {
    hide TrimSpace, Blank;
    TrimSpaceBlank(if "APP_ENV" in env then env["APP_ENV"] else "");
  }

  // ---------- the process ----------

  function Restricted(m: Vars, keys: set<string>): Vars { map k | k in m && k in keys :: m[k] }

  class Process {
    var env: Vars
    const args: seq<string>
    const files: Files

    constructor (env: Vars, args: seq<string>, files: Files)
      ensures this.env == env && this.args == args && this.files == files
    {
      this.env, this.args, this.files := env, args, files;
    }

    method Setenv(key: string, value: string) returns (ok: bool)
      modifies this
      ensures ok <==> Settable(key, value)
      ensures env == if ok then old(env)[key := value] else old(env)
    {
      ok := Settable(key, value);
      if ok { env := env[key := value]; }
    }

    method BaseDir() returns (dir: string)
      ensures dir == Dir(env)
    {
      dir := if VAR_BASE_DIR in env then env[VAR_BASE_DIR] else DEFAULT_DIR;
    }

    /** Sets the parsed arguments in no particular order and stops at one that cannot be set; which of the
        others are set by then is open. */
    method SetEnvs() returns (ok: bool)
      modifies this
      ensures ok <==> AllSettable(Parsed(args))
      ensures ok ==> env == old(env) + Parsed(args)
      ensures !ok ==> exists done :: env == old(env) + Restricted(Effective(Parsed(args)), done)
    {
      hide Restricted, Effective, Settable, Parsed;
      var m := Parse(args);
      var todo := m.Keys;
      SetNone(env, m);
      assert m.Keys - todo == {};
      while todo != {}
        invariant todo <= m.Keys
        invariant forall k :: k in m && k !in todo ==> Settable(k, m[k])
        invariant env == old(env) + Restricted(Effective(m), m.Keys - todo)
        decreases todo
      {
        var k :| k in todo;
        var accepted := Setenv(k, m[k]);
        if !accepted { return false; }
        SetMore(old(env), m, m.Keys - todo, k);
        assert m.Keys - todo + {k} == m.Keys - (todo - {k});
        todo := todo - {k};
      }
      assert m.Keys - todo == m.Keys;
      SetAllKeys(m);
      return true;
    }

    /** Sets what a file holds, in no particular order, replacing only when told to. */
    method SetAll(m: Vars, override: bool)
      modifies this
      ensures env == Overlay(old(env), m, override)
    {
      hide Overlay, Restricted, Settable;
      ghost var before := env;
      var current := env.Keys;
      var todo := m.Keys;
      RestrictedEnds(before, m, override);
      assert m.Keys - todo == {};
      while todo != {}
        invariant todo <= m.Keys
        invariant env == Overlay(before, Restricted(m, m.Keys - todo), override)
        decreases todo
      {
        var k :| k in todo;
        if k !in current || override {
          var accepted := Setenv(k, m[k]);
        }
        OverlayMore(before, m, m.Keys - todo, k, override);
        assert m.Keys - todo + {k} == m.Keys - (todo - {k});
        todo := todo - {k};
      }
      assert m.Keys - todo == m.Keys;
    }

    /** Stops at the first file that cannot be read. */
    method LoadFiles(override: bool, names: seq<string>) returns (ok: bool)
      modifies this
      ensures var stages := StagesOf(override, names); var n := Readable(files, old(env), stages);
              ok == (n == |names|) && env == AfterStages(files, old(env), stages[..n])
    {
      ghost var stages := StagesOf(override, names);
      var i := 0;
      StagesNone(files, env);
      while i < |names|
        invariant i <= |names| && i <= Readable(files, old(env), stages)
        invariant env == AfterStages(files, old(env), stages[..i])
      {
        var dir := BaseDir();
        ReadableAt(files, old(env), stages, i);
        if (dir, names[i]) !in files { return false; }
        SetAll(files[(dir, names[i])], override);
        StagesMore(files, old(env), stages[..i], stages[i]);
        assert stages[..i + 1] == stages[..i] + [stages[i]];
        i := i + 1;
      }
      return true;
    }

    method Load(name: string) returns (r: Result<(bool, string), string>)
      modifies this
      ensures !AllSettable(Parsed(args)) ==>
                r.Err? && exists done :: env == old(env) + Restricted(Effective(Parsed(args)), done)
      ensures AllSettable(Parsed(args)) ==>
                var start := old(env) + Parsed(args);
                match Chosen(start)
                case None => r.Err? && env == start
                case Some(e) =>
                  && r == Ok((AnyLoads(files, start, Plan(e, name)), e))
                  && env == AfterStages(files, start, Plan(e, name))
    {
      hide AfterStage, AfterStages, AnyLoads, Loads, Readable, StagesOf, Parsed, AllSettable, TrimSpace, Plan, Dir,
        Restricted, Effective;
      var loaded := false;
      var ok := SetEnvs();
      if !ok { return Err("invalid argument"); }
      ghost var start, done := env, [];
      StagesNone(files, start);
      var environment := if VAR_ENVIRONMENT in env then env[VAR_ENVIRONMENT] else "";
      if TrimSpace(environment) == "" {
        environment := DEVELOPMENT;
      } else if environment !in ENVIRONMENTS {
        return Err("invalid environment " + environment);
      }
      ReadableOne(files, env, true, ".env." + environment + ".local");
      ok := LoadFiles(true, [".env." + environment + ".local"]);
      if ok { loaded := true; }
      StagesMore(files, start, done, Stage(true, ".env." + environment + ".local"));
      done := done + [Stage(true, ".env." + environment + ".local")];
      if environment != "test" {
        ReadableOne(files, env, true, ".env.local");
        ok := LoadFiles(true, [".env.local"]);
        if ok { loaded := true; }
        StagesMore(files, start, done, Stage(true, ".env.local"));
        done := done + [Stage(true, ".env.local")];
      }
      ReadableOne(files, env, false, ".env." + environment);
      ok := LoadFiles(false, [".env." + environment]);
      if ok { loaded := true; }
      StagesMore(files, start, done, Stage(false, ".env." + environment));
      done := done + [Stage(false, ".env." + environment)];
      ReadableOne(files, env, false, ".env." + name);
      ok := LoadFiles(false, [".env." + name]);
      if ok { loaded := true; }
      StagesMore(files, start, done, Stage(false, ".env." + name));
      done := done + [Stage(false, ".env." + name)];
      ReadableOne(files, env, false, FILE_DEFAULT);
      ok := LoadFiles(false, [FILE_DEFAULT]);
      if ok { loaded := true; }
      StagesMore(files, start, done, Stage(false, FILE_DEFAULT));
      done := done + [Stage(false, FILE_DEFAULT)];
      PlanIs(environment, name);
      return Ok((loaded, environment));
    }
  }

  lemma SetNone(env: Vars, m: Vars)
    ensures env + Restricted(Effective(m), {}) == env
  {
    assert Restricted(Effective(m), {}) == map[];
  }

  lemma SetMore(env: Vars, m: Vars, done: set<string>, k: string)
    requires k in m && Settable(k, m[k])
    ensures env + Restricted(Effective(m), done + {k}) == (env + Restricted(Effective(m), done))[k := m[k]]
  {
    hide Settable;
    assert Restricted(Effective(m), done + {k}) == Restricted(Effective(m), done)[k := m[k]];
    hide Restricted, Effective;
  }

  lemma SetAllKeys(m: Vars)
    requires AllSettable(m)
    ensures Restricted(Effective(m), m.Keys) == m
  {
    hide Settable;
  }

  lemma RestrictedEnds(env: Vars, m: Vars, override: bool)
    ensures Overlay(env, Restricted(m, {}), override) == env && Restricted(m, m.Keys) == m
  {
    assert Effective(Restricted(m, {})) == map[];
  }

  lemma OverlayMore(env: Vars, m: Vars, done: set<string>, k: string, override: bool)
    requires k in m && k !in done && done <= m.Keys
    ensures Overlay(env, Restricted(m, done + {k}), override) ==
            var e := Overlay(env, Restricted(m, done), override);
            if (k !in env || override) && Settable(k, m[k]) then e[k := m[k]] else e
  {
    hide Overlay, Restricted, Effective, Settable;
    EffectiveMore(m, done, k);
    var a, b := Effective(Restricted(m, done)), Effective(Restricted(m, done + {k}));
    OverlayAdd(env, Restricted(m, done), Restricted(m, done + {k}), a, b, k, m[k], override);
  }

  lemma EffectiveMore(m: Vars, done: set<string>, k: string)
    requires k in m && k !in done
    ensures var a, b := Effective(Restricted(m, done)), Effective(Restricted(m, done + {k}));
            k !in a && b == if Settable(k, m[k]) then a[k := m[k]] else a
  {
    hide Settable;
  }

  lemma OverlayAdd(env: Vars, m: Vars, n: Vars, a: Vars, b: Vars, k: string, v: string, override: bool)
    requires a == Effective(m) && b == Effective(n) && k !in a && (b == a || b == a[k := v])
    ensures Overlay(env, n, override) ==
            if b != a && (k !in env || override) then Overlay(env, m, override)[k := v] else Overlay(env, m, override)
  {
    hide Effective;
  }
}
