/** The order of precedence that Load amounts to. */
module EnvLayers {
  import opened Wrappers
  import opened WhiteSpace
  import opened Env

  /** The value in the first layer that has one. */
  function First(layers: seq<Vars>, key: string): Option<string> {
    if layers == [] then None
    else if key in layers[0] then Some(layers[0][key])
    else First(layers[1..], key)
  }

  /** What a file contributes; a missing one nothing. */
  function Content(files: Files, dir: string, file: string): Vars {
    if (dir, file) in files then Effective(files[(dir, file)]) else map[]
  }

  /** Every stage puts its file before or behind the layers so far, read from the directory that is current
      at that stage. */
  function Layers(files: Files, env: Vars, stages: seq<Stage>, so: seq<Vars>): seq<Vars>
    decreases |stages|
  {
    if stages == [] then so
    else
      var c := Content(files, Dir(env), stages[0].file);
      Layers(files, AfterStage(files, env, stages[0]), stages[1..], if stages[0].override then [c] + so else so + [c])
  }

  lemma {:induction false} FirstConcat(a: seq<Vars>, b: seq<Vars>, key: string)
    ensures First(a + b, key) == if First(a, key).Some? then First(a, key) else First(b, key)
    decreases |a|
  {
    if a == [] {
      assert a + b == b;
    } else {
      assert (a + b)[0] == a[0] && (a + b)[1..] == a[1..] + b;
      FirstConcat(a[1..], b, key);
    }
  }

  lemma FirstOne(c: Vars, key: string)
    ensures First([c], key) == Get(c, key)
  {
    assert [c][1..] == [];
  }

  /** Loading files one after the other, some replacing and some filling in, is a lookup by precedence. */
  lemma {:induction false} LoadIsLookup(files: Files, env: Vars, stages: seq<Stage>, so: seq<Vars>, key: string)
    requires Get(env, key) == First(so, key)
    ensures Get(AfterStages(files, env, stages), key) == First(Layers(files, env, stages, so), key)
    decreases |stages|
  {
    hide First, Effective;
    if stages != [] {
      var s := stages[0];
      var c := Content(files, Dir(env), s.file);
      FirstOne(c, key);
      FirstConcat([c], so, key);
      FirstConcat(so, [c], key);
      LoadIsLookup(files, AfterStage(files, env, s), stages[1..], if s.override then [c] + so else so + [c], key);
    }
  }

  // ---------- one directory ----------

  /** No stage before the last one moves the directory: a file that sets it, and whose value takes effect,
      sets it to the directory it is in. */
  predicate Settled(files: Files, dir: string, isSet: bool, stages: seq<Stage>)
    decreases |stages|
  {
    |stages| > 1 ==>
      var c := Content(files, dir, stages[0].file);
      && (VAR_BASE_DIR in c && (stages[0].override || !isSet) ==> c[VAR_BASE_DIR] == dir)
      && Settled(files, dir, isSet || VAR_BASE_DIR in c, stages[1..])
  }

  function LayersIn(files: Files, dir: string, stages: seq<Stage>, so: seq<Vars>): seq<Vars>
    decreases |stages|
  {
    if stages == [] then so
    else
      var c := Content(files, dir, stages[0].file);
      LayersIn(files, dir, stages[1..], if stages[0].override then [c] + so else so + [c])
  }

  /** The directory after one stage. */
  lemma DirAfter(files: Files, env: Vars, s: Stage)
    ensures var c := Content(files, Dir(env), s.file); var after := AfterStage(files, env, s);
            && Dir(after) == (if VAR_BASE_DIR in c && (s.override || VAR_BASE_DIR !in env) then c[VAR_BASE_DIR]
                              else Dir(env))
            && (VAR_BASE_DIR in after <==> VAR_BASE_DIR in env || VAR_BASE_DIR in c)
  {
  }

  lemma {:induction false} OneDir(files: Files, env: Vars, stages: seq<Stage>, so: seq<Vars>)
    requires Settled(files, Dir(env), VAR_BASE_DIR in env, stages)
    ensures Layers(files, env, stages, so) == LayersIn(files, Dir(env), stages, so)
    ensures AnyLoads(files, env, stages) <==> AnyIn(files, Dir(env), stages)
    decreases |stages|
  {
    hide Content, AfterStage, Dir;
    if stages != [] {
      var s := stages[0];
      DirAfter(files, env, s);
      var c := Content(files, Dir(env), s.file);
      var next := if s.override then [c] + so else so + [c];
      if |stages| > 1 {
        OneDir(files, AfterStage(files, env, s), stages[1..], next);
      } else {
        assert stages[1..] == [];
        assert Layers(files, AfterStage(files, env, s), [], next) == next == LayersIn(files, Dir(env), [], next);
      }
    }
  }

  /** Some planned file is in the directory. */
  predicate AnyIn(files: Files, dir: string, stages: seq<Stage>)
    decreases |stages|
  {
    stages != [] && ((dir, stages[0].file) in files || AnyIn(files, dir, stages[1..]))
  }

  lemma {:induction false} AnyInIs(files: Files, dir: string, stages: seq<Stage>)
    ensures AnyIn(files, dir, stages) <==> exists s :: s in stages && (dir, s.file) in files
    decreases |stages|
  {
    if stages != [] { AnyInIs(files, dir, stages[1..]); }
  }

  /** The precedence for one directory, highest first. */
  function Precedence(files: Files, dir: string, args: Vars, prior: Vars, environment: string, name: string)
    : seq<Vars>
  {
    (if environment != TEST then [Content(files, dir, ".env.local")] else [])
    + [Content(files, dir, ".env." + environment + ".local"), args, prior,
       Content(files, dir, ".env." + environment), Content(files, dir, ".env." + name),
       Content(files, dir, FILE_DEFAULT)]
  }

  lemma PlanLayers(files: Files, dir: string, args: Vars, prior: Vars, environment: string, name: string)
    ensures LayersIn(files, dir, Plan(environment, name), [args, prior]) ==
            Precedence(files, dir, args, prior, environment, name)
  {
    hide Content;
    var stages := Plan(environment, name);
    var c0 := Content(files, dir, ".env." + environment + ".local");
    var so := if environment != TEST then [Content(files, dir, ".env.local")] + ([c0] + [args, prior])
              else [c0] + [args, prior];
    var fill := [Stage(false, ".env." + environment), Stage(false, ".env." + name), Stage(false, FILE_DEFAULT)];
    if environment != TEST {
      assert stages[1..][1..] == fill;
    } else {
      assert stages[1..] == fill;
    }
    assert LayersIn(files, dir, stages, [args, prior]) == LayersIn(files, dir, fill, so);
    FillLayers(files, dir, so, environment, name);
  }

  lemma FillOne(files: Files, dir: string, s: Stage, rest: seq<Stage>, so: seq<Vars>)
    requires !s.override
    ensures LayersIn(files, dir, [s] + rest, so) == LayersIn(files, dir, rest, so + [Content(files, dir, s.file)])
  {
    assert ([s] + rest)[1..] == rest;
  }

  lemma FillLayers(files: Files, dir: string, so: seq<Vars>, environment: string, name: string)
    ensures LayersIn(files, dir,
                     [Stage(false, ".env." + environment), Stage(false, ".env." + name), Stage(false, FILE_DEFAULT)],
                     so)
            == so + [Content(files, dir, ".env." + environment)] + [Content(files, dir, ".env." + name)]
               + [Content(files, dir, FILE_DEFAULT)]
  {
    var a, b, c := Stage(false, ".env." + environment), Stage(false, ".env." + name), Stage(false, FILE_DEFAULT);
    var so1 := so + [Content(files, dir, a.file)];
    var so2 := so1 + [Content(files, dir, b.file)];
    FillOne(files, dir, a, [b, c], so);
    FillOne(files, dir, b, [c], so1);
    FillOne(files, dir, c, [], so2);
    assert [a, b, c] == [a] + [b, c] && [b, c] == [b] + [c] && [c] == [c] + [];
  }

  /** Every variable has the value that the files in the directory at the start give it by precedence. */
  ghost predicate ByPrecedence(files: Files, args: seq<string>, prior: Vars, environment: string, name: string) {
    var start := prior + Parsed(args);
    forall key :: Get(AfterStages(files, start, Plan(environment, name)), key) ==
                  First(Precedence(files, Dir(start), Parsed(args), prior, environment, name), key)
  }

  ghost predicate SettledFor(files: Files, args: seq<string>, prior: Vars, environment: string, name: string) {
    var start := prior + Parsed(args);
    Settled(files, Dir(start), VAR_BASE_DIR in start, Plan(environment, name))
  }

  /** If no stage before the last one moves the directory, every variable has the first value among the local
      file (not for tests), the local file of the environment, the last matching argument, what was set
      before, the file of the environment, the named file and the default file; and something was loaded just
      if one of these files exists. */
  lemma Layered(files: Files, args: seq<string>, prior: Vars, environment: string, name: string)
    requires SettledFor(files, args, prior, environment, name)
    ensures ByPrecedence(files, args, prior, environment, name)
    ensures var start := prior + Parsed(args); var plan := Plan(environment, name);
            AnyLoads(files, start, plan) <==> exists s :: s in plan && (Dir(start), s.file) in files
  {
    hide Plan, AfterStages, Layers, LayersIn, Precedence, AnyLoads, AnyIn, Parsed, Dir, Settled;
    var start, plan := prior + Parsed(args), Plan(environment, name);
    var so := [Parsed(args), prior];
    OneDir(files, start, plan, so);
    AnyInIs(files, Dir(start), plan);
    PlanLayers(files, Dir(start), Parsed(args), prior, environment, name);
    forall key
      ensures Get(AfterStages(files, start, plan), key) ==
              First(Precedence(files, Dir(start), Parsed(args), prior, environment, name), key)
    {
      assert so[1..] == [prior];
      FirstOne(prior, key);
      LoadIsLookup(files, start, plan, so, key);
    }
  }

  /**
   The same from what Load starts with: the environment is the one APP_ENV names after the arguments, development
   if it is absent or blank, and with a settled directory every variable has the first value among these files
   of that directory, the arguments and what was set before.
   */
  lemma LoadedFor(files: Files, args: seq<string>, prior: Vars, name: string, e: string)
    requires var start := prior + Parsed(args);
             if "APP_ENV" !in start || Blank(start["APP_ENV"]) then e == "development"
             else e == start["APP_ENV"] && (e == "development" || e == "production" || e == "test")
    ensures Chosen(prior + Parsed(args)) == Some(e)
    ensures SettledFor(files, args, prior, e, name) ==>
              var start := prior + Parsed(args);
              var dir := if "basedir" in start then start["basedir"] else "./";
              var layers := (if e == "test" then [] else [Content(files, dir, ".env.local")])
                + [Content(files, dir, ".env." + e + ".local"), Parsed(args), prior, Content(files, dir, ".env." + e),
                   Content(files, dir, ".env." + name), Content(files, dir, ".env")];
              forall key :: Get(AfterStages(files, start, Plan(e, name)), key) == First(layers, key)
  {
    assert Blank("");
    hide Blank, TrimSpace, Plan, AfterStages, Content, Parsed, First, SettledFor;
    ChosenIs(prior + Parsed(args));
    if SettledFor(files, args, prior, e, name) { Layered(files, args, prior, e, name); }
  }

  // ---------- when the directory moves ----------

  /** The same files in the directory. */
  ghost predicate SameIn(files: Files, other: Files, dir: string) {
    forall file :: FileAt(files, dir, file) == FileAt(other, dir, file)
  }

  function FileAt(files: Files, dir: string, file: string): Option<Vars> {
    if (dir, file) in files then Some(files[(dir, file)]) else None
  }

  lemma {:induction false} SettledSame(files: Files, other: Files, dir: string, isSet: bool, stages: seq<Stage>)
    requires SameIn(files, other, dir)
    ensures Settled(files, dir, isSet, stages) == Settled(other, dir, isSet, stages)
    decreases |stages|
  {
    if |stages| > 1 {
      assert FileAt(files, dir, stages[0].file) == FileAt(other, dir, stages[0].file);
      SettledSame(files, other, dir, isSet || VAR_BASE_DIR in Content(files, dir, stages[0].file), stages[1..]);
    }
  }

  /** The directory the first stage that moves it moves to. */
  lemma {:induction false} MovesTo(files: Files, dir: string, isSet: bool, stages: seq<Stage>) returns (to: string)
    requires !Settled(files, dir, isSet, stages)
    ensures to != dir
    ensures Moves(files, dir, isSet, stages, to)
    decreases |stages|
  {
    var c := Content(files, dir, stages[0].file);
    if VAR_BASE_DIR in c && (stages[0].override || !isSet) && c[VAR_BASE_DIR] != dir {
      to := c[VAR_BASE_DIR];
    } else {
      to := MovesTo(files, dir, isSet || VAR_BASE_DIR in c, stages[1..]);
    }
  }

  predicate Moves(files: Files, dir: string, isSet: bool, stages: seq<Stage>, to: string)
    decreases |stages|
  {
    && |stages| > 1
    && var c := Content(files, dir, stages[0].file);
       if VAR_BASE_DIR in c && (stages[0].override || !isSet) && c[VAR_BASE_DIR] != dir then c[VAR_BASE_DIR] == to
       else Moves(files, dir, isSet || VAR_BASE_DIR in c, stages[1..], to)
  }

  /** The files of `dir`, and every planned file in the other directory, holding one variable. */
  function Planted(files: Files, dir: string, to: string, stages: seq<Stage>, key: string): Files {
    (map f | f in files && f.0 == dir :: files[f]) + (map f | f in PathsIn(to, stages) :: map[key := ""])
  }

  function PathsIn(dir: string, stages: seq<Stage>): set<(string, string)> { set s | s in stages :: (dir, s.file) }

  lemma PlantedIs(files: Files, dir: string, to: string, stages: seq<Stage>, key: string)
    requires to != dir && Settable(key, "")
    ensures SameIn(files, Planted(files, dir, to, stages, key), dir)
    ensures forall s :: s in stages ==> Content(Planted(files, dir, to, stages, key), to, s.file) == map[key := ""]
  {
    var other := Planted(files, dir, to, stages, key);
    forall file
      ensures FileAt(files, dir, file) == FileAt(other, dir, file)
    {
      assert (dir, file) !in PathsIn(to, stages);
    }
    forall s | s in stages
      ensures Content(other, to, s.file) == map[key := ""]
    {
      assert (to, s.file) in PathsIn(to, stages);
      assert other[(to, s.file)] == map[key := ""];
    }
  }

  lemma ContentIn(files: Files, env: Vars, s: Stage)
    ensures (env.Keys + Content(files, Dir(env), s.file).Keys) == AfterStage(files, env, s).Keys
  {
  }

  lemma {:induction false} KeysGrow(files: Files, env: Vars, stages: seq<Stage>)
    ensures env.Keys <= AfterStages(files, env, stages).Keys
    decreases |stages|
  {
    if stages != [] {
      ContentIn(files, env, stages[0]);
      KeysGrow(files, AfterStage(files, env, stages[0]), stages[1..]);
    }
  }

  /** Once the directory has moved, the variable planted there is loaded. */
  lemma {:induction false} Planting(files: Files, env: Vars, stages: seq<Stage>, to: string, key: string)
    requires Moves(files, Dir(env), VAR_BASE_DIR in env, stages, to)
    requires forall s :: s in stages ==> Content(files, to, s.file) == map[key := ""]
    ensures key in AfterStages(files, env, stages)
    decreases |stages|
  {
    hide Content, AfterStage, Dir;
    var s := stages[0];
    var after := AfterStage(files, env, s);
    DirAfter(files, env, s);
    if Dir(after) == to && Dir(after) != Dir(env) {
      assert stages[1..][0] in stages;
      ContentIn(files, after, stages[1..][0]);
      KeysGrow(files, AfterStage(files, after, stages[1..][0]), stages[1..][1..]);
    } else {
      Planting(files, after, stages[1..], to, key);
    }
  }

  function Letters(n: nat): (s: string)
    ensures |s| == n && forall i :: 0 <= i < n ==> s[i] == 'a'
  {
    seq(n, i => 'a')
  }

  lemma {:induction false} Longer(keys: set<string>) returns (n: nat)
    ensures n > 0 && forall k :: k in keys ==> |k| < n
    decreases |keys|
  {
    n := 1;
    if keys != {} {
      var k :| k in keys;
      n := Longer(keys - {k});
      if |k| >= n { n := |k| + 1; }
    }
  }

  /** A variable nobody uses. */
  lemma Unused(keys: set<string>) returns (key: string)
    ensures key !in keys && Settable(key, "")
  {
    var n := Longer(keys);
    key := Letters(n);
  }

  lemma {:induction false} FirstNone(layers: seq<Vars>, key: string)
    requires forall i :: 0 <= i < |layers| ==> key !in layers[i]
    ensures First(layers, key) == None
    decreases |layers|
  {
    if layers != [] { FirstNone(layers[1..], key); }
  }

  lemma Unsettled(files: Files, args: seq<string>, prior: Vars, environment: string, name: string)
      returns (other: Files)
    requires !SettledFor(files, args, prior, environment, name)
    ensures SameIn(files, other, Dir(prior + Parsed(args))) && !ByPrecedence(other, args, prior, environment, name)
  {
    hide Plan, AfterStages, Parsed, Settled, Moves, Planted, Dir;
    var start, plan := prior + Parsed(args), Plan(environment, name);
    var dir := Dir(start);
    var to := MovesTo(files, dir, VAR_BASE_DIR in start, plan);
    var key := Unused(start.Keys + set f, k | f in files && k in files[f] :: k);
    other := Planted(files, dir, to, plan, key);
    PlantedIs(files, dir, to, plan, key);
    MovesSame(files, other, dir, VAR_BASE_DIR in start, plan, to);
    Planting(other, start, plan, to, key);
    NotByFiles(files, other, dir, Parsed(args), prior, environment, name, key);
    assert Get(AfterStages(other, start, plan), key) != None;
  }

  lemma {:induction false} MovesSame(files: Files, other: Files, dir: string, isSet: bool, stages: seq<Stage>,
                                     to: string)
    requires SameIn(files, other, dir) && Moves(files, dir, isSet, stages, to)
    ensures Moves(other, dir, isSet, stages, to)
    decreases |stages|
  {
    assert FileAt(files, dir, stages[0].file) == FileAt(other, dir, stages[0].file);
    var c := Content(files, dir, stages[0].file);
    if !(VAR_BASE_DIR in c && (stages[0].override || !isSet) && c[VAR_BASE_DIR] != dir) {
      MovesSame(files, other, dir, isSet || VAR_BASE_DIR in c, stages[1..], to);
    }
  }

  lemma NotByFiles(files: Files, other: Files, dir: string, args: Vars, prior: Vars, environment: string, name: string,
                   key: string)
    requires SameIn(files, other, dir) && key !in prior && key !in args
    requires forall f :: f in files ==> key !in files[f]
    ensures First(Precedence(other, dir, args, prior, environment, name), key) == None
  {
    forall file
      ensures key !in Content(other, dir, file)
    {
      assert FileAt(files, dir, file) == FileAt(other, dir, file);
    }
    FirstNone(Precedence(other, dir, args, prior, environment, name), key);
  }

  /** Whatever there is in other directories, the values follow the precedence of the files in the directory
      at the start: exactly when no stage before the last one moves the directory. */
  lemma PrecedenceIff(files: Files, args: seq<string>, prior: Vars, environment: string, name: string)
    ensures SettledFor(files, args, prior, environment, name) <==>
            forall other :: SameIn(files, other, Dir(prior + Parsed(args))) ==>
              ByPrecedence(other, args, prior, environment, name)
  {
    hide ByPrecedence, SameIn, Settled, Plan, Parsed, Dir;
    var start := prior + Parsed(args);
    if SettledFor(files, args, prior, environment, name) {
      forall other | SameIn(files, other, Dir(start))
        ensures ByPrecedence(other, args, prior, environment, name)
      {
        SettledSame(files, other, Dir(start), VAR_BASE_DIR in start, Plan(environment, name));
        Layered(other, args, prior, environment, name);
      }
    } else {
      var other := Unsettled(files, args, prior, environment, name);
    }
  }

  /** A case of it: a local file sets the directory, and the default file beside it is not read. */
  lemma DirMoves()
    ensures var files := map[("./", ".env.development.local") := map["basedir" := "/app"],
                             ("./", ".env") := map["a" := "1"]];
            && Get(AfterStages(files, map[], Plan(DEVELOPMENT, "svc")), "a") == None
            && First(Precedence(files, "./", map[], map[], DEVELOPMENT, "svc"), "a") == Some("1")
  {
    var files: Files := map[("./", ".env.development.local") := map["basedir" := "/app"],
                            ("./", ".env") := map["a" := "1"]];
    var env: Vars := map["basedir" := "/app"];
    var plan := Plan(DEVELOPMENT, "svc");
    assert Effective(files[("./", ".env.development.local")]) == env;
    assert plan[0].file == ".env.development.local";
    assert map[] + env == env;
    assert AfterStage(files, map[], plan[0]) == env;
    Elsewhere(files, env, plan[1..]);
    assert Effective(files[("./", ".env")]) == map["a" := "1"];
    var layers := Precedence(files, "./", map[], map[], DEVELOPMENT, "svc");
    FirstAt(layers, 6, "a");
  }

  lemma {:induction false} Elsewhere(files: Files, env: Vars, stages: seq<Stage>)
    requires forall f :: f in files ==> f.0 != Dir(env)
    ensures AfterStages(files, env, stages) == env
    decreases |stages|
  {
    if stages != [] { Elsewhere(files, env, stages[1..]); }
  }

  lemma {:induction false} FirstAt(layers: seq<Vars>, i: nat, key: string)
    requires i < |layers| && key in layers[i] && forall j :: 0 <= j < i ==> key !in layers[j]
    ensures First(layers, key) == Some(layers[i][key])
    decreases i
  {
    if i > 0 { FirstAt(layers[1..], i - 1, key); }
  }

  /** Setting the directory by default moves nothing where it is set already. */
  lemma DefaultDir()
    ensures var files := map[("/app", ".env") := map["basedir" := "./"]];
            SettledFor(files, [], map["basedir" := "/app"], DEVELOPMENT, "svc")
  {
    var files: Files := map[("/app", ".env") := map["basedir" := "./"]];
    var start: Vars := map["basedir" := "/app"];
    assert start + Parsed([]) == start;
    SetAlready(files, "/app", Plan(DEVELOPMENT, "svc"));
  }

  lemma {:induction false} SetAlready(files: Files, dir: string, stages: seq<Stage>)
    requires forall s :: s in stages && s.override ==> (dir, s.file) !in files
    ensures Settled(files, dir, true, stages)
    decreases |stages|
  {
    if |stages| > 1 {
      assert stages[0] in stages;
      SetAlready(files, dir, stages[1..]);
    }
  }

  // ---------- the two local files ----------

  /** The precedence with the local file of the environment before the general one. */
  function Convention(files: Files, dir: string, args: Vars, prior: Vars, environment: string, name: string)
    : seq<Vars>
  {
    [Content(files, dir, ".env." + environment + ".local")]
    + (if environment != TEST then [Content(files, dir, ".env.local")] else [])
    + [args, prior,
       Content(files, dir, ".env." + environment), Content(files, dir, ".env." + name),
       Content(files, dir, FILE_DEFAULT)]
  }

  /** The general local file beats the local file of the environment.  The values are those of the other
      order exactly for the variables that the two do not both set, to different values. */
  lemma LocalOrder(files: Files, args: seq<string>, prior: Vars, environment: string, name: string, key: string)
    requires environment != TEST && SettledFor(files, args, prior, environment, name)
    ensures var start := prior + Parsed(args); var dir := Dir(start);
            var local := Content(files, dir, ".env.local");
            var ofEnvironment := Content(files, dir, ".env." + environment + ".local");
            Get(AfterStages(files, start, Plan(environment, name)), key) ==
            First(Convention(files, dir, Parsed(args), prior, environment, name), key) <==>
            !(key in local && key in ofEnvironment && local[key] != ofEnvironment[key])
  {
    hide AfterStages, Plan, Parsed, Dir, Content;
    Layered(files, args, prior, environment, name);
    var dir := Dir(prior + Parsed(args));
    var local := Content(files, dir, ".env.local");
    var ofEnvironment := Content(files, dir, ".env." + environment + ".local");
    var rest := [Parsed(args), prior, Content(files, dir, ".env." + environment), Content(files, dir, ".env." + name),
                 Content(files, dir, FILE_DEFAULT)];
    assert Precedence(files, dir, Parsed(args), prior, environment, name) == [local, ofEnvironment] + rest;
    assert Convention(files, dir, Parsed(args), prior, environment, name) == [ofEnvironment, local] + rest;
    FirstTwo(local, ofEnvironment, rest, key);
    FirstTwo(ofEnvironment, local, rest, key);
  }

  lemma FirstTwo(a: Vars, b: Vars, rest: seq<Vars>, key: string)
    ensures First([a, b] + rest, key) ==
            if key in a then Some(a[key]) else if key in b then Some(b[key]) else First(rest, key)
  {
    assert ([a, b] + rest)[1..] == [b] + rest && ([b] + rest)[1..] == rest;
  }

  lemma LocalWins(files: Files, args: seq<string>, prior: Vars, environment: string, name: string, key: string)
    requires environment != TEST && SettledFor(files, args, prior, environment, name)
    requires var dir := Dir(prior + Parsed(args));
             key in Content(files, dir, ".env.local") && key in Content(files, dir, ".env." + environment + ".local")
    ensures var start := prior + Parsed(args); var dir := Dir(start);
            && Get(AfterStages(files, start, Plan(environment, name)), key) ==
               Some(Content(files, dir, ".env.local")[key])
            && First(Convention(files, dir, Parsed(args), prior, environment, name), key) ==
               Some(Content(files, dir, ".env." + environment + ".local")[key])
  {
    hide AfterStages, Plan, Parsed, Dir, Content, SettledFor;
    Layered(files, args, prior, environment, name);
    var dir := Dir(prior + Parsed(args));
    FirstAt(Precedence(files, dir, Parsed(args), prior, environment, name), 0, key);
    FirstAt(Convention(files, dir, Parsed(args), prior, environment, name), 0, key);
  }

  /** A case where they differ. */
  lemma LocalOrderDiffers()
    ensures var files := map[("./", ".env.local") := map["a" := "1"],
                             ("./", ".env.development.local") := map["a" := "2"]];
            && Get(AfterStages(files, map[], Plan(DEVELOPMENT, "svc")), "a") == Some("1")
            && First(Convention(files, "./", map[], map[], DEVELOPMENT, "svc"), "a") == Some("2")
  {
    hide AfterStages, Plan, Convention, First;
    var files: Files := map[("./", ".env.local") := map["a" := "1"],
                            ("./", ".env.development.local") := map["a" := "2"]];
    var none: Vars := map[];
    assert none + Parsed([]) == none;
    NoDir(files, "./", false, Plan(DEVELOPMENT, "svc"));
    assert ".env." + DEVELOPMENT + ".local" == ".env.development.local";
    assert Effective(files[("./", ".env.local")]) == map["a" := "1"];
    assert Effective(files[("./", ".env.development.local")]) == map["a" := "2"];
    hide Settled, Effective;
    LocalWins(files, [], none, DEVELOPMENT, "svc", "a");
  }

  lemma {:induction false} NoDir(files: Files, dir: string, isSet: bool, stages: seq<Stage>)
    requires forall f :: f in files ==> VAR_BASE_DIR !in files[f]
    ensures Settled(files, dir, isSet, stages)
    decreases |stages|
  {
    if |stages| > 1 { NoDir(files, dir, isSet, stages[1..]); }
  }
}
