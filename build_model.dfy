/**
 * What the two drafts of the build tool (build.c and
 * examples/hello_world/build.c) have in common: the build modes, the
 * persisted BuildContext record, the command-line Config and its parser,
 * the configuration block, the world the tool acts on (file modification
 * times, directories, dependency ledgers) and the trace of actions a run
 * performs, and the strings it hands to the shell.
 *
 * Command execution, clocks and the file system are inputs: a run sees
 * an `Fs` value, an exit status for every command it executes (what pclose
 * returns) and the time `now`; it produces an exit and a trace.
 */
module BuildModel {
  import opened CLib

  // ---------------------------------------------------------------------
  // Records

  /** enum Mode. */
  datatype Mode = ModeNone | ModeDev | ModeRel

  /** struct BuildContext: the record kept in build_dir/build_exe.lock. */
  datatype BuildContext = BuildContext(lock: bool, lastBuild: int, lastModif: int, lastMode: Mode)

  /** `struct BuildContext build_ctx = {0}`. */
  const ZeroContext := BuildContext(false, 0, 0, ModeNone)

  /** struct Config: what the command line asked for. */
  datatype Config = Config(run: bool, clean: bool, buildOnly: bool, runArgc: nat, mode: Mode)

  /** `struct Config conf = {0}` (build.c also sets mode to MODE_NONE, its zero). */
  const InitialConfig := Config(false, false, false, 0, ModeNone)

  /** The configuration block at the top of a build.c. */
  datatype Settings = Settings(
    cc: string,             // compiler for the target
    cExe: string,           // target executable name
    cSrc: seq<string>,      // translation units, in order
    cFlags: seq<string>,    // compiler flags
    buildCc: string,        // compiler for build.c itself (hello_world draft only)
    buildC: string,         // path of build.c
    buildDir: string,       // output directory
    buildExe: string,       // the build tool's own executable
    preBuild: seq<string>, postBuild: seq<string>,
    preRun: seq<string>, postRun: seq<string>)

  // ---------------------------------------------------------------------
  // The world and the trace

  /**
   * The file system as the tool sees it: the modification time (seconds)
   * of every path that exists, the directories that exist (by exact name)
   * and the lines of every dependency ledger (.d file) that exists.
   */
  datatype Fs = Fs(mtime: map<string, int>, dirs: set<string>, ledgers: map<string, seq<string>>)

  /** The actions a run performs, in order. */
  datatype Event =
    | Save(ctx: BuildContext)  // a set_build call
    | Exec(cmd: string)        // a command handed to popen
    | RemoveDir(dir: string)   // the `rm -dr build_dir` command
    | Mkdir(dir: string)       // a mkdir call

  /** How a run ends: main returns a code, or an assert aborts the process. */
  datatype Exit = Returned(code: int) | Aborted

  datatype Outcome<R> = Outcome(exit: Exit, trace: seq<Event>, fs: Fs, rec: R)

  /** main's local state between two of its phases. */
  datatype St<R> = St(ctx: BuildContext, fs: Fs, rec: R, trace: seq<Event>)

  /** A phase of main either hands its state on or ends the run. */
  datatype Step<R> = Next(st: St<R>) | Stop(out: Outcome<R>)

  /**
   * What compile_file does for one unit: whether check_deps found it stale,
   * the status it returns, the file system after the mkdir calls and the
   * events it performs.
   */
  datatype UnitRun = UnitRun(changed: bool, ret: int, fs: Fs, events: seq<Event>)

  /** The state the compile loop carries from one unit to the next. */
  datatype PassStatus = Running | Failed | PassAborted
  datatype Pass = Pass(change: bool, fs: Fs, trace: seq<Event>, status: PassStatus)

  /** The Exec events for a list of commands, in order. */
  function Execs(cmds: seq<string>): (r: seq<Event>)
    ensures |r| == |cmds|
    ensures forall k :: 0 <= k < |cmds| ==> r[k] == Exec(cmds[k])
  {
    if cmds == [] then [] else Execs(cmds[..|cmds| - 1]) + [Exec(cmds[|cmds| - 1])]
  }

  /** The Mkdir events for a list of mkdir calls, in order. */
  function Mkdirs(calls: seq<string>): (r: seq<Event>)
    ensures |r| == |calls|
  {
    if calls == [] then [] else Mkdirs(calls[..|calls| - 1]) + [Mkdir(calls[|calls| - 1])]
  }

  /** Event k of Mkdirs(calls) is the mkdir of calls[k]. */
  lemma {:induction false} MkdirsAt(calls: seq<string>)
    ensures forall k :: 0 <= k < |calls| ==> Mkdirs(calls)[k] == Mkdir(calls[k])
    decreases |calls|
  {
    if calls != [] {
      var n := |calls| - 1;
      MkdirsAt(calls[..n]);
      forall k | 0 <= k < n ensures Mkdirs(calls)[k] == Mkdir(calls[k]) {
        assert Mkdirs(calls)[k] == Mkdirs(calls[..n])[k];
      }
    }
  }

  /** The loops `for (...) exec(hooks[i]);`: run every command, ignore its status. */
  method RunHooks(cmds: seq<string>, trace: seq<Event>) returns (t: seq<Event>)
    ensures t == trace + Execs(cmds)
  {
    t := trace;
    for i := 0 to |cmds|
      invariant t == trace + Execs(cmds[..i])
    {
      assert cmds[..i + 1][..i] == cmds[..i];
      t := t + [Exec(cmds[i])];
    }
    assert cmds[..|cmds|] == cmds;
  }

  /** The context the most recent set_build call of a trace was given, if any. */
  function LastSave(t: seq<Event>): (r: Option<BuildContext>)
    ensures r.Some? ==> Save(r.value) in t
    ensures r.None? <==> forall k :: 0 <= k < |t| ==> !t[k].Save?
  {
    if t == [] then None
    else if t[|t| - 1].Save? then Some(t[|t| - 1].ctx)
    else
      var r := LastSave(t[..|t| - 1]);
      assert forall k :: 0 <= k < |t| - 1 ==> t[..|t| - 1][k] == t[k];
      r
  }

  /** The last save of t + u is u's, or t's when u saves nothing. */
  lemma {:induction false} LastSaveAppend(t: seq<Event>, u: seq<Event>)
    ensures LastSave(t + u) == if LastSave(u).Some? then LastSave(u) else LastSave(t)
    decreases |u|
  {
    if u == [] {
      assert t + u == t;
    } else {
      assert (t + u)[..|t + u| - 1] == t + u[..|u| - 1];
      LastSaveAppend(t, u[..|u| - 1]);
    }
  }

  // ---------------------------------------------------------------------
  // "Some element" and "every element" of a sequence, by recursion on its last element

  predicate SomeOf<T>(f: T -> bool, xs: seq<T>)
    decreases |xs|
  {
    xs != [] && (SomeOf(f, xs[..|xs| - 1]) || f(xs[|xs| - 1]))
  }

  predicate AllOf<T>(f: T -> bool, xs: seq<T>)
    decreases |xs|
  {
    xs == [] || (AllOf(f, xs[..|xs| - 1]) && f(xs[|xs| - 1]))
  }

  lemma {:induction false} SomeOfMeaning<T>(f: T -> bool, xs: seq<T>)
    ensures SomeOf(f, xs) <==> exists i :: 0 <= i < |xs| && f(xs[i])
    decreases |xs|
  {
    if xs != [] {
      var n := |xs| - 1;
      var init := xs[..n];
      SomeOfMeaning(f, init);
      if SomeOf(f, init) {
        var i :| 0 <= i < |init| && f(init[i]);
        assert xs[i] == init[i];
      } else if !f(xs[n]) {
        forall i | 0 <= i < |xs| ensures !f(xs[i]) {
          if i < n { assert xs[i] == init[i]; }
        }
      }
    }
  }

  lemma {:induction false} AllOfMeaning<T>(f: T -> bool, xs: seq<T>)
    ensures AllOf(f, xs) <==> forall i :: 0 <= i < |xs| ==> f(xs[i])
    decreases |xs|
  {
    if xs != [] {
      var n := |xs| - 1;
      var init := xs[..n];
      AllOfMeaning(f, init);
      if AllOf(f, xs) {
        forall i | 0 <= i < |xs| ensures f(xs[i]) {
          if i < n { assert xs[i] == init[i]; }
        }
      } else if f(xs[n]) {
        var i :| 0 <= i < |init| && !f(init[i]);
        assert xs[i] == init[i];
      }
    }
  }

  /** A run f that stays put from any stopped point stays at f(k) from a stopped k to m. */
  lemma {:induction false} Stays<T>(f: nat -> T, stopped: T -> bool, k: nat, m: nat)
    requires k <= m && stopped(f(k))
    requires forall j :: k < j <= m && stopped(f(j - 1)) ==> f(j) == f(j - 1)
    ensures f(m) == f(k)
    decreases m
  {
    if m > k {
      Stays(f, stopped, k, m - 1);
    }
  }

  /** A condition that holds at 0 and fails at m first fails right after some i < m. */
  lemma {:induction false} FirstSwitch(b: nat -> bool, m: nat) returns (i: nat)
    requires b(0) && !b(m)
    ensures i < m && b(i) && !b(i + 1)
    decreases m
  {
    if b(m - 1) {
      i := m - 1;
    } else {
      i := FirstSwitch(b, m - 1);
    }
  }

  /** No command ran in t, and every save in t saved ctx. */
  predicate Quiet(t: seq<Event>, ctx: BuildContext) {
    forall k :: 0 <= k < |t| ==> !t[k].Exec? && (t[k].Save? ==> t[k].ctx == ctx)
  }

  lemma {:induction false} QuietAppend(t: seq<Event>, u: seq<Event>, ctx: BuildContext)
    requires Quiet(t, ctx) && Quiet(u, ctx)
    ensures Quiet(t + u, ctx)
  {
    forall k | 0 <= k < |t + u| ensures !(t + u)[k].Exec? && ((t + u)[k].Save? ==> (t + u)[k].ctx == ctx) {
      if k >= |t| { assert (t + u)[k] == u[k - |t|]; }
    }
  }

  /** mkdir calls run no command and save nothing. */
  lemma {:induction false} MkdirsQuiet(calls: seq<string>, ctx: BuildContext)
    ensures Quiet(Mkdirs(calls), ctx)
  {
    MkdirsAt(calls);
  }

  predicate DirExists(fs: Fs, d: string) {
    d in fs.dirs
  }

  /** The file system after mkdir succeeded on every path in calls. */
  function AddDirs(fs: Fs, calls: seq<string>): (r: Fs)
    ensures r.mtime == fs.mtime && r.ledgers == fs.ledgers
    ensures r.dirs == fs.dirs + set x | x in calls
  {
    fs.(dirs := fs.dirs + set x | x in calls)
  }

  /** Path p is dir itself or lies below it. */
  predicate Within(dir: string, p: string) {
    p == dir || (|dir| + 1 <= |p| && p[..|dir| + 1] == dir + "/")
  }

  /** The file system after `rm -dr dir`. */
  function RemoveTree(fs: Fs, dir: string): (r: Fs)
    ensures forall p :: p in r.dirs <==> p in fs.dirs && !Within(dir, p)
    ensures forall p :: p in r.ledgers <==> p in fs.ledgers && !Within(dir, p)
    ensures forall p :: p in r.mtime <==> p in fs.mtime && !Within(dir, p)
    ensures forall p :: p in r.ledgers ==> r.ledgers[p] == fs.ledgers[p]
    ensures forall p :: p in r.mtime ==> r.mtime[p] == fs.mtime[p]
  {
    Fs(map p | p in fs.mtime && !Within(dir, p) :: fs.mtime[p],
       set p | p in fs.dirs && !Within(dir, p),
       map p | p in fs.ledgers && !Within(dir, p) :: fs.ledgers[p])
  }

  // ---------------------------------------------------------------------
  // Command-line parsing (the same in both drafts)

  predicate IsOption(w: string) {
    w == "dev" || w == "rel" || w == "clean" || w == "build-only"
  }

  /** main's argument loop from argv[i] on, with conf filled in so far. */
  function ParseFrom(argv: seq<string>, i: nat, conf: Config): Parsed
    decreases |argv| - i
  {
    if i >= |argv| then Proceed(conf)
    else if argv[i] == "--" then Proceed(conf.(runArgc := i, run := true))
    else if argv[i] == "dev" then ParseFrom(argv, i + 1, conf.(mode := ModeDev))
    else if argv[i] == "rel" then ParseFrom(argv, i + 1, conf.(mode := ModeRel))
    else if argv[i] == "clean" then ParseFrom(argv, i + 1, conf.(clean := true))
    else if argv[i] == "build-only" then ParseFrom(argv, i + 1, conf.(buildOnly := true))
    else if argv[i] == "help" then ShowHelp
    else UnknownCommand(argv[i])
  }

  /** What the argument loop decides: go on with a Config, print help (exit 0), or reject a word (exit 1). */
  datatype Parsed = Proceed(conf: Config) | ShowHelp | UnknownCommand(word: string)

  function Parse(argv: seq<string>): Parsed {
    ParseFrom(argv, 1, InitialConfig)
  }

  /** main's `for (int i = 1; i < argc; i++)` argument loop. */
  method ParseArgs(argv: seq<string>) returns (r: Parsed)
    ensures r == Parse(argv)
  {
    var conf := InitialConfig;
    var i := 1;
    while i < |argv|
      invariant 1 <= i
      invariant ParseFrom(argv, i, conf) == Parse(argv)
      decreases |argv| - i
    {
      if argv[i] == "--" {
        conf := conf.(runArgc := i, run := true);
        return Proceed(conf);
      }
      if argv[i] == "dev" { conf := conf.(mode := ModeDev); }
      else if argv[i] == "rel" { conf := conf.(mode := ModeRel); }
      else if argv[i] == "clean" { conf := conf.(clean := true); }
      else if argv[i] == "build-only" { conf := conf.(buildOnly := true); }
      else if argv[i] == "help" { return ShowHelp; }
      else { return UnknownCommand(argv[i]); }
      i := i + 1;
    }
    r := Proceed(conf);
  }

  /** The words after the program name. */
  function Args(argv: seq<string>): seq<string> {
    if |argv| <= 1 then [] else argv[1..]
  }

  /** Length of the leading run of the four options (dev, rel, clean, build-only). */
  function LeadingOptions(ws: seq<string>): (k: nat)
    ensures k <= |ws|
    ensures forall j :: 0 <= j < k ==> IsOption(ws[j])
    ensures k < |ws| ==> !IsOption(ws[k])
  {
    if ws == [] || !IsOption(ws[0]) then 0 else 1 + LeadingOptions(ws[1..])
  }

  /** The mode the last dev or rel among ws selects, m when there is none. */
  function LastMode(ws: seq<string>, m: Mode): Mode {
    if ws == [] then m
    else if ws[|ws| - 1] == "dev" then ModeDev
    else if ws[|ws| - 1] == "rel" then ModeRel
    else LastMode(ws[..|ws| - 1], m)
  }

  function ModeStep(w: string, m: Mode): Mode {
    if w == "dev" then ModeDev else if w == "rel" then ModeRel else m
  }

  lemma {:induction false} LastModeCons(w: string, ws: seq<string>, m: Mode)
    ensures LastMode([w] + ws, m) == LastMode(ws, ModeStep(w, m))
    decreases |ws|
  {
    if ws == [] {
      assert [w] + ws == [w];
      assert [w][..0] == [];
    } else {
      var last := ws[|ws| - 1];
      assert ([w] + ws)[..|ws|] == [w] + ws[..|ws| - 1];
      if last != "dev" && last != "rel" {
        LastModeCons(w, ws[..|ws| - 1], m);
      }
    }
  }

  /** The Config the options ws yield when parsing stops right after them. */
  function OptionsConfig(ws: seq<string>, c: Config): Config {
    c.(mode := LastMode(ws, c.mode),
       clean := c.clean || "clean" in ws,
       buildOnly := c.buildOnly || "build-only" in ws)
  }

  /** The Config an option word leaves behind. */
  function ApplyOption(w: string, c: Config): Config {
    if w == "dev" then c.(mode := ModeDev)
    else if w == "rel" then c.(mode := ModeRel)
    else if w == "clean" then c.(clean := true)
    else c.(buildOnly := true)
  }

  /**
   * Reference reading of the argument words ws (the first of them at
   * argv index base), started from c: after the leading run of options,
   * "--" starts the run arguments, "help" asks for help and any other word
   * is rejected; the options give the Config.
   */
  function ParseOutcome(ws: seq<string>, base: nat, c: Config): Parsed {
    var k := LeadingOptions(ws);
    var d := OptionsConfig(ws[..k], c);
    if k == |ws| then Proceed(d)
    else if ws[k] == "--" then Proceed(d.(runArgc := base + k, run := true))
    else if ws[k] == "help" then ShowHelp
    else UnknownCommand(ws[k])
  }

  lemma {:induction false} ParseOutcomeCons(w: string, ws: seq<string>, base: nat, c: Config)
    requires IsOption(w)
    ensures ParseOutcome([w] + ws, base, c) == ParseOutcome(ws, base + 1, ApplyOption(w, c))
  {
    var ws0 := [w] + ws;
    assert ws0[1..] == ws;
    var k := LeadingOptions(ws);
    assert LeadingOptions(ws0) == 1 + k;
    assert ws0[..1 + k] == [w] + ws[..k];
    OptionsConfigCons(w, ws[..k], c);
    if k < |ws| { assert ws0[1 + k] == ws[k]; }
  }

  /** Reading one option word first is applying it to the Config the rest start from. */
  lemma {:induction false} OptionsConfigCons(w: string, ws: seq<string>, c: Config)
    requires IsOption(w)
    ensures OptionsConfig([w] + ws, c) == OptionsConfig(ws, ApplyOption(w, c))
  {
    LastModeCons(w, ws, c.mode);
    assert ApplyOption(w, c).mode == ModeStep(w, c.mode);
    assert "clean" in [w] + ws <==> w == "clean" || "clean" in ws;
    assert "build-only" in [w] + ws <==> w == "build-only" || "build-only" in ws;
  }

  /** Without a leading option the reference reading decides on the first word alone, with c unchanged. */
  lemma {:induction false} ParseOutcomeAtWord(ws: seq<string>, base: nat, c: Config)
    requires ws == [] || !IsOption(ws[0])
    ensures ParseOutcome(ws, base, c) ==
              if ws == [] then Proceed(c)
              else if ws[0] == "--" then Proceed(c.(runArgc := base, run := true))
              else if ws[0] == "help" then ShowHelp
              else UnknownCommand(ws[0])
  {
    assert LeadingOptions(ws) == 0;
    assert ws[..0] == [];
    assert OptionsConfig([], c) == c;
  }

  /** An option word is applied and the loop goes on with the next word. */
  lemma {:induction false} ParseFromOption(argv: seq<string>, i: nat, c: Config)
    requires i < |argv| && IsOption(argv[i])
    ensures ParseFrom(argv, i, c) == ParseFrom(argv, i + 1, ApplyOption(argv[i], c))
  {
  }

  lemma {:induction false} ParseFromMeaning(argv: seq<string>, i: nat, c: Config)
    requires 1 <= i <= |argv|
    ensures ParseFrom(argv, i, c) == ParseOutcome(argv[i..], i, c)
    decreases |argv| - i
  {
    var ws := argv[i..];
    if i == |argv| {
      assert ws == [];
      ParseOutcomeAtWord(ws, i, c);
    } else if !IsOption(argv[i]) {
      assert ws[0] == argv[i];
      ParseOutcomeAtWord(ws, i, c);
    } else {
      var w := argv[i];
      ParseFromOption(argv, i, c);
      ParseFromMeaning(argv, i + 1, ApplyOption(w, c));
      assert ws == [w] + argv[i + 1..];
      ParseOutcomeCons(w, argv[i + 1..], i, c);
    }
  }

  /**
   * The argument loop as a whole agrees with the reference reading: the
   * last dev/rel wins, clean and build-only once seen stay set, "--" stops
   * parsing and records its index, "help" gives help, other words are rejected.
   */
  lemma {:induction false} ParseMeaning(argv: seq<string>)
    ensures Parse(argv) == ParseOutcome(Args(argv), 1, InitialConfig)
  {
    if |argv| <= 1 {
      assert Args(argv) == [];
      assert Args(argv)[..0] == [];
      assert LastMode([], ModeNone) == ModeNone;
    } else {
      ParseFromMeaning(argv, 1, InitialConfig);
    }
  }

  /** With only options before a "--" at index k, parsing proceeds with the run arguments from k. */
  lemma {:induction false} ParseAtDashes(argv: seq<string>, k: nat)
    requires 1 <= k < |argv| && argv[k] == "--"
    requires forall j :: 1 <= j < k ==> IsOption(argv[j])
    ensures Parse(argv) == Proceed(OptionsConfig(argv[1..k], InitialConfig).(runArgc := k, run := true))
  {
    ParseMeaning(argv);
    var ws := Args(argv);
    assert ws == argv[1..];
    assert ws[k - 1] == argv[k];
    forall j | 0 <= j < k - 1 ensures IsOption(ws[j]) { assert ws[j] == argv[j + 1]; }
    LeadingOptionsAt(ws, k - 1);
    assert ws[..k - 1] == argv[1..k];
  }

  /** Words after "--" are never looked at: changing them changes nothing. */
  lemma {:induction false} ParseIgnoresRunArgs(argv: seq<string>, argv': seq<string>, k: nat)
    requires 1 <= k < |argv| && k < |argv'| && argv[..k + 1] == argv'[..k + 1]
    requires argv[k] == "--"
    requires forall j :: 1 <= j < k ==> IsOption(argv[j])
    ensures Parse(argv) == Parse(argv')
    ensures Parse(argv).Proceed? && Parse(argv).conf.run && Parse(argv).conf.runArgc == k
  {
    forall j | 1 <= j <= k ensures argv'[j] == argv[j] {
      assert argv[..k + 1][j] == argv'[..k + 1][j];
    }
    ParseAtDashes(argv, k);
    ParseAtDashes(argv', k);
    assert argv[1..k] == argv'[1..k];
  }

  lemma {:induction false} LeadingOptionsAt(ws: seq<string>, k: nat)
    requires k < |ws| && !IsOption(ws[k])
    requires forall j :: 0 <= j < k ==> IsOption(ws[j])
    ensures LeadingOptions(ws) == k
  {
    if k > 0 {
      assert IsOption(ws[0]);
      LeadingOptionsAt(ws[1..], k - 1);
    }
  }

  // ---------------------------------------------------------------------
  // Forwarded command lines

  /** " w1 w2 ...": what `sprintf(cmd, "%s %s", cmd, w)` appends, word by word. */
  function SpaceJoined(ws: seq<string>): string {
    if ws == [] then "" else SpaceJoined(ws[..|ws| - 1]) + " " + ws[|ws| - 1]
  }

  /** ws without its "clean" words, the others in order. */
  function WithoutClean(ws: seq<string>): seq<string> {
    if ws == [] then []
    else if ws[|ws| - 1] == "clean" then WithoutClean(ws[..|ws| - 1])
    else WithoutClean(ws[..|ws| - 1]) + [ws[|ws| - 1]]
  }

  /** Filtering keeps exactly the words other than "clean". */
  lemma {:induction false} WithoutCleanMembers(ws: seq<string>, x: string)
    ensures x in WithoutClean(ws) <==> x in ws && x != "clean"
  {
    if ws != [] {
      WithoutCleanMembers(ws[..|ws| - 1], x);
      assert ws == ws[..|ws| - 1] + [ws[|ws| - 1]];
    }
  }

  /** Without any "clean" word nothing is dropped. */
  lemma {:induction false} WithoutCleanIdentity(ws: seq<string>)
    requires "clean" !in ws
    ensures WithoutClean(ws) == ws
  {
    if ws != [] {
      assert "clean" !in ws[..|ws| - 1];
      WithoutCleanIdentity(ws[..|ws| - 1]);
      assert ws == ws[..|ws| - 1] + [ws[|ws| - 1]];
    }
  }

  /** The command that re-runs the freshly built tool: build_exe and every argument but "clean". */
  function RerunCommand(exe: string, argv: seq<string>): string {
    exe + SpaceJoined(WithoutClean(Args(argv)))
  }

  /** The command that runs the target: build_dir/c_exe and the words after "--". */
  function RunCommand(s: Settings, argv: seq<string>, runArgc: nat): string {
    s.buildDir + "/" + s.cExe + SpaceJoined(if runArgc + 1 <= |argv| then argv[runArgc + 1..] else [])
  }

  /** main's loop that builds the re-run command (build.c:303-307, hello_world 281-285). */
  method BuildRerunCommand(exe: string, argv: seq<string>) returns (cmd: string)
    ensures cmd == RerunCommand(exe, argv)
  {
    cmd := exe;
    if |argv| <= 1 { return; }
    var ws := argv[1..];
    var i := 1;
    while i < |argv|
      invariant 1 <= i <= |argv|
      invariant cmd == exe + SpaceJoined(WithoutClean(ws[..i - 1]))
    {
      RerunStep(exe, ws, i);
      if argv[i] != "clean" {
        cmd := cmd + " " + argv[i];
      }
      i := i + 1;
    }
    assert ws[..|argv| - 1] == ws;
  }

  /** One more word of argv: the command grows by " " and the word unless the word is "clean". */
  lemma {:induction false} RerunStep(exe: string, ws: seq<string>, i: nat)
    requires 1 <= i <= |ws|
    ensures exe + SpaceJoined(WithoutClean(ws[..i])) ==
            exe + SpaceJoined(WithoutClean(ws[..i - 1])) + (if ws[i - 1] == "clean" then "" else " " + ws[i - 1])
  {
    assert ws[..i][..i - 1] == ws[..i - 1];
    var u := WithoutClean(ws[..i - 1]);
    if ws[i - 1] != "clean" {
      assert WithoutClean(ws[..i]) == u + [ws[i - 1]];
      assert (u + [ws[i - 1]])[..|u|] == u;
    }
  }

  /** main's loop that builds the run command (build.c:343-345, hello_world 315-316). */
  method BuildRunCommand(s: Settings, argv: seq<string>, runArgc: nat) returns (cmd: string)
    ensures cmd == RunCommand(s, argv, runArgc)
  {
    cmd := s.buildDir + "/" + s.cExe;
    if runArgc + 1 > |argv| { return; }
    var ws := argv[runArgc + 1..];
    var i := runArgc + 1;
    while i < |argv|
      invariant runArgc + 1 <= i <= |argv|
      invariant cmd == s.buildDir + "/" + s.cExe + SpaceJoined(ws[..i - runArgc - 1])
    {
      assert ws[..i - runArgc] == ws[..i - runArgc - 1] + [argv[i]];
      assert ws[..i - runArgc][..i - runArgc - 1] == ws[..i - runArgc - 1];
      cmd := cmd + " " + argv[i];
      i := i + 1;
    }
    assert ws[..|argv| - runArgc - 1] == ws;
  }

  // ---------------------------------------------------------------------
  // Objects, ledgers, compile and link commands

  /** A source path split into directory and base name. */
  datatype PathParts = PathParts(dir: string, base: string)

  /** strtok(base, "."): the first '.'-free run; glibc prints a NULL token as "(null)". */
  function Stem(base: string): string {
    var t := Tokens(base, '.');
    if t == [] then "(null)" else t[0]
  }

  /** A base name that does not start with '.' has the stem before its first '.'. */
  lemma {:induction false} StemOfName(b: string)
    requires |b| > 0 && b[0] != '.'
    ensures Stem(b) == b[..Span(b, '.')]
    ensures '.' !in Stem(b)
  {
    assert Tokens(b, '.')[0] == b[..Span(b, '.')];
  }

  /** strtok(n.e, ".") gives n for a nonempty n without '.'. */
  lemma {:induction false} StemOfDotted(n: string, e: string)
    requires |n| > 0 && '.' !in n
    ensures Stem(n + "." + e) == n
  {
    TokensOfSplit(n, '.', e);
  }

  function OutputDir(buildDir: string, p: PathParts): string {
    buildDir + "/" + p.dir
  }

  /** build_dir/dir/stem.o */
  function ObjectFile(buildDir: string, p: PathParts): string {
    OutputDir(buildDir, p) + "/" + Stem(p.base) + ".o"
  }

  /** build_dir/dir/stem.d, the ledger clang -MD writes beside the object. */
  function LedgerFile(buildDir: string, p: PathParts): string {
    OutputDir(buildDir, p) + "/" + Stem(p.base) + ".d"
  }

  /** The object and ledger of a unit whose base name has stem n. */
  lemma {:induction false} FilesOfStem(buildDir: string, p: PathParts, n: string)
    requires Stem(p.base) == n
    ensures ObjectFile(buildDir, p) == buildDir + "/" + p.dir + "/" + n + ".o"
    ensures LedgerFile(buildDir, p) == buildDir + "/" + p.dir + "/" + n + ".d"
  {
  }

  /** build_dir/. followed by "/" is build_dir followed by "/./". */
  lemma {:induction false} DotDirText(h: string)
    ensures h + "/" + "." + "/" == h + "/./"
  {
    assert "/" + "." + "/" == "/./";
  }

  /** Every ledger lies inside build_dir. */
  lemma {:induction false} LedgerFileWithin(buildDir: string, p: PathParts)
    ensures Within(buildDir, LedgerFile(buildDir, p))
  {
    var rest := p.dir + "/" + Stem(p.base) + ".d";
    assert LedgerFile(buildDir, p) == buildDir + "/" + rest;
    assert (buildDir + "/" + rest)[..|buildDir| + 1] == buildDir + "/";
  }

  /** The object and the ledger of a unit differ only in their last letter. */
  lemma {:induction false} ObjectLedgerTwins(buildDir: string, p: PathParts)
    ensures var o, d := ObjectFile(buildDir, p), LedgerFile(buildDir, p);
            |o| == |d| && o[..|o| - 1] == d[..|d| - 1] && o[|o| - 1] == 'o' && d[|d| - 1] == 'd'
  {
  }

  /** "f1 f2 ... ", what the flag loops append. */
  function FlagText(flags: seq<string>): string {
    if flags == [] then "" else FlagText(flags[..|flags| - 1]) + flags[|flags| - 1] + " "
  }

  /** append_flags (hello_world build.c:156-158; build.c inlines the same loop). */
  method AppendFlags(cmd: string, flags: seq<string>) returns (r: string)
    ensures r == cmd + FlagText(flags)
  {
    r := cmd;
    for i := 0 to |flags|
      invariant r == cmd + FlagText(flags[..i])
    {
      assert flags[..i + 1][..i] == flags[..i];
      r := r + flags[i] + " ";
    }
    assert flags[..|flags|] == flags;
  }

  /** "cc -c path -o build_dir/dir/stem.o flags..." */
  function CompileCommand(s: Settings, path: string, p: PathParts): string {
    s.cc + " -c " + path + " -o " + ObjectFile(s.buildDir, p) + " " + FlagText(s.cFlags)
  }

  /** f applied to each element, in order. */
  function Map<T>(f: T -> string, xs: seq<T>): (r: seq<string>)
    ensures |r| == |xs|
    ensures forall i :: 0 <= i < |xs| ==> r[i] == f(xs[i])
    decreases |xs|
  {
    if xs == [] then [] else Map(f, xs[..|xs| - 1]) + [f(xs[|xs| - 1])]
  }

  lemma {:induction false} MapAppend<T>(f: T -> string, a: seq<T>, b: seq<T>)
    ensures Map(f, a + b) == Map(f, a) + Map(f, b)
  {
    var l, r := Map(f, a + b), Map(f, a) + Map(f, b);
    forall i | 0 <= i < |l| ensures l[i] == r[i] {
      if i < |a| {
        assert (a + b)[i] == a[i];
      } else {
        assert (a + b)[i] == b[i - |a|];
      }
    }
  }

  lemma {:induction false} MapTake<T>(f: T -> string, xs: seq<T>, k: nat)
    requires k <= |xs|
    ensures Map(f, xs)[..k] == Map(f, xs[..k])
  {
  }

  lemma {:induction false} MapDrop<T>(f: T -> string, xs: seq<T>, k: nat)
    requires k <= |xs|
    ensures Map(f, xs)[k..] == Map(f, xs[k..])
  {
    var l, r := Map(f, xs)[k..], Map(f, xs[k..]);
    forall i | 0 <= i < |l| ensures l[i] == r[i] {
      assert xs[k..][i] == xs[k + i];
    }
  }

  /** The object of every unit, in the units' order. */
  function Objects(buildDir: string, ps: seq<PathParts>): (r: seq<string>)
    ensures |r| == |ps|
    ensures forall i :: 0 <= i < |ps| ==> r[i] == ObjectFile(buildDir, ps[i])
  {
    Map(p => ObjectFile(buildDir, p), ps)
  }

  /** "obj1 obj2 ... ", one object per unit. */
  function ObjectList(buildDir: string, ps: seq<PathParts>): string {
    FlagText(Objects(buildDir, ps))
  }

  function LinkHead(s: Settings): string {
    s.cc + " -o " + s.buildDir + "/" + s.cExe + " " + FlagText(s.cFlags)
  }

  /** compile_exe's command: the flags, then the object of every unit. */
  function LinkCommand(s: Settings, ps: seq<PathParts>): string {
    LinkHead(s) + ObjectList(s.buildDir, ps)
  }

  /** The text of a concatenation of words is the concatenation of their texts. */
  lemma {:induction false} FlagTextAppend(a: seq<string>, b: seq<string>)
    ensures FlagText(a + b) == FlagText(a) + FlagText(b)
    decreases |b|
  {
    if b == [] {
      assert a + b == a;
    } else {
      var b', w := b[..|b| - 1], b[|b| - 1];
      assert (a + b)[..|a + b| - 1] == a + b';
      assert (a + b)[|a + b| - 1] == w;
      FlagTextAppend(a, b');
      var la, lb := FlagText(a), FlagText(b');
      assert la + lb + w + " " == la + (lb + w + " ");
    }
  }

  /** The objects of a concatenation of units are the objects of each part. */
  lemma {:induction false} ObjectsAppend(buildDir: string, a: seq<PathParts>, b: seq<PathParts>)
    ensures Objects(buildDir, a + b) == Objects(buildDir, a) + Objects(buildDir, b)
  {
    MapAppend(p => ObjectFile(buildDir, p), a, b);
  }

  lemma {:induction false} ObjectListAppend(buildDir: string, a: seq<PathParts>, b: seq<PathParts>)
    ensures ObjectList(buildDir, a + b) == ObjectList(buildDir, a) + ObjectList(buildDir, b)
  {
    ObjectsAppend(buildDir, a, b);
    FlagTextAppend(Objects(buildDir, a), Objects(buildDir, b));
  }

  /** Splitting the words splits their text. */
  lemma {:induction false} FlagTextSplit(ws: seq<string>, k: nat)
    requires k <= |ws|
    ensures FlagText(ws) == FlagText(ws[..k]) + FlagText(ws[k..])
  {
    assert ws == ws[..k] + ws[k..];
    FlagTextAppend(ws[..k], ws[k..]);
  }

  lemma {:induction false} FlagTextLast(ws: seq<string>, i: nat)
    requires i < |ws|
    ensures FlagText(ws[..i + 1]) == FlagText(ws[..i]) + ws[i] + " "
  {
    assert ws[..i + 1][..i] == ws[..i];
  }

  /** Word i stands between the words before and after it. */
  lemma {:induction false} FlagTextAt(ws: seq<string>, i: nat)
    requires i < |ws|
    ensures FlagText(ws) == FlagText(ws[..i]) + (ws[i] + " ") + FlagText(ws[i + 1..])
  {
    FlagTextSplit(ws, i + 1);
    FlagTextLast(ws, i);
    var l, o, r := FlagText(ws[..i]), ws[i], FlagText(ws[i + 1..]);
    assert l + o + " " + r == l + (o + " ") + r;
  }

  /** compile_exe's loop appends one object per unit to the command. */
  lemma {:induction false} ObjectListStep(head: string, buildDir: string, ps: seq<PathParts>, i: nat)
    requires i < |ps|
    ensures head + ObjectList(buildDir, ps[..i]) + ObjectFile(buildDir, ps[i]) + " " == head + ObjectList(buildDir, ps[..i + 1])
  {
    var os := Objects(buildDir, ps);
    var l, o := FlagText(os[..i]), os[i];
    assert head + l + o + " " == head + (l + o + " ");
    FlagTextLast(os, i);
    MapTake(p => ObjectFile(buildDir, p), ps, i);
    MapTake(p => ObjectFile(buildDir, p), ps, i + 1);
  }

  /** Unit i's object stands between the objects of the units before and after it. */
  lemma {:induction false} ObjectListAt(buildDir: string, ps: seq<PathParts>, i: nat)
    requires i < |ps|
    ensures ObjectList(buildDir, ps) ==
      ObjectList(buildDir, ps[..i]) + (ObjectFile(buildDir, ps[i]) + " ") + ObjectList(buildDir, ps[i + 1..])
  {
    FlagTextAt(Objects(buildDir, ps), i);
    MapTake(p => ObjectFile(buildDir, p), ps, i);
    MapDrop(p => ObjectFile(buildDir, p), ps, i + 1);
  }

  /**
   * The link command names the object of every unit, in the units' order,
   * whether or not the unit was recompiled.
   */
  lemma {:induction false} LinkListsEveryObject(s: Settings, ps: seq<PathParts>, i: nat)
    requires i < |ps|
    ensures LinkCommand(s, ps) ==
      LinkHead(s) + ObjectList(s.buildDir, ps[..i]) + (ObjectFile(s.buildDir, ps[i]) + " ")
      + ObjectList(s.buildDir, ps[i + 1..])
  {
    ObjectListAt(s.buildDir, ps, i);
    var a, o, b := ObjectList(s.buildDir, ps[..i]), ObjectFile(s.buildDir, ps[i]) + " ", ObjectList(s.buildDir, ps[i + 1..]);
    assert LinkHead(s) + (a + o + b) == LinkHead(s) + a + o + b;
  }

  // ---------------------------------------------------------------------
  // rec_mkdir's sequence of mkdir calls

  /** The prefixes u[..p] for every '/' at an index 1 <= p < n, shortest first. */
  function SlashPrefixes(u: string, n: nat): (r: seq<string>)
    requires n <= |u|
  {
    if n <= 1 then []
    else SlashPrefixes(u, n - 1) + (if u[n - 1] == '/' then [u[..n - 1]] else [])
  }

  /** rec_mkdir's calls on the (already prepared) buffer u: every slash prefix, then u. */
  function MkdirSequence(u: string): seq<string> {
    SlashPrefixes(u, |u|) + [u]
  }

  /** Each string of r is a prefix of u shorter than n. */
  predicate PrefixesBelow(r: seq<string>, u: string, n: nat) {
    forall k :: 0 <= k < |r| ==> |r[k]| < n && |r[k]| <= |u| && r[k] == u[..|r[k]|]
  }

  lemma {:induction false} SlashPrefixesArePrefixes(u: string, n: nat)
    requires n <= |u|
    ensures PrefixesBelow(SlashPrefixes(u, n), u, n)
  {
    if n > 1 {
      SlashPrefixesArePrefixes(u, n - 1);
      var r0 := SlashPrefixes(u, n - 1);
      assert PrefixesBelow(r0, u, n - 1);
      var r := SlashPrefixes(u, n);
      forall k | 0 <= k < |r| ensures |r[k]| < n && |r[k]| <= |u| && r[k] == u[..|r[k]|] {
        if k < |r0| {
          assert r[k] == r0[k];
        } else {
          assert r[k] == u[..n - 1];
        }
      }
    }
  }

  lemma {:induction false} SlashPrefixesStep(u: string, i: nat)
    requires 1 <= i < |u|
    ensures SlashPrefixes(u, i + 1) == SlashPrefixes(u, i) + (if u[i] == '/' then [u[..i]] else [])
  {
  }

  lemma {:induction false} SlashPrefixesMembers(u: string, n: nat, x: string)
    requires n <= |u|
    ensures x in SlashPrefixes(u, n) <==> exists p :: 1 <= p < n && u[p] == '/' && x == u[..p]
  {
    if n > 1 {
      SlashPrefixesMembers(u, n - 1, x);
      if x == u[..n - 1] && u[n - 1] == '/' {
        assert 1 <= n - 1 < n && u[n - 1] == '/';
      }
    }
  }

  /** Each string strictly longer than the ones before it. */
  predicate LengthsIncrease(r: seq<string>) {
    forall i, j :: 0 <= i < j < |r| ==> |r[i]| < |r[j]|
  }

  lemma {:induction false} SlashPrefixesIncreasing(u: string, n: nat)
    requires n <= |u|
    ensures LengthsIncrease(SlashPrefixes(u, n))
  {
    if n > 1 {
      SlashPrefixesIncreasing(u, n - 1);
      SlashPrefixesArePrefixes(u, n - 1);
      var r0 := SlashPrefixes(u, n - 1);
      assert LengthsIncrease(r0) && PrefixesBelow(r0, u, n - 1);
      var tail := if u[n - 1] == '/' then [u[..n - 1]] else [];
      var r := SlashPrefixes(u, n);
      assert r == r0 + tail;
      forall i, j | 0 <= i < j < |r| ensures |r[i]| < |r[j]| {
        assert r[i] == r0[i] && |r0[i]| < n - 1;
        if j < |r0| {
          assert r[j] == r0[j] && |r0[i]| < |r0[j]|;
        } else {
          assert r[j] == tail[0] == u[..n - 1];
        }
      }
    }
  }

  /**
   * rec_mkdir creates u's ancestors before u: a directory for every '/'
   * after position 0 (the prefix just before it), each one a prefix of the
   * next, and u itself last.
   */
  lemma {:induction false} MkdirSequenceMeaning(u: string)
    ensures var r := MkdirSequence(u);
            |r| > 0 && r[|r| - 1] == u
            && (forall x :: x in r <==> x == u || exists p :: 1 <= p < |u| && u[p] == '/' && x == u[..p])
            && (forall i, j :: 0 <= i < j < |r| ==> |r[i]| < |r[j]| && r[i] == r[j][..|r[i]|])
  {
    var r := MkdirSequence(u);
    forall x ensures x in r <==> x == u || exists p :: 1 <= p < |u| && u[p] == '/' && x == u[..p] {
      SlashPrefixesMembers(u, |u|, x);
    }
    SlashPrefixesIncreasing(u, |u|);
    SlashPrefixesArePrefixes(u, |u|);
    var q := SlashPrefixes(u, |u|);
    assert LengthsIncrease(q) && PrefixesBelow(q, u, |u|);
    assert r == q + [u];
    forall k | 0 <= k < |r| ensures |r[k]| <= |u| && r[k] == u[..|r[k]|] {
      if k < |q| {
        assert r[k] == q[k];
      } else {
        assert r[k] == u && u[..|u|] == u;
      }
    }
    assert forall i, j :: 0 <= i < j < |r| ==> |r[i]| < |r[j]| by {
      forall i, j | 0 <= i < j < |r| ensures |r[i]| < |r[j]| {
        assert r[i] == q[i] && |q[i]| < |u|;
        if j == |r| - 1 {
          assert r[j] == u;
        } else {
          assert r[j] == q[j] && |q[i]| < |q[j]|;
        }
      }
    }
  }

  /** A NUL stored at index i of a buffer whose first n > i cells hold no NUL cuts its string to the first i. */
  lemma {:induction false} CStrCut(b: seq<char>, n: nat, i: nat)
    requires i < n < |b| && NoNul(b[..n])
    ensures CStr(b[i := '\0']) == b[..i]
  {
    var c := b[i := '\0'];
    assert c[..i] == b[..i];
    forall j | 0 <= j < i ensures c[..i][j] != '\0' { assert c[..i][j] == b[..n][j]; }
    CStrAt(c, i);
  }

  /** `*p = 0; mkdir(tmp); *p = '/';` at index i: the path handed to mkdir is the text before the '/'. */
  method MkdirPrefix(tmp: array<char>, ghost n: nat, i: nat) returns (path: string)
    requires i < n < tmp.Length && NoNul(tmp[..n]) && tmp[i] == '/'
    modifies tmp
    ensures tmp[..] == old(tmp[..]) && path == tmp[..i]
  {
    ghost var b := tmp[..];
    CStrCut(b, n, i);
    tmp[i] := '\0';
    assert tmp[..] == b[i := '\0'];
    path := CStr(tmp[..]);
    tmp[i] := '/';
    assert tmp[..] == b;
  }

  /**
   * The loop both rec_mkdir drafts share, on the prepared buffer tmp:
   * `for (p = tmp + 1; *p; p++) if (*p == '/') { *p = 0; mkdir(tmp); *p = '/'; }`
   * followed by `mkdir(tmp)`. It returns the paths handed to mkdir, in order.
   */
  method MkdirWalk(tmp: array<char>) returns (calls: seq<string>)
    requires |CStr(tmp[..])| < tmp.Length
    requires CStr(tmp[..]) == [] ==> 1 < tmp.Length && tmp[1] == '\0'
    modifies tmp
    ensures tmp[..] == old(tmp[..])
    ensures calls == MkdirSequence(CStr(old(tmp[..])))
  {
    ghost var u := CStr(tmp[..]);
    ghost var n := |u|;
    assert u == tmp[..n] && tmp[n] == '\0';
    calls := [];
    var i := 1;
    while tmp[i] != '\0'
      invariant 1 <= i < tmp.Length
      invariant n == 0 ==> i == 1
      invariant n > 0 ==> i <= n
      invariant tmp[..] == old(tmp[..])
      invariant calls == (if n == 0 then [] else SlashPrefixes(u, i))
      decreases n - i
    {
      assert i < n;
      if tmp[i] == '/' {
        assert u[i] == '/';
        var path := MkdirPrefix(tmp, n, i);
        assert path == u[..i];
        calls := calls + [path];
      }
      SlashPrefixesStep(u, i);
      i := i + 1;
    }
    if n > 0 { assert i == n; }
    calls := calls + [CStr(tmp[..])];
  }

  // ---------------------------------------------------------------------
  // Ledger lines

  /** The tokens strtok(line, " ") yields; like strdup, it reads up to the first NUL. */
  function LineTokens(line: string): seq<string> {
    Tokens(CStr(line), ' ')
  }

  /** A token with its trailing newline removed, as both check_deps loops do. */
  function StripNewline(t: string): (r: string)
    ensures r <= t && |t| <= |r| + 1
    ensures |r| < |t| <==> |t| > 0 && t[|t| - 1] == '\n'
  {
    if |t| > 0 && t[|t| - 1] == '\n' then t[..|t| - 1] else t
  }
}
